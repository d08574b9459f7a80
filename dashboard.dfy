/**
 * The dashboard's handling of one pushed event: the card it builds (the
 * CSS classes, the escaped author and text, the tier's tag and the
 * "View User" link), the one feed the card is prepended to, and the guard
 * that keeps `connectWS` from opening a second socket. A field the event
 * lacks, or holds a falsy value in, is `None`.
 */
module Dashboard {
  import opened Wrappers
  import opened Text
  import opened HtmlEscape
  import opened Classifier
  import Cli
  import Worker
  import JsonEscape
  import VideoId

  datatype EvtLinks = EvtLinks(user: Option<string>, searchUser: Option<string>)

  /** A parsed event as the page reads it. */
  datatype Evt = Evt(tier: Option<string>, author: Option<string>, text: Option<string>, links: Option<EvtLinks>)

  /** The tag's CSS class and label for a tier. */
  datatype Tag = Tag(cls: string, text: string)

  function TagFor(tier: Option<string>): (t: Tag)
    ensures tier == Some("LIKELY_TOXIC") <==> t == Tag("bad", "Likely Toxic Chat")
    ensures tier == Some("TOXIC_ELEMENTS") <==> t == Tag("mid", "Toxic Elements in Chat")
    ensures tier == Some("SYSTEM") <==> t == Tag("mid", "System")
    ensures tier !in {Some("LIKELY_TOXIC"), Some("TOXIC_ELEMENTS"), Some("SYSTEM")} <==> t == Tag("good", "Normal Chat")
  {
    if tier == Some("LIKELY_TOXIC") then Tag("bad", "Likely Toxic Chat")
    else if tier == Some("TOXIC_ELEMENTS") then Tag("mid", "Toxic Elements in Chat")
    else if tier == Some("SYSTEM") then Tag("mid", "System")
    else Tag("good", "Normal Chat")
  }

  /** `a || b` on optional strings: the empty string counts as missing. */
  function OrElse(a: Option<string>, b: string): string {
    if a.Some? && a.value != "" then a.value else b
  }

  /** `evt.links?.user || evt.links?.search_user || ""`. */
  function UserLink(links: Option<EvtLinks>): (r: string)
    ensures links.Some? && links.value.user.Some? && links.value.user.value != "" ==> r == links.value.user.value
    ensures ((links.None? || links.value.user.None? || links.value.user.value == "")
             && links.Some? && links.value.searchUser.Some?) ==> r == links.value.searchUser.value
    ensures r == "" <==> (links.None? || ((links.value.user.None? || links.value.user.value == "")
                                         && (links.value.searchUser.None? || links.value.searchUser.value == "")))
  {
    match links
    case None => ""
    case Some(l) => OrElse(l.user, OrElse(l.searchUser, ""))
  }

  /** What the card shows. `viewUser` is the anchor's target, present only for a non-empty link. */
  datatype Card = Card(className: string, authorHtml: string, textHtml: string, tag: Tag, viewUser: Option<string>)

  /** `CreateMsgCard`, without the score formatting and the DOM. */
  function CreateMsgCard(evt: Evt): (c: Card)
    ensures c.className == "msg system" <==> evt.tier == Some("SYSTEM")
    ensures c.className == "msg" <==> evt.tier != Some("SYSTEM")
    ensures c.tag == TagFor(evt.tier)
    ensures c.viewUser.Some? <==> UserLink(evt.links) != ""
    ensures c.viewUser.Some? ==> c.viewUser.value == UserLink(evt.links)
    ensures DecodeHtml(c.authorHtml) == Some(OrElse(evt.author, ""))
    ensures DecodeHtml(c.textHtml) == Some(OrElse(evt.text, ""))
  {
    var link := UserLink(evt.links);
    DecodeEscapeHtml(OrElse(evt.author, ""));
    DecodeEscapeHtml(OrElse(evt.text, ""));
    Card(
      "msg" + (if evt.tier == Some("SYSTEM") then " system" else ""),
      EscapeHtml(OrElse(evt.author, "")),
      EscapeHtml(OrElse(evt.text, "")),
      TagFor(evt.tier),
      if link != "" then Some(link) else None)
  }

  datatype Feed = LikelyFeed | ElementsFeed | NormalFeed

  /** The feed `MsgCardClassification` picks: unknown tiers and SYSTEM go with the toxic elements. */
  function FeedFor(tier: Option<string>): (f: Feed)
    ensures f == LikelyFeed <==> tier == Some("LIKELY_TOXIC")
    ensures f == NormalFeed <==> tier == Some("NORMAL")
    ensures f == ElementsFeed <==> tier != Some("LIKELY_TOXIC") && tier != Some("NORMAL")
  {
    if tier == Some("LIKELY_TOXIC") then LikelyFeed
    else if tier == Some("TOXIC_ELEMENTS") then ElementsFeed
    else if tier == Some("NORMAL") then NormalFeed
    else ElementsFeed
  }

  /** A `WebSocket`: 0 connecting, 1 open, 2 closing, 3 closed. */
  class Socket {
    const url: string
    var readyState: nat

    constructor(u: string)
      ensures url == u && readyState == 0
    {
      url := u;
      readyState := 0;
    }
  }

  /** The page's three feed containers, newest card first, and the module-level `ws`. */
  class Page {
    var feedLikely: seq<Card>
    var feedElements: seq<Card>
    var feedNormal: seq<Card>
    var ws: Socket?

    constructor()
      ensures feedLikely == [] && feedElements == [] && feedNormal == [] && ws == null
    {
      feedLikely := [];
      feedElements := [];
      feedNormal := [];
      ws := null;
    }

    function FeedOf(f: Feed): seq<Card>
      reads this
    {
      match f
      case LikelyFeed => feedLikely
      case ElementsFeed => feedElements
      case NormalFeed => feedNormal
    }

    /** `MsgCardClassification`: the card goes first in exactly one feed; the other two are unchanged. */
    method MsgCardClassification(evt: Evt)
      modifies this
      ensures FeedOf(FeedFor(evt.tier)) == [CreateMsgCard(evt)] + old(FeedOf(FeedFor(evt.tier)))
      ensures forall f :: f != FeedFor(evt.tier) ==> FeedOf(f) == old(FeedOf(f))
      ensures ws == old(ws)
    {
      var card := CreateMsgCard(evt);
      if evt.tier == Some("LIKELY_TOXIC") {
        feedLikely := [card] + feedLikely;
      } else if evt.tier == Some("TOXIC_ELEMENTS") {
        feedElements := [card] + feedElements;
      } else if evt.tier == Some("NORMAL") {
        feedNormal := [card] + feedNormal;
      } else {
        feedElements := [card] + feedElements;
      }
    }

    /** `onmessage`: an event that fails to parse, or parses to null, is dropped. */
    method OnMessage(parsed: Option<Evt>)
      modifies this
      ensures parsed.None? ==> (feedLikely == old(feedLikely) && feedElements == old(feedElements)
                                && feedNormal == old(feedNormal))
      ensures parsed.Some? ==> FeedOf(FeedFor(parsed.value.tier)) == [CreateMsgCard(parsed.value)] + old(FeedOf(FeedFor(parsed.value.tier)))
      ensures parsed.Some? ==> forall f :: f != FeedFor(parsed.value.tier) ==> FeedOf(f) == old(FeedOf(f))
      ensures ws == old(ws)
    {
      if parsed.Some? {
        MsgCardClassification(parsed.value);
      }
    }

    /**
     * A notice arrives: with an exception text that has another control
     * character it is dropped and no feed changes; otherwise its system card
     * goes first in the toxic-elements feed.
     */
    method ReceiveNotice(vid: string, err: string)
      requires VideoId.IsId(vid)
      modifies this
      ensures ReadNotice(vid, err).Some? <==> JsonEscape.NoOtherControls(err)
      ensures !JsonEscape.NoOtherControls(err) ==>
        feedLikely == old(feedLikely) && feedElements == old(feedElements) && feedNormal == old(feedNormal)
      ensures JsonEscape.NoOtherControls(err) ==>
        feedElements == [CreateMsgCard(ReadNotice(vid, err).value)] + old(feedElements)
        && feedLikely == old(feedLikely) && feedNormal == old(feedNormal)
      ensures ws == old(ws)
    {
      NoticeRendered(vid, err);
      var evt := ReadNotice(vid, err);
      OnMessage(evt);
      if evt.Some? {
        assert FeedFor(evt.value.tier) == ElementsFeed;
        assert FeedOf(LikelyFeed) == old(FeedOf(LikelyFeed));
        assert FeedOf(NormalFeed) == old(FeedOf(NormalFeed));
      }
    }

    /**
     * `connectWS`: while the socket is connecting or open nothing happens;
     * otherwise a new socket to `/ws` on the page's host replaces it.
     */
    method ConnectWS(secure: bool, host: string)
      modifies this
      ensures old(ws) != null && old(ws.readyState) <= 1 ==> ws == old(ws)
      ensures !(old(ws) != null && old(ws.readyState) <= 1) ==>
        ws != null && fresh(ws) && ws.readyState == 0 && ws.url == (if secure then "wss" else "ws") + "://" + host + "/ws"
      ensures feedLikely == old(feedLikely) && feedElements == old(feedElements) && feedNormal == old(feedNormal)
    {
      if ws != null && (ws.readyState == 0 || ws.readyState == 1) {
        return;
      }
      var proto := if secure then "wss" else "ws";
      ws := new Socket(proto + "://" + host + "/ws");
    }
  }

  /** The event object the backend serialises, as the page reads it back. */
  function FromBackend(e: Worker.ChatEvent): Evt {
    Evt(Some(TierName(e.tier)),
        if e.author == "" then None else Some(e.author),
        if e.text == "" then None else Some(e.text),
        Some(EvtLinks(None, Some(e.links.searchUser))))
  }

  /**
   * `JSON.parse` of the backend's error notice for stream `vid`: the parse
   * fails exactly when the `text` string does not read (its other fields
   * are fixed text and the stream id); otherwise the event carries the
   * SYSTEM tier, no author, the text read and an empty search link.
   */
  function ReadNotice(vid: string, err: string): Option<Evt> {
    match JsonEscape.ReadJsonString(Worker.ErrorPayload(vid, err)[Worker.TextFieldStart(vid)..])
    case None => None
    case Some((text, _)) =>
      Some(Evt(Some("SYSTEM"), None, if text == "" then None else Some(text), Some(EvtLinks(None, Some("")))))
  }

  /**
   * From the backend to the page: a well-formed chat event lands in the
   * feed of its tier, its tag reads as the command-line script's tag for
   * the same score, its author and text read back unchanged, and its
   * "View User" link is the author search.
   */
  lemma BackendEventRendered(vid: string, e: Worker.ChatEvent)
    requires Worker.WellFormed(vid, Worker.Event(e))
    ensures FeedFor(FromBackend(e).tier) == (match e.tier
      case LikelyToxic => LikelyFeed
      case ToxicElements => ElementsFeed
      case _ => NormalFeed)
    ensures CreateMsgCard(FromBackend(e)).tag.text == Cli.Tag(e.pToxic)
    ensures DecodeHtml(CreateMsgCard(FromBackend(e)).authorHtml) == Some(e.author)
    ensures DecodeHtml(CreateMsgCard(FromBackend(e)).textHtml) == Some(e.text)
    ensures CreateMsgCard(FromBackend(e)).viewUser == Some(e.links.searchUser)
    ensures CreateMsgCard(FromBackend(e)).className == "msg"
  {
    assert e.links.searchUser == Worker.SearchUserBase + e.author;
    assert e.links.searchUser[0] == Worker.SearchUserBase[0];
  }

  /**
   * The backend's error notice reaches the page exactly when the exception
   * text has no control character other than newline, carriage return and
   * tab. It then becomes a system card in the toxic-elements feed, with no
   * link, whose text reads as the prefix and the exception text; otherwise
   * the parse fails and the notice is dropped.
   */
  lemma NoticeRendered(vid: string, err: string)
    requires VideoId.IsId(vid)
    ensures ReadNotice(vid, err).Some? <==> JsonEscape.NoOtherControls(err)
    ensures JsonEscape.NoOtherControls(err) ==>
      var evt := ReadNotice(vid, err).value;
      FeedFor(evt.tier) == ElementsFeed
      && CreateMsgCard(evt).className == "msg system"
      && CreateMsgCard(evt).tag == Tag("mid", "System")
      && CreateMsgCard(evt).viewUser.None?
      && DecodeHtml(CreateMsgCard(evt).textHtml) == Some(JsonEscape.BackendErrorPrefix + err)
  {
    Worker.ErrorPayloadFields(vid, err);
  }
}

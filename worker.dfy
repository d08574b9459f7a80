/**
 * `chat_worker`: the loop that polls the live chat, classifies every
 * message and publishes one payload per message, or a SYSTEM notice when
 * polling or scoring raises. The chat source is a sequence of polls (the
 * chat is alive while polls remain), the classifier's answer travels with
 * each message, and the shared stop flag is an oracle read once per check:
 * `flag(k)` is the value the `k`-th `is_set()` call sees.
 */
module Worker {
  import opened Wrappers
  import opened Text
  import opened Classifier
  import opened JsonEscape
  import opened VideoId

  datatype Links = Links(openChat: string, openWatch: string, searchUser: string)

  /** The object the worker serialises for one chat message. */
  datatype ChatEvent = ChatEvent(
    ts: string, videoId: string, author: string, text: string,
    pToxic: real, tier: Tier, links: Links)

  /** One message as the chat source delivers it, with the classifier's response to its text. */
  datatype ChatItem = ChatItem(datetime: string, authorName: string, message: string, response: Value)

  /** What one `chat.get()` produces: a batch of messages, or the text of the exception it raised. */
  datatype Poll = Batch(items: seq<ChatItem>) | PollFailure(error: string)

  /**
   * A published payload: a message event, or the error notice whose JSON
   * text `ErrorPayload` builds by hand.
   */
  datatype Payload = Event(event: ChatEvent) | Notice(videoId: string, error: string)

  /**
   * How the loop scores a message: `score` reads `p_toxic` from the
   * classifier's response or gives the error `get_scores` raised, and
   * `describe` is the text of that error.
   */
  datatype Scorer = Scorer(score: Value -> Result<real, ScoreError>, describe: ScoreError -> string)

  /** `get_scores` followed by the `p_toxic` pick, as the backend scores a message. */
  function PScore(res: Value): Result<real, ScoreError> {
    match Classify(res)
    case Ok((p, _)) => Ok(p)
    case Err(e) => Err(e)
  }

  const OpenChatBase: string := "https://www.youtube.com/live_chat?v="
  const OpenWatchBase: string := "https://www.youtube.com/watch?v="
  const SearchUserBase: string := "https://www.youtube.com/results?search_query="

  /** `c.author.name.strip()`. */
  function AuthorQuery(name: string): string {
    Strip(name, IsPyWhitespace)
  }

  /** The event for a message whose score is `p`. */
  function MakeEvent(vid: string, c: ChatItem, p: real): ChatEvent {
    var author := AuthorQuery(c.authorName);
    ChatEvent(c.datetime, vid, author, c.message, p, TierForScore(p),
      Links(OpenChatBase + vid, OpenWatchBase + vid, SearchUserBase + author))
  }

  /** The `text` field's contents in the error notice. */
  function ErrorText(err: string): string {
    BackendErrorPrefix + EscapeJson(err)
  }

  /**
   * The notice's fixed text: before the stream id, between the id's
   * closing quote and the error text, and after the error text's closing
   * quote.
   */
  const NoticeHead: string := "{\"ts\":\"\",\"video_id\":\""
  const NoticeMiddle: string := ",\"author\":\"\",\"text\":\""
  const NoticeTail: string :=
    ",\"p_toxic\":0.0,\"tier\":\"SYSTEM\",\"links\":{\"open_chat\":\"\",\"open_watch\":\"\",\"search_user\":\"\"}}"

  /** The error notice, spliced together by hand from the fixed pieces and the two string fields. */
  function ErrorPayload(vid: string, err: string): string {
    NoticeHead + vid + "\"" + NoticeMiddle + ErrorText(err) + "\"" + NoticeTail
  }

  /** Where the `text` field's contents start in the notice. */
  function TextFieldStart(vid: string): nat {
    |NoticeHead| + |vid| + 1 + |NoticeMiddle|
  }

  /**
   * The two string fields of the notice read back as intended. The stream
   * id needs no escaping, so a JSON reader entering the `video_id` string
   * reads the id and leaves it at the id's closing quote. The `text` string
   * reads as the prefix and the exception text, ending exactly where the
   * fixed tail begins, when that text has no control character other than
   * newline, carriage return and tab; otherwise the notice is not JSON.
   */
  lemma ErrorPayloadFields(vid: string, err: string)
    requires IsId(vid)
    ensures DecodeJsonString(vid) == Some(vid)
    ensures DecodeJsonString(ErrorText(err)) == if NoOtherControls(err) then Some(BackendErrorPrefix + err) else None
    ensures ReadJsonString(ErrorPayload(vid, err)[|NoticeHead|..])
      == Some((vid, ErrorPayload(vid, err)[|NoticeHead| + |vid| + 1..]))
    ensures ReadJsonString(ErrorPayload(vid, err)[TextFieldStart(vid)..])
      == if NoOtherControls(err) then Some((BackendErrorPrefix + err, NoticeTail)) else None
  {
    IdDecodesToItself(vid);
    ErrorTextField(err);
    var payload := ErrorPayload(vid, err);
    var text := ErrorText(err);
    IdFieldReads(vid, NoticeMiddle + text + "\"" + NoticeTail);
    TextFieldReads(err, NoticeTail);
    SpliceFields(NoticeHead, vid, NoticeMiddle, text, NoticeTail);
  }

  /** Slicing a notice spliced from fixed text around two quoted fields. */
  lemma SpliceFields(head: string, vid: string, mid: string, text: string, tail: string)
    ensures (head + vid + "\"" + mid + text + "\"" + tail)[|head|..] == vid + "\"" + (mid + text + "\"" + tail)
    ensures (head + vid + "\"" + mid + text + "\"" + tail)[|head| + |vid| + 1..] == mid + text + "\"" + tail
    ensures (head + vid + "\"" + mid + text + "\"" + tail)[|head| + |vid| + 1 + |mid|..] == text + "\"" + tail
  {
  }

  /** A reader entering a string that holds a stream id reads the id and stops at its closing quote. */
  lemma IdFieldReads(vid: string, after: string)
    requires IsId(vid)
    ensures ReadJsonString(vid + "\"" + after) == Some((vid, after))
  {
    assert IsPlain(vid);
    EscapeEachPlain(vid);
    ReadEscapeEach(vid, after);
  }

  /** A reader entering the `text` string reads the prefix and the exception text, under the same condition. */
  lemma TextFieldReads(err: string, after: string)
    ensures ReadJsonString(ErrorText(err) + "\"" + after)
      == if NoOtherControls(err) then Some((BackendErrorPrefix + err, after)) else None
  {
    PlainThenEscapedRead(BackendErrorPrefix, err, after);
  }

  lemma {:induction false} IdDecodesToItself(t: string)
    requires forall i :: 0 <= i < |t| ==> IsIdChar(t[i])
    ensures DecodeJsonString(t) == Some(t)
    decreases |t|
  {
    if t != [] {
      IdDecodesToItself(t[1..]);
      assert t == [t[0]] + t[1..];
    }
  }

  /**
   * The rest of one batch from message `j`, the next check being number
   * `k`: the payloads published and the number of the check after the last
   * one made. A set flag breaks out; a scoring error publishes a notice and
   * abandons the batch.
   */
  function RunBatch(vid: string, items: seq<ChatItem>, j: nat, flag: nat -> bool, k: nat,
                    sc: Scorer): (seq<Payload>, nat)
    decreases |items| - j
  {
    if j >= |items| then ([], k)
    else if flag(k) then ([], k + 1)
    else match sc.score(items[j].response)
      case Err(e) => ([Notice(vid, sc.describe(e))], k + 1)
      case Ok(p) =>
        var rest := RunBatch(vid, items, j + 1, flag, k + 1, sc);
        ([Event(MakeEvent(vid, items[j], p))] + rest.0, rest.1)
  }

  /**
   * The payloads the loop publishes from poll `i` on, the next check being
   * number `k`: it stops when the flag is set or no polls remain.
   */
  function Run(vid: string, polls: seq<Poll>, i: nat, flag: nat -> bool, k: nat,
               sc: Scorer): seq<Payload>
    decreases |polls| - i
  {
    if flag(k) || i >= |polls| then []
    else match polls[i]
      case PollFailure(e) => [Notice(vid, e)] + Run(vid, polls, i + 1, flag, k + 1, sc)
      case Batch(items) =>
        var b := RunBatch(vid, items, 0, flag, k + 1, sc);
        b.0 + Run(vid, polls, i + 1, flag, b.1, sc)
  }

  /**
   * The `for` loop over one batch, the first check being number `k0`: the
   * payloads it publishes and the number of the check after its last one.
   */
  method PublishBatch(vid: string, items: seq<ChatItem>, flag: nat -> bool, k0: nat, sc: Scorer)
    returns (out: seq<Payload>, k: nat)
    ensures (out, k) == RunBatch(vid, items, 0, flag, k0, sc)
  {
    out := [];
    k := k0;
    var j := 0;
    assert out + RunBatch(vid, items, 0, flag, k0, sc).0 == RunBatch(vid, items, 0, flag, k0, sc).0;
    while j < |items|
      invariant j <= |items|
      invariant RunBatch(vid, items, 0, flag, k0, sc)
        == (out + RunBatch(vid, items, j, flag, k, sc).0, RunBatch(vid, items, j, flag, k, sc).1)
      decreases |items| - j
    {
      if flag(k) {
        assert RunBatch(vid, items, j, flag, k, sc) == ([], k + 1);
        assert out + [] == out;
        k := k + 1;
        return;
      }
      var scored := sc.score(items[j].response);
      if scored.Err? {
        var notice := Notice(vid, sc.describe(scored.error));
        assert RunBatch(vid, items, j, flag, k, sc) == ([notice], k + 1);
        out := out + [notice];
        k := k + 1;
        return;
      }
      var ev := Event(MakeEvent(vid, items[j], scored.value));
      var rest := RunBatch(vid, items, j + 1, flag, k + 1, sc);
      assert RunBatch(vid, items, j, flag, k, sc) == ([ev] + rest.0, rest.1);
      assert out + ([ev] + rest.0) == (out + [ev]) + rest.0;
      out := out + [ev];
      k := k + 1;
      j := j + 1;
    }
    assert RunBatch(vid, items, j, flag, k, sc) == ([], k);
    assert out + [] == out;
  }

  /**
   * One pass of the `while` loop over poll `i`, the stop flag having been
   * found clear at check `k`: what it publishes, and the number of the next
   * check. A failed poll publishes the error notice.
   */
  method PublishPoll(vid: string, polls: seq<Poll>, i: nat, flag: nat -> bool, k: nat, sc: Scorer)
    returns (out: seq<Payload>, next: nat)
    requires !flag(k) && i < |polls|
    ensures Run(vid, polls, i, flag, k, sc) == out + Run(vid, polls, i + 1, flag, next, sc)
  {
    match polls[i] {
    case PollFailure(e) =>
      RunFailurePoll(vid, polls, i, e, flag, k, sc);
      out, next := [Notice(vid, e)], k + 1;
    case Batch(items) =>
      RunBatchPoll(vid, polls, i, items, flag, k, sc);
      out, next := PublishBatch(vid, items, flag, k + 1, sc);
    }
  }

  /** The `while` loop of `chat_worker`, returning what it publishes, in order. */
  method ChatWorkerLoop(vid: string, polls: seq<Poll>, flag: nat -> bool, sc: Scorer)
    returns (published: seq<Payload>)
    ensures published == Run(vid, polls, 0, flag, 0, sc)
  {
    published := [];
    var i := 0;
    var k: nat := 0;
    while true
      invariant i <= |polls|
      invariant Run(vid, polls, 0, flag, 0, sc) == published + Run(vid, polls, i, flag, k, sc)
      decreases |polls| - i
    {
      if flag(k) || i >= |polls| {
        RunStops(vid, polls, i, flag, k, sc);
        assert published + [] == published;
        break;
      }
      var out, next := PublishPoll(vid, polls, i, flag, k, sc);
      var rest := Run(vid, polls, i + 1, flag, next, sc);
      assert published + (out + rest) == (published + out) + rest;
      published := published + out;
      k := next;
      i := i + 1;
    }
  }

  /** `chat_worker` as the backend runs it: messages scored by `get_scores` and the `p_toxic` pick. */
  method ChatWorker(vid: string, polls: seq<Poll>, flag: nat -> bool, describe: ScoreError -> string)
    returns (published: seq<Payload>)
    ensures published == Run(vid, polls, 0, flag, 0, Scorer(PScore, describe))
    ensures forall x :: x in published ==> WellFormed(vid, x)
  {
    published := ChatWorkerLoop(vid, polls, flag, Scorer(PScore, describe));
    RunWellFormed(vid, polls, 0, flag, 0, Scorer(PScore, describe));
  }

  /** The shapes a published payload takes. */
  predicate WellFormed(vid: string, x: Payload) {
    match x
    case Event(e) =>
      e.videoId == vid && e.tier == TierForScore(e.pToxic)
      && e.links == Links(OpenChatBase + vid, OpenWatchBase + vid, SearchUserBase + e.author)
      && e.author == AuthorQuery(e.author)
    case Notice(v, _) => v == vid
  }

  lemma EventWellFormed(vid: string, c: ChatItem, p: real)
    ensures WellFormed(vid, Event(MakeEvent(vid, c, p)))
  {
    StripKeeps(AuthorQuery(c.authorName), IsPyWhitespace);
  }

  lemma {:induction false} RunBatchWellFormed(vid: string, items: seq<ChatItem>, j: nat, flag: nat -> bool, k: nat,
                                              sc: Scorer)
    ensures forall x :: x in RunBatch(vid, items, j, flag, k, sc).0 ==> WellFormed(vid, x)
    decreases |items| - j
  {
    if j < |items| && !flag(k) {
      match sc.score(items[j].response)
      case Err(e) =>
        assert WellFormed(vid, Notice(vid, sc.describe(e)));
      case Ok(p) =>
        RunBatchWellFormed(vid, items, j + 1, flag, k + 1, sc);
        EventWellFormed(vid, items[j], p);
    }
  }

  /**
   * Every payload carries the worker's stream id: an event scored into
   * the tier its score gives, with links built from the id and the stripped
   * author name, or the error notice for some exception text.
   */
  lemma {:induction false} RunWellFormed(vid: string, polls: seq<Poll>, i: nat, flag: nat -> bool, k: nat,
                                         sc: Scorer)
    ensures forall x :: x in Run(vid, polls, i, flag, k, sc) ==> WellFormed(vid, x)
    decreases |polls| - i
  {
    if !flag(k) && i < |polls| {
      match polls[i]
      case PollFailure(e) =>
        RunWellFormed(vid, polls, i + 1, flag, k + 1, sc);
        assert WellFormed(vid, Notice(vid, e));
      case Batch(items) =>
        var b := RunBatch(vid, items, 0, flag, k + 1, sc);
        RunBatchWellFormed(vid, items, 0, flag, k + 1, sc);
        RunWellFormed(vid, polls, i + 1, flag, b.1, sc);
    }
  }

  /** Every message of the batch scores without error. */
  predicate AllScored(items: seq<ChatItem>, sc: Scorer) {
    forall j :: 0 <= j < |items| ==> sc.score(items[j].response).Ok?
  }

  /** The events for the messages that score, in order. */
  function Events(vid: string, items: seq<ChatItem>, sc: Scorer): seq<Payload>
    decreases |items|
  {
    if items == [] then []
    else match sc.score(items[0].response)
      case Ok(p) => [Event(MakeEvent(vid, items[0], p))] + Events(vid, items[1..], sc)
      case Err(_) => Events(vid, items[1..], sc)
  }

  /** When every message scores, `Events` holds one event per message, in the order of the messages. */
  lemma {:induction false} EventsOnePerMessage(vid: string, items: seq<ChatItem>, sc: Scorer)
    requires AllScored(items, sc)
    ensures |Events(vid, items, sc)| == |items|
    ensures forall j :: 0 <= j < |items| ==>
      Events(vid, items, sc)[j] == Event(MakeEvent(vid, items[j], sc.score(items[j].response).value))
    decreases |items|
  {
    if items != [] {
      assert sc.score(items[0].response).Ok?;
      assert AllScored(items[1..], sc) by {
        assert forall j :: 0 <= j < |items[1..]| ==> items[1..][j] == items[j + 1];
      }
      EventsOnePerMessage(vid, items[1..], sc);
    }
  }

  /** The messages of every batch, in order; a failed poll contributes none. */
  function Flatten(polls: seq<Poll>): seq<ChatItem>
    decreases |polls|
  {
    if polls == [] then []
    else match polls[0]
      case Batch(items) => items + Flatten(polls[1..])
      case PollFailure(_) => Flatten(polls[1..])
  }

  lemma {:induction false} EventsAppend(vid: string, a: seq<ChatItem>, b: seq<ChatItem>, sc: Scorer)
    ensures Events(vid, a + b, sc) == Events(vid, a, sc) + Events(vid, b, sc)
    decreases |a|
  {
    if a == [] {
      assert a + b == b;
    } else {
      assert (a + b)[0] == a[0];
      assert (a + b)[1..] == a[1..] + b;
      EventsAppend(vid, a[1..], b, sc);
    }
  }

  lemma {:induction false} RunBatchUninterrupted(vid: string, items: seq<ChatItem>, j: nat, flag: nat -> bool, k: nat,
                                                 sc: Scorer)
    requires forall n :: !flag(n)
    requires j <= |items| && AllScored(items, sc)
    ensures RunBatch(vid, items, j, flag, k, sc) == (Events(vid, items[j..], sc), k + |items| - j)
    decreases |items| - j
  {
    if j < |items| {
      RunBatchUninterrupted(vid, items, j + 1, flag, k + 1, sc);
      assert items[j..][1..] == items[j + 1..];
    }
  }

  /** No poll fails and every message scores. */
  predicate AllBatchesScored(polls: seq<Poll>, sc: Scorer) {
    forall m :: 0 <= m < |polls| ==> polls[m].Batch? && AllScored(polls[m].items, sc)
  }

  lemma RunStops(vid: string, polls: seq<Poll>, i: nat, flag: nat -> bool, k: nat, sc: Scorer)
    requires flag(k) || i >= |polls|
    ensures Run(vid, polls, i, flag, k, sc) == []
  {
  }

  lemma RunFailurePoll(vid: string, polls: seq<Poll>, i: nat, e: string, flag: nat -> bool, k: nat, sc: Scorer)
    requires !flag(k) && i < |polls| && polls[i] == PollFailure(e)
    ensures Run(vid, polls, i, flag, k, sc) == [Notice(vid, e)] + Run(vid, polls, i + 1, flag, k + 1, sc)
  {
  }

  lemma RunBatchPoll(vid: string, polls: seq<Poll>, i: nat, items: seq<ChatItem>, flag: nat -> bool, k: nat,
                     sc: Scorer)
    requires !flag(k) && i < |polls| && polls[i] == Batch(items)
    ensures Run(vid, polls, i, flag, k, sc)
      == RunBatch(vid, items, 0, flag, k + 1, sc).0
         + Run(vid, polls, i + 1, flag, RunBatch(vid, items, 0, flag, k + 1, sc).1, sc)
  {
  }

  lemma FlattenSuffix(polls: seq<Poll>, i: nat, items: seq<ChatItem>)
    requires i < |polls| && polls[i] == Batch(items)
    ensures Flatten(polls[i..]) == items + Flatten(polls[i + 1..])
  {
    assert polls[i..][1..] == polls[i + 1..];
  }

  /** One poll of the uninterrupted run: its batch's events, then the run from the next poll. */
  lemma RunUninterruptedStep(vid: string, polls: seq<Poll>, i: nat, items: seq<ChatItem>, flag: nat -> bool, k: nat,
                             sc: Scorer)
    requires forall n :: !flag(n)
    requires i < |polls| && polls[i] == Batch(items) && AllScored(items, sc)
    ensures Run(vid, polls, i, flag, k, sc)
      == Events(vid, items, sc) + Run(vid, polls, i + 1, flag, k + 1 + |items|, sc)
  {
    RunBatchUninterrupted(vid, items, 0, flag, k + 1, sc);
    assert items[0..] == items;
    RunBatchPoll(vid, polls, i, items, flag, k, sc);
  }

  /**
   * Left alone, with no failing poll and no scoring error, the worker
   * publishes the events of all batches' messages, in the order the chat
   * delivered them (one per message, by `EventsOnePerMessage`).
   */
  lemma {:induction false} RunUninterrupted(vid: string, polls: seq<Poll>, i: nat, flag: nat -> bool, k: nat,
                                            sc: Scorer)
    requires forall n :: !flag(n)
    requires i <= |polls| && AllBatchesScored(polls, sc)
    ensures Run(vid, polls, i, flag, k, sc) == Events(vid, Flatten(polls[i..]), sc)
    decreases |polls| - i
  {
    if i < |polls| {
      var items := polls[i].items;
      RunUninterrupted(vid, polls, i + 1, flag, k + 1 + |items|, sc);
      RunUninterruptedStep(vid, polls, i, items, flag, k, sc);
      FlattenSuffix(polls, i, items);
      EventsAppend(vid, items, Flatten(polls[i + 1..]), sc);
    } else {
      assert polls[i..] == [];
    }
  }

  /** Each payload of a batch costs one check; a batch started before check `K` ends by check `K + 1`. */
  lemma {:induction false} RunBatchChecks(vid: string, items: seq<ChatItem>, j: nat, flag: nat -> bool, k: nat,
                                          sc: Scorer, K: nat)
    requires forall n :: n >= K ==> flag(n)
    ensures |RunBatch(vid, items, j, flag, k, sc).0| + k <= RunBatch(vid, items, j, flag, k, sc).1
    ensures k <= K ==> RunBatch(vid, items, j, flag, k, sc).1 <= K + 1
    decreases |items| - j
  {
    if j < |items| && !flag(k) {
      RunBatchChecks(vid, items, j + 1, flag, k + 1, sc, K);
    }
  }

  /**
   * Once the flag stays set from check `K` on, the worker publishes at
   * most `K - k` more payloads: it notices the flag before every message.
   */
  lemma {:induction false} StopIsHeeded(vid: string, polls: seq<Poll>, i: nat, flag: nat -> bool, k: nat,
                                        sc: Scorer, K: nat)
    requires forall n :: n >= K ==> flag(n)
    requires k <= K
    ensures |Run(vid, polls, i, flag, k, sc)| <= K - k
    decreases |polls| - i
  {
    if !flag(k) && i < |polls| {
      match polls[i]
      case PollFailure(e) =>
        StopIsHeeded(vid, polls, i + 1, flag, k + 1, sc, K);
      case Batch(items) =>
        var b := RunBatch(vid, items, 0, flag, k + 1, sc);
        RunBatchChecks(vid, items, 0, flag, k + 1, sc, K);
        if b.1 <= K {
          StopIsHeeded(vid, polls, i + 1, flag, b.1, sc, K);
        } else {
          assert flag(b.1);
        }
    }
  }
}

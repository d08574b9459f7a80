/**
 * The backend's fan-out to dashboards: every websocket connection owns a
 * bounded FIFO queue of JSON texts, and publishing a payload offers it to
 * every registered queue without waiting, dropping it for queues that are
 * full.
 */
module Broadcast {

  /** `asyncio.Queue(maxsize=500)`. */
  const QueueCapacity: nat := 500

  /** `put_nowait` on a queue holding `items`: appended when there is room, otherwise dropped. */
  function Offer(items: seq<string>, payload: string): seq<string> {
    if |items| < QueueCapacity then items + [payload] else items
  }

  /** One offer keeps the queue within its capacity and its existing order. */
  lemma OfferBounded(items: seq<string>, payload: string)
    requires |items| <= QueueCapacity
    ensures |Offer(items, payload)| <= QueueCapacity
    ensures Offer(items, payload)[..|items|] == items
    ensures |Offer(items, payload)| == |items| + 1 <==> |items| < QueueCapacity
    ensures |items| < QueueCapacity ==> Offer(items, payload)[|items|] == payload
  {
  }

  /** A queue nobody reads from, offered `payloads` one after the other. */
  function OfferAll(items: seq<string>, payloads: seq<string>): seq<string>
    decreases |payloads|
  {
    if payloads == [] then items else OfferAll(Offer(items, payloads[0]), payloads[1..])
  }

  function Min(a: nat, b: nat): nat {
    if a <= b then a else b
  }

  /**
   * A queue that is not drained keeps the payloads that found room, in
   * publication order, and drops every later one.
   */
  lemma {:induction false} OfferAllKeepsEarliest(items: seq<string>, payloads: seq<string>)
    requires |items| <= QueueCapacity
    ensures OfferAll(items, payloads) == (items + payloads)[..Min(QueueCapacity, |items| + |payloads|)]
    decreases |payloads|
  {
    if payloads != [] {
      var next := Offer(items, payloads[0]);
      OfferAllKeepsEarliest(next, payloads[1..]);
      if |items| < QueueCapacity {
        assert next + payloads[1..] == items + payloads;
      } else {
        assert (items + payloads)[..QueueCapacity] == items;
        assert (next + payloads[1..])[..QueueCapacity] == items;
      }
    }
  }

  /** One subscriber's queue. */
  class Mailbox {
    var items: seq<string>

    constructor()
      ensures items == []
    {
      items := [];
    }

    /** `put_nowait`: `ok` is false where the source raises `QueueFull`. */
    method PutNowait(payload: string) returns (ok: bool)
      modifies this
      ensures ok <==> |old(items)| < QueueCapacity
      ensures items == Offer(old(items), payload)
    {
      if |items| < QueueCapacity {
        items := items + [payload];
        ok := true;
      } else {
        ok := false;
      }
    }
  }

  /** The module-level `clients` set and whether `event_loop` has been set. */
  class Hub {
    var clients: set<Mailbox>
    var eventLoopSet: bool

    /** No queue holds more than its capacity. */
    ghost predicate Valid()
      reads this, clients
    {
      forall q :: q in clients ==> |q.items| <= QueueCapacity
    }

    constructor()
      ensures clients == {} && !eventLoopSet && Valid()
    {
      clients := {};
      eventLoopSet := false;
    }

    /** The startup hook records the running event loop. */
    method Startup()
      modifies this
      ensures eventLoopSet && clients == old(clients)
    {
      eventLoopSet := true;
    }

    /**
     * A websocket connects: the event loop is recorded if it was not, and
     * a fresh empty queue joins the subscribers.
     */
    method Register() returns (q: Mailbox)
      requires Valid()
      modifies this
      ensures fresh(q) && q.items == []
      ensures clients == old(clients) + {q}
      ensures eventLoopSet
      ensures Valid()
    {
      eventLoopSet := true;
      q := new Mailbox();
      clients := clients + {q};
    }

    /** A websocket closes: its queue leaves the subscribers. */
    method Unregister(q: Mailbox)
      requires Valid()
      modifies this
      ensures clients == old(clients) - {q}
      ensures eventLoopSet == old(eventLoopSet)
      ensures Valid()
    {
      clients := clients - {q};
    }

    /**
     * `broadcast_json` together with the `_push` it schedules: nothing
     * happens without an event loop or without subscribers; otherwise every
     * queue is offered the payload. No queue or subscriber is added or lost.
     */
    method Publish(payload: string)
      requires Valid()
      modifies clients
      ensures Valid()
      ensures clients == old(clients) && eventLoopSet == old(eventLoopSet)
      ensures !eventLoopSet ==> forall q :: q in clients ==> q.items == old(q.items)
      ensures eventLoopSet ==> forall q :: q in clients ==> q.items == Offer(old(q.items), payload)
    {
      if !eventLoopSet || clients == {} {
        return;
      }
      var pending := clients;
      while pending != {}
        invariant pending <= clients
        invariant forall q :: q in clients && q !in pending ==> q.items == Offer(old(q.items), payload)
        invariant forall q :: q in pending ==> q.items == old(q.items)
        invariant Valid()
        decreases pending
      {
        var q :| q in pending;
        var _ := q.PutNowait(payload);
        pending := pending - {q};
      }
    }
  }
}

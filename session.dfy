/**
 * The backend's session state: `start`, `stop` and `status` over the
 * module-level `worker_thread`, `stop_flag` and `current_video_id`. A
 * thread is an object whose `alive` field the controller observes; joining
 * it with a timeout is a given outcome `joined` (the worker ended within
 * the two seconds, or not). Every worker polls one stop event: the shared
 * `stop_flag` in `Controller`, which models the code as written, and an
 * event of its own in `SignalledController`, the corrected design.
 */
module Session {
  import opened Wrappers
  import opened Text
  import opened VideoId
  import opened Classifier

  /** A `threading.Event`. */
  class StopEvent {
    var isSet: bool

    constructor()
      ensures !isSet
    {
      isSet := false;
    }
  }

  /** A worker thread bound to one stream, and the stop event its loop polls. */
  class WorkerThread {
    const videoId: string
    const stop: StopEvent
    var alive: bool

    constructor(vid: string, ev: StopEvent)
      ensures videoId == vid && stop == ev && alive
    {
      videoId := vid;
      stop := ev;
      alive := true;
    }
  }

  datatype StartResponse = StartOk(videoId: string) | StartErr(error: string)

  const NoIdError: string := "Could not extract video ID from input."

  /** The body `status` returns. */
  datatype StatusReport = StatusReport(ok: bool, running: bool, videoId: Option<string>, elements: real, likely: real)

  /** The controller as written: every worker polls the one shared `stop_flag`. */
  class Controller {
    var workerThread: WorkerThread?
    const stopFlag: StopEvent
    var currentVideoId: Option<string>
    /** Every worker ever started. */
    ghost var spawned: set<WorkerThread>

    ghost predicate Valid()
      reads this
    {
      (workerThread != null ==> workerThread in spawned)
      && forall w :: w in spawned ==> w.stop == stopFlag
    }

    constructor()
      ensures Valid() && workerThread == null && currentVideoId.None? && !stopFlag.isSet && spawned == {}
      ensures fresh(stopFlag)
    {
      workerThread := null;
      stopFlag := new StopEvent();
      currentVideoId := None;
      spawned := {};
    }

    /** `status`: running exactly when the worker exists and is alive; the thresholds are the tiers'. */
    function Status(): (r: StatusReport)
      reads this, workerThread
      ensures r.ok && r.videoId == currentVideoId
      ensures r.running <==> workerThread != null && workerThread.alive
      ensures r.elements == ThreshElements && r.likely == ThreshLikely
    {
      StatusReport(true, workerThread != null && workerThread.alive, currentVideoId, ThreshElements, ThreshLikely)
    }

    /**
     * `stop`: the flag is set and the worker forgotten whatever the join
     * gives; a worker that ended within the timeout has reset
     * `current_video_id`, one that did not is still running.
     */
    method Stop(joined: bool) returns (ok: bool)
      requires Valid()
      modifies this, stopFlag, workerThread
      ensures Valid() && ok
      ensures stopFlag.isSet && workerThread == null && !Status().running
      ensures spawned == old(spawned)
      ensures old(workerThread) != null && old(workerThread.alive) ==>
        (old(workerThread).alive <==> !joined)
        && currentVideoId == (if joined then None else old(currentVideoId))
      ensures (old(workerThread) == null || !old(workerThread.alive)) ==> currentVideoId == old(currentVideoId)
      ensures old(workerThread) != null && !old(workerThread.alive) ==> !old(workerThread).alive
    {
      stopFlag.isSet := true;
      if workerThread != null && workerThread.alive {
        if joined {
          workerThread.alive := false;
          currentVideoId := None;
        }
      }
      workerThread := null;
      ok := true;
    }

    /**
     * `start`: an input without a stream id is refused before anything
     * changes; otherwise `stop` runs, the shared flag is cleared and one
     * new worker bound to the id is started.
     */
    method Start(stream: string, joined: bool) returns (resp: StartResponse)
      requires Valid()
      modifies this, stopFlag, workerThread
      ensures Valid()
      ensures ExtractVideoId(stream).None? ==>
        resp == StartErr(NoIdError) && workerThread == old(workerThread)
        && stopFlag.isSet == old(stopFlag.isSet) && currentVideoId == old(currentVideoId)
        && spawned == old(spawned)
      ensures ExtractVideoId(stream).None? && old(workerThread) != null ==>
        old(workerThread).alive == old(workerThread.alive)
      ensures ExtractVideoId(stream).Some? ==>
        var vid := ExtractVideoId(stream).value;
        resp == StartOk(vid) && workerThread != null && fresh(workerThread)
        && workerThread.videoId == vid && workerThread.alive && !stopFlag.isSet
        && spawned == old(spawned) + {workerThread} && currentVideoId == Some(vid)
      ensures ExtractVideoId(stream).Some? && old(workerThread) != null && old(workerThread.alive) ==>
        (old(workerThread).alive <==> !joined)
      ensures ExtractVideoId(stream).Some? && old(workerThread) != null && !old(workerThread.alive) ==>
        !old(workerThread).alive
    {
      var vid := ExtractVideoId(stream);
      if vid.None? {
        return StartErr(NoIdError);
      }
      var _ := Stop(joined);
      stopFlag.isSet := false;
      workerThread := new WorkerThread(vid.value, stopFlag);
      spawned := spawned + {workerThread};
      currentVideoId := Some(vid.value);
      resp := StartOk(vid.value);
    }

    /** The current worker's loop ends on its own: it resets `current_video_id`. */
    method WorkerEnds()
      requires Valid() && workerThread != null
      modifies workerThread, this
      ensures Valid() && workerThread == old(workerThread) && !workerThread.alive
      ensures currentVideoId.None? && !Status().running && spawned == old(spawned)
    {
      workerThread.alive := false;
      currentVideoId := None;
    }

    /**
     * The current worker dies from an exception raised outside its `try`
     * (`pytchat.create` or the loop's `chat.is_alive()`): it never reaches
     * the reset, so `status` reports the stale id while not running.
     */
    method WorkerCrashes()
      requires Valid() && workerThread != null
      modifies workerThread
      ensures Valid() && !workerThread.alive
      ensures !Status().running && Status().videoId == currentVideoId
    {
      workerThread.alive := false;
    }
  }

  /**
   * Restarting while the old worker ignores the two-second join leaves two
   * live workers, and the shared flag that should stop the old one has
   * been cleared for the new one.
   */
  method RestartAfterJoinTimeout(first: string, second: string) returns (c: Controller, abandoned: WorkerThread)
    requires IsId(first) && IsId(second)
    ensures c.Valid() && c.workerThread != null && c.workerThread != abandoned
    ensures abandoned in c.spawned && abandoned.alive && c.workerThread.alive
    ensures abandoned.stop == c.stopFlag && !c.stopFlag.isSet
  {
    BareIdExtracts(first);
    BareIdExtracts(second);
    c := new Controller();
    var _ := c.Start(first, true);
    abandoned := c.workerThread;
    var _ := c.Start(second, false);
  }

  /**
   * The corrected controller: each worker gets a stop event of its own, so
   * `start` never clears the event an abandoned worker polls.
   */
  class SignalledController {
    var workerThread: WorkerThread?
    var currentVideoId: Option<string>
    ghost var spawned: set<WorkerThread>

    /** Every worker but the current one has been told to stop. */
    ghost predicate Valid()
      reads this, spawned, set w | w in spawned :: w.stop
    {
      (workerThread != null ==> workerThread in spawned)
      && forall w :: w in spawned && w != workerThread ==> w.stop.isSet
    }

    /** At most one started worker is running without a stop request. */
    lemma AtMostOneUnsignalled(a: WorkerThread, b: WorkerThread)
      requires Valid() && a in spawned && b in spawned
      requires !a.stop.isSet && !b.stop.isSet
      ensures a == b && a == workerThread
    {
    }

    constructor()
      ensures Valid() && workerThread == null && currentVideoId.None? && spawned == {}
    {
      workerThread := null;
      currentVideoId := None;
      spawned := {};
    }

    /** `stop`, setting the current worker's own event. */
    method Stop(joined: bool) returns (ok: bool)
      requires Valid()
      modifies this, workerThread, if workerThread != null then {workerThread.stop} else {}
      ensures Valid() && ok
      ensures workerThread == null && spawned == old(spawned)
      ensures forall w :: w in spawned ==> w.stop.isSet
      ensures old(workerThread) != null && old(workerThread.alive) ==> (old(workerThread).alive <==> !joined)
      ensures old(workerThread) != null && !old(workerThread.alive) ==> !old(workerThread).alive
      ensures currentVideoId == if old(workerThread) != null && old(workerThread.alive) && joined then None
                                else old(currentVideoId)
    {
      if workerThread != null {
        workerThread.stop.isSet := true;
        if workerThread.alive && joined {
          workerThread.alive := false;
          currentVideoId := None;
        }
      }
      workerThread := null;
      ok := true;
    }

    /** `start`, giving the new worker a fresh event. */
    method Start(stream: string, joined: bool) returns (resp: StartResponse)
      requires Valid()
      modifies this, workerThread, if workerThread != null then {workerThread.stop} else {}
      ensures Valid()
      ensures ExtractVideoId(stream).None? ==>
        resp == StartErr(NoIdError) && workerThread == old(workerThread)
        && currentVideoId == old(currentVideoId) && spawned == old(spawned)
      ensures ExtractVideoId(stream).None? && old(workerThread) != null ==>
        old(workerThread).alive == old(workerThread.alive)
        && old(workerThread).stop.isSet == old(workerThread.stop.isSet)
      ensures ExtractVideoId(stream).Some? ==>
        var vid := ExtractVideoId(stream).value;
        resp == StartOk(vid) && workerThread != null && fresh(workerThread) && fresh(workerThread.stop)
        && workerThread.videoId == vid && workerThread.alive && !workerThread.stop.isSet
        && spawned == old(spawned) + {workerThread} && currentVideoId == Some(vid)
        && forall w :: w in old(spawned) ==> w.stop.isSet
      ensures ExtractVideoId(stream).Some? && old(workerThread) != null && old(workerThread.alive) ==>
        (old(workerThread).alive <==> !joined)
      ensures ExtractVideoId(stream).Some? && old(workerThread) != null && !old(workerThread.alive) ==>
        !old(workerThread).alive
    {
      var vid := ExtractVideoId(stream);
      if vid.None? {
        return StartErr(NoIdError);
      }
      var _ := Stop(joined);
      var ev := new StopEvent();
      workerThread := new WorkerThread(vid.value, ev);
      spawned := spawned + {workerThread};
      currentVideoId := Some(vid.value);
      resp := StartOk(vid.value);
    }
  }

  /** The same restart with per-worker events: the abandoned worker stays told to stop. */
  method RestartAfterJoinTimeoutSignalled(first: string, second: string)
    returns (c: SignalledController, abandoned: WorkerThread)
    requires IsId(first) && IsId(second)
    ensures c.Valid() && c.workerThread != null && c.workerThread != abandoned
    ensures abandoned in c.spawned && abandoned.alive && abandoned.stop.isSet
    ensures !c.workerThread.stop.isSet
  {
    BareIdExtracts(first);
    BareIdExtracts(second);
    c := new SignalledController();
    var _ := c.Start(first, true);
    abandoned := c.workerThread;
    var _ := c.Start(second, false);
  }
}

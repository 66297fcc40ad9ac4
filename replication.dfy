/** The two replication roles over a shared indexed queue tracker. A role
    records its own cursor on the election client (its `localState`
    property) and reads the other replicas' cursors from their presence
    states. Nothing copies the recorded cursor into the presence state, so
    the two are independent fields. The leader dequeues, records its
    cursor and processes; it moves on only when every participant's
    presence cursor equals its own. A follower fetches the item at the
    cursor in the first leader's presence state, processes it, and then
    records that cursor as its own. */
module Replication {
  import opened Common
  import opened Presence
  import opened LeaderElection
  import opened IndexedQueue
  import opened IndexOrder

  /** What a participant's presence state tells the roles:
      `data.isLeader` and `data.data.queueIndex`, absent fields read as
      `false` and `''`. */
  datatype SharedState = SharedState(isLeader: bool, queueIndex: string)

  /** `localState?.queueIndex || ''` for the cursor a role recorded on
      the election client (none while nothing was recorded). */
  function IndexOrEmpty(recorded: Option<string>): string
  {
    match recorded
    case None => ""
    case Some(q) => q
  }

  /** The outcome of one processing pass. */
  datatype StepOutcome<T> =
    | Skipped                       // quit, or a pass already in flight
    | NoWork                        // nothing to process; the flag is cleared again
    | Invoked(item: QueueItem<T>)   // the process callback was started on `item`
    | NotFound(queueIndex: string)  // a follower could not fetch the expected index

  // ---- Leader alignment ----------------------------------------------

  /** Every participant shows cursor `q`. */
  ghost predicate AllAt(ps: seq<Participant<SharedState>>, q: string)
  {
    forall i :: 0 <= i < |ps| ==> ps[i].data.queueIndex == q
  }

  /** `_isDistributedStateAligned` as written: without `?.`, reading
      `queueIndex` of an unset `localState` throws (none here) unless the
      role has quit. */
  function AlignedAsWritten(quit: bool, recorded: Option<string>, ps: seq<Participant<SharedState>>): (r: Option<bool>)
    ensures r.None? <==> !quit && recorded.None?
    ensures r == Some(true) ==> recorded.Some? && forall i :: 0 <= i < |ps| ==> ps[i].data.queueIndex == recorded.value
  {
    if quit then Some(false)
    else if recorded.None? then None
    else Some(forall i :: 0 <= i < |ps| ==> ps[i].data.queueIndex == recorded.value)
  }

  /** The intended alignment test: not quit, and every participant's cursor
      equals the leader's own, an unset one reading as `''`. */
  ghost predicate Aligned(quit: bool, recorded: Option<string>, ps: seq<Participant<SharedState>>)
  {
    !quit && AllAt(ps, IndexOrEmpty(recorded))
  }

  /** Once the leader has recorded a cursor (or quit) the two agree. */
  lemma AlignedAsWrittenAgrees(quit: bool, recorded: Option<string>, ps: seq<Participant<SharedState>>)
    requires quit || recorded.Some?
    ensures AlignedAsWritten(quit, recorded, ps) == Some(Aligned(quit, recorded, ps))
  {
  }

  /** A replica whose first role is leader has recorded nothing, so as
      written its very first alignment test throws, even with every
      participant still at the empty cursor. */
  lemma AlignedAsWrittenThrowsFirst()
    ensures var ps := [Participant("replica-a", SharedState(true, ""), 0)];
      AlignedAsWritten(false, None, ps).None? && Aligned(false, None, ps)
  {
  }

  class SharedTrackerLeader<T> {
    const tracker: IndexedQueueTracker<T>
    const election: LeaderElectionClient<SharedState>
    var quit: bool
    var processing: bool

    /** The JavaScript constructor ends with a first `_onPresenceChange`;
        that step is `OnQueueOrPresenceChange`. */
    constructor (tracker: IndexedQueueTracker<T>, election: LeaderElectionClient<SharedState>)
      ensures this.tracker == tracker && this.election == election && !quit && !processing
    {
      this.tracker := tracker;
      this.election := election;
      quit := false;
      processing := false;
    }

    /** Disposal only raises `quit` (and unsubscribes): a pass in flight
        runs to its end. */
    method Dispose()
      modifies this`quit
      ensures quit
    {
      quit := true;
    }

    /** `_isDistributedStateAligned`, with an unset cursor read as `''`. */
    method IsDistributedStateAligned() returns (r: bool)
      ensures r <==> Aligned(quit, election.localState, election.presence.participants)
    {
      if quit {
        return false;
      }
      var queueIndex := IndexOrEmpty(election.localState);
      var ps := election.presence.participants;
      var i := 0;
      while i < |ps|
        invariant 0 <= i <= |ps|
        invariant forall j :: 0 <= j < i ==> ps[j].data.queueIndex == queueIndex
      {
        if ps[i].data.queueIndex != queueIndex {
          return false;
        }
        i := i + 1;
      }
      return true;
    }

    /** What a pass begun with flags `quit0` and `processing0`, window
        `queue0` and recorded cursor `recorded0` leaves behind. */
    ghost predicate Stepped(quit0: bool, processing0: bool, queue0: seq<QueueItem<T>>, recorded0: Option<string>,
                            outcome: StepOutcome<T>)
      reads this, tracker, election
    {
      if quit0 || processing0 then
        outcome == Skipped && processing == processing0 && tracker.queue == queue0 && election.localState == recorded0
      else if queue0 == [] then
        outcome == NoWork && !processing && tracker.queue == queue0 && election.localState == recorded0
      else
        && outcome == Invoked(queue0[0])
        && processing && tracker.queue == queue0[1..]
        && election.localState == Some(queue0[0].queueIndex)
    }

    /** `_processNextItem` up to the process callback: single flight; an
        empty window clears the flag and records nothing; otherwise the
        head is removed and its index recorded before the callback is
        invoked on it. */
    method ProcessNextItem() returns (outcome: StepOutcome<T>)
      modifies this`processing, tracker`queue, election`localState
      ensures Stepped(old(quit), old(processing), old(tracker.queue), old(election.localState), outcome)
    {
      if quit || processing {
        return Skipped;
      }
      processing := true;
      var item := tracker.Dequeue();
      if item.None? {
        processing := false;
        return NoWork;
      }
      election.localState := Some(item.value.queueIndex);
      outcome := Invoked(item.value);
    }

    /** The process callback settled, successfully or with an error: the
        flag is cleared, the recorded cursor stays, and another pass is
        scheduled only when aligned. */
    method OnItemProcessed() returns (scheduleNext: bool)
      requires processing
      modifies this`processing
      ensures !processing
      ensures scheduleNext <==> Aligned(quit, election.localState, election.presence.participants)
    {
      processing := false;
      scheduleNext := IsDistributedStateAligned();
    }

    /** `_onQueueChange` and `_onPresenceChange`: start a pass only when not
        quit and aligned. */
    method OnQueueOrPresenceChange() returns (outcome: StepOutcome<T>)
      modifies this`processing, tracker`queue, election`localState
      ensures !Aligned(old(quit), old(election.localState), election.presence.participants) ==>
        outcome == Skipped && processing == old(processing) && unchanged(tracker, election)
      ensures Aligned(old(quit), old(election.localState), election.presence.participants) ==>
        Stepped(old(quit), old(processing), old(tracker.queue), old(election.localState), outcome)
      ensures outcome != Skipped ==>
        Aligned(old(quit), old(election.localState), election.presence.participants) && !old(processing)
    {
      if quit {
        return Skipped;
      }
      var aligned := IsDistributedStateAligned();
      if !aligned {
        return Skipped;
      }
      outcome := ProcessNextItem();
    }
  }

  // ---- Follower cursor -----------------------------------------------

  /** The position of the first participant that says it leads. */
  function FirstLeader(ps: seq<Participant<SharedState>>): (r: Option<nat>)
    ensures r.Some? ==> r.value < |ps| && ps[r.value].data.isLeader
    ensures forall i :: 0 <= i < |ps| && (r.None? || i < r.value) ==> !ps[i].data.isLeader
  {
    if ps == [] then None
    else if ps[0].data.isLeader then Some(0)
    else match FirstLeader(ps[1..])
      case None => None
      case Some(k) => Some(k + 1)
  }

  /** The index a follower should fetch next: the first leader's cursor
      when it differs from the follower's own, and `''` (no work) when the
      role has quit, no participant leads, the leader has no cursor yet, or
      the follower has caught up. */
  function ExpectedQueueIndex(quit: bool, recorded: Option<string>, ps: seq<Participant<SharedState>>): (r: string)
    ensures r != "" ==>
      (!quit && FirstLeader(ps).Some? && r == ps[FirstLeader(ps).value].data.queueIndex && r != IndexOrEmpty(recorded))
    ensures r == "" <==>
      (quit || FirstLeader(ps).None? || ps[FirstLeader(ps).value].data.queueIndex in {"", IndexOrEmpty(recorded)})
  {
    if quit then ""
    else match FirstLeader(ps)
      case None => ""
      case Some(k) => if ps[k].data.queueIndex != IndexOrEmpty(recorded) then ps[k].data.queueIndex else ""
  }

  /** Only the first leader counts: participants after it are never read. */
  lemma ExpectedIgnoresLaterParticipants(quit: bool, recorded: Option<string>,
                                         ps: seq<Participant<SharedState>>, more: seq<Participant<SharedState>>)
    requires FirstLeader(ps).Some?
    ensures ExpectedQueueIndex(quit, recorded, ps + more) == ExpectedQueueIndex(quit, recorded, ps)
  {
    FirstLeaderPrefix(ps, more);
    assert (ps + more)[FirstLeader(ps).value] == ps[FirstLeader(ps).value];
  }

  lemma {:induction false} FirstLeaderPrefix(ps: seq<Participant<SharedState>>, more: seq<Participant<SharedState>>)
    requires FirstLeader(ps).Some?
    ensures FirstLeader(ps + more) == FirstLeader(ps)
  {
    if !ps[0].data.isLeader {
      assert (ps + more)[1..] == ps[1..] + more;
      FirstLeaderPrefix(ps[1..], more);
    }
  }

  /** Once a follower has recorded the leader's cursor it has no work
      until the leader's cursor moves. */
  lemma CaughtUpMeansNoWork(quit: bool, ps: seq<Participant<SharedState>>)
    requires FirstLeader(ps).Some?
    ensures ExpectedQueueIndex(quit, Some(ps[FirstLeader(ps).value].data.queueIndex), ps) == ""
  {
  }

  /** A follower behind its leader asks only for the leader's cursor: when
      the window is ascending and holds that cursor at `j`, the pass takes
      `q[j]`, and the items before it are dropped as stale, unprocessed. */
  lemma CatchUpJumpsToLeader<T>(recorded: Option<string>, ps: seq<Participant<SharedState>>,
                                q: seq<QueueItem<T>>, j: nat, items: seq<T>, formatIndex: T -> string)
    requires Ascending(q) && j < |q| && FirstLeader(ps).Some?
    requires q[j].queueIndex == ps[FirstLeader(ps).value].data.queueIndex
    requires q[j].queueIndex !in {"", IndexOrEmpty(recorded)}
    ensures ExpectedQueueIndex(false, recorded, ps) == q[j].queueIndex
    ensures DequeueAt(q, q[j].queueIndex, items, formatIndex) == (Some(q[j]), q[j + 1..])
  {
    DequeueAtFindsInWindow(q, q[j].queueIndex, items, formatIndex, j);
  }

  /** A follower at `007` whose leader is at `010`, with `008` to `010` in
      the window, processes `010` next and never `008` or `009`. */
  lemma CatchUpSkipsIntermediate<T>(x: T, y: T, z: T, items: seq<T>, formatIndex: T -> string)
    ensures var ps := [Participant("leader", SharedState(true, "010"), 0)];
            var q := [QueueItem("008", x), QueueItem("009", y), QueueItem("010", z)];
            && ExpectedQueueIndex(false, Some("007"), ps) == "010"
            && DequeueAt(q, "010", items, formatIndex) == (Some(QueueItem("010", z)), [])
  {
    var ps := [Participant("leader", SharedState(true, "010"), 0)];
    var q := [QueueItem("008", x), QueueItem("009", y), QueueItem("010", z)];
    assert Less("008", "009") by {
      assert "008"[1..] == "08" && "009"[1..] == "09";
      assert "08"[1..] == "8" && "09"[1..] == "9";
    }
    CatchUpJumpsToLeader(Some("007"), ps, q, 2, items, formatIndex);
    assert q[3..] == [];
  }

  class SharedTrackerFollower<T> {
    const tracker: IndexedQueueTracker<T>
    const election: LeaderElectionClient<SharedState>
    var quit: bool
    var processing: bool
    /** The item whose process callback is in flight, if any. */
    var inFlight: Option<QueueItem<T>>

    /** The JavaScript constructor ends with a first `_onPresenceChange`;
        that step is `OnPresenceChange`. */
    constructor (tracker: IndexedQueueTracker<T>, election: LeaderElectionClient<SharedState>)
      ensures this.tracker == tracker && this.election == election && !quit && !processing && inFlight.None?
    {
      this.tracker := tracker;
      this.election := election;
      quit := false;
      processing := false;
      inFlight := None;
    }

    method Dispose()
      modifies this`quit
      ensures quit
    {
      quit := true;
    }

    /** `_getExpectedQueueIndex`: scan for the first participant that says
        it leads. */
    method GetExpectedQueueIndex() returns (r: string)
      ensures r == ExpectedQueueIndex(quit, election.localState, election.presence.participants)
    {
      if quit {
        return "";
      }
      var ps := election.presence.participants;
      var i := 0;
      while i < |ps|
        invariant 0 <= i <= |ps|
        invariant forall j :: 0 <= j < i ==> !ps[j].data.isLeader
      {
        if ps[i].data.isLeader {
          assert FirstLeader(ps) == Some(i) by {
            FirstLeaderAt(ps, i);
          }
          var queueIndex := ps[i].data.queueIndex;
          var localQueueIndex := IndexOrEmpty(election.localState);
          if queueIndex != localQueueIndex {
            return queueIndex;
          } else {
            break;
          }
        }
        i := i + 1;
      }
      return "";
    }

    /** What a pass begun with flags `quit0` and `processing0`, window
        `queue0` and recorded cursor `recorded0` leaves behind, storage
        answering `storageItems`. */
    ghost predicate Stepped(quit0: bool, processing0: bool, queue0: seq<QueueItem<T>>, recorded0: Option<string>,
                            storageItems: seq<T>, outcome: StepOutcome<T>, scheduleNext: bool)
      reads this, tracker, election, election.presence
    {
      if quit0 || processing0 then
        && outcome == Skipped && !scheduleNext && processing == processing0
        && tracker.queue == queue0 && election.localState == recorded0
      else
        var target := ExpectedQueueIndex(false, recorded0, election.presence.participants);
        if target == "" then
          && outcome == NoWork && !processing && !scheduleNext
          && tracker.queue == queue0 && election.localState == recorded0
        else
          var (found, window) := DequeueAt(queue0, target, storageItems, tracker.formatIndex);
          && tracker.queue == window
          && match found
             case None =>
               outcome == NotFound(target) && election.localState == Some(target) &&
               !processing && (scheduleNext <==> tracker.queue != [])
             case Some(item) =>
               outcome == Invoked(item) && item.queueIndex == target && processing && inFlight == found &&
               !scheduleNext && election.localState == recorded0
    }

    /** `_processNextItem` up to the process callback. No expected index
        means no work. Otherwise the window is searched and backfilled from
        `storageItems` (what the storage callback returns for that index);
        a miss still records the requested index so the follower never
        stalls on a gap, and ends the pass; a hit starts the callback, and
        the cursor is recorded only once it succeeds. */
    method ProcessNextItem(storageItems: seq<T>) returns (outcome: StepOutcome<T>, scheduleNext: bool)
      modifies this`processing, this`inFlight, tracker`queue, election`localState
      ensures Stepped(old(quit), old(processing), old(tracker.queue), old(election.localState), storageItems,
                      outcome, scheduleNext)
      ensures !outcome.Invoked? ==> inFlight == old(inFlight)
    {
      scheduleNext := false;
      if quit || processing {
        return Skipped, false;
      }
      processing := true;
      var queueIndex := GetExpectedQueueIndex();
      if queueIndex == "" {
        processing := false;
        return NoWork, false;
      }
      var item := tracker.DequeueAtQueueIndex(queueIndex, storageItems);
      if item.None? {
        election.localState := Some(queueIndex);
        processing := false;
        scheduleNext := |tracker.queue| > 0;
        return NotFound(queueIndex), scheduleNext;
      }
      inFlight := item;
      outcome := Invoked(item.value);
    }

    /** The process callback settled. On success the item's index is
        recorded; a role that quit meanwhile then stops with the flag
        still raised. On failure the error is swallowed. Otherwise the flag
        is cleared and another pass is scheduled iff the window is not
        empty. */
    method OnItemProcessed(succeeded: bool) returns (scheduleNext: bool)
      requires processing && inFlight.Some?
      modifies this`processing, this`inFlight, election`localState
      ensures inFlight.None?
      ensures succeeded ==> election.localState == Some(old(inFlight).value.queueIndex)
      ensures !succeeded ==> election.localState == old(election.localState)
      ensures succeeded && quit ==> processing && !scheduleNext
      ensures !(succeeded && quit) ==> !processing && (scheduleNext <==> tracker.queue != [])
    {
      var item := inFlight.value;
      inFlight := None;
      if succeeded {
        election.localState := Some(item.queueIndex);
        if quit {
          return false;
        }
      }
      processing := false;
      scheduleNext := |tracker.queue| > 0;
    }

    /** Presence `change` or `stateChange`: start a pass unless quit. */
    method OnPresenceChange(storageItems: seq<T>) returns (outcome: StepOutcome<T>, scheduleNext: bool)
      modifies this`processing, this`inFlight, tracker`queue, election`localState
      ensures old(quit) ==> outcome == Skipped && !scheduleNext && unchanged(this, tracker, election)
      ensures !old(quit) ==>
        Stepped(false, old(processing), old(tracker.queue), old(election.localState), storageItems, outcome, scheduleNext)
      ensures outcome.Invoked? ==> outcome.item.queueIndex != IndexOrEmpty(old(election.localState))
      ensures !outcome.Invoked? ==> inFlight == old(inFlight)
    {
      if quit {
        return Skipped, false;
      }
      outcome, scheduleNext := ProcessNextItem(storageItems);
    }
  }

  lemma {:induction false} FirstLeaderAt(ps: seq<Participant<SharedState>>, i: nat)
    requires i < |ps| && ps[i].data.isLeader
    requires forall j :: 0 <= j < i ==> !ps[j].data.isLeader
    ensures FirstLeader(ps) == Some(i)
  {
    if i > 0 {
      FirstLeaderAt(ps[1..], i - 1);
    }
  }
}

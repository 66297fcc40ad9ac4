/** The distributed-state sync flag: after a warm-up the process adopts the
    most recent state among the participants (or asks its listeners for an
    initial one), and from then on tracks whether every participant's state
    compares equal to the first participant's. */
module DistributedState {
  import opened Common
  import opened Presence
  import opened EventEmitters

  datatype StateEvent<D> =
    | Sync
    | Desync
      /** `emptyState` with the most recent participant's state, or with
          `{}` (none) when there are no participants. */
    | EmptyState(state: Option<D>)

  /** Every participant compares equal to the first one (vacuous for no
      participants). */
  ghost predicate AllAgree<D>(ps: seq<Participant<D>>, cmp: (Participant<D>, Participant<D>) -> int)
  {
    forall i :: 0 <= i < |ps| ==> cmp(ps[0], ps[i]) == 0
  }

  /** With a consistent comparator, agreeing with the first participant is
      agreeing pairwise, so the verdict does not depend on which participant
      the dictionary lists first. */
  lemma AllAgreePairwise<D>(ps: seq<Participant<D>>, cmp: (Participant<D>, Participant<D>) -> int)
    requires ConsistentOn(cmp, ps)
    ensures AllAgree(ps, cmp) <==> forall i, j :: 0 <= i < |ps| && 0 <= j < |ps| ==> cmp(ps[i], ps[j]) == 0
  {
    if AllAgree(ps, cmp) {
      forall i, j | 0 <= i < |ps| && 0 <= j < |ps|
        ensures cmp(ps[i], ps[j]) == 0
      {
        assert cmp(ps[0], ps[i]) == 0 && cmp(ps[0], ps[j]) == 0;
        assert cmp(ps[i], ps[0]) == 0 && cmp(ps[j], ps[0]) == 0;
        assert cmp(ps[i], ps[j]) <= 0;
        assert cmp(ps[j], ps[i]) <= 0;
      }
    }
  }

  /** `k` is the position of the element a stable sort with `cmp` puts
      last: no element is after it, and every element after it in the
      input sorts strictly before it. */
  ghost predicate IsSortedLast<D>(ps: seq<Participant<D>>, cmp: (Participant<D>, Participant<D>) -> int, k: nat)
  {
    && k < |ps|
    && (forall j :: 0 <= j < |ps| ==> cmp(ps[j], ps[k]) <= 0)
    && (forall j :: k < j < |ps| ==> cmp(ps[j], ps[k]) < 0)
  }

  /** The element `pop()` takes from a copy of `ps` sorted with `cmp`. */
  method SortedLast<D>(ps: seq<Participant<D>>, cmp: (Participant<D>, Participant<D>) -> int) returns (k: nat)
    requires ps != [] && ConsistentOn(cmp, ps)
    ensures IsSortedLast(ps, cmp, k)
  {
    assert cmp(ps[0], ps[0]) == 0;
    k := 0;
    var i := 1;
    while i < |ps|
      invariant 0 <= k < i <= |ps|
      invariant forall j :: 0 <= j < i ==> cmp(ps[j], ps[k]) <= 0
      invariant forall j :: k < j < i ==> cmp(ps[j], ps[k]) < 0
    {
      if cmp(ps[i], ps[k]) >= 0 {
        k := i;
      }
      i := i + 1;
    }
  }

  class DistributedStateClient<D(==), H(==)> {
    const presence: PresenceClient<D>
    /** `_compareStateCallback`, used both to sort and to test agreement. */
    const compare: (Participant<D>, Participant<D>) -> int
    /** Whether a participant state carries a truthy `timestamp`. */
    const hasTimestamp: D -> bool
    /** The client's own listener registry. */
    const emitter: EventEmitter<H>
    var isSynchronized: bool
    var warmupTimerArmed: bool

    constructor (presence: PresenceClient<D>, compare: (Participant<D>, Participant<D>) -> int,
                 hasTimestamp: D -> bool, emitter: EventEmitter<H>)
      ensures this.presence == presence && this.compare == compare
      ensures this.hasTimestamp == hasTimestamp && this.emitter == emitter
      ensures !isSynchronized && warmupTimerArmed
    {
      this.presence := presence;
      this.compare := compare;
      this.hasTimestamp := hasTimestamp;
      this.emitter := emitter;
      isSynchronized := false;
      warmupTimerArmed := true;
    }

    /** After an evaluation the flag says whether all participants agree,
        and exactly the transition, if any, was announced. */
    ghost predicate Evaluated(wasSynchronized: bool, emitted: seq<StateEvent<D>>)
      reads this, presence
    {
      && isSynchronized == AllAgree(presence.participants, compare)
      && emitted == (if wasSynchronized == isSynchronized then []
                     else if isSynchronized then [Sync] else [Desync])
    }

    /** `_evalStates`. */
    method EvalStates() returns (emitted: seq<StateEvent<D>>)
      modifies this`isSynchronized
      ensures Evaluated(old(isSynchronized), emitted)
    {
      emitted := [];
      var ps := presence.participants;
      var i := 0;
      while i < |ps|
        invariant 0 <= i <= |ps|
        invariant forall j :: 0 <= j < i ==> compare(ps[0], ps[j]) == 0
      {
        if compare(ps[0], ps[i]) != 0 {
          if isSynchronized {
            isSynchronized := false;
            emitted := [Desync];
          }
          return;
        }
        i := i + 1;
      }
      if !isSynchronized {
        isSynchronized := true;
        emitted := [Sync];
      }
    }

    /** A presence `change` or `stateChange`: ignored while warming up. */
    method OnParticipantStateChange() returns (emitted: seq<StateEvent<D>>)
      modifies this`isSynchronized
      ensures warmupTimerArmed ==> isSynchronized == old(isSynchronized) && emitted == []
      ensures !warmupTimerArmed ==> Evaluated(old(isSynchronized), emitted)
    {
      if warmupTimerArmed {
        return [];
      }
      emitted := EvalStates();
    }

    /** The local side is as it was before a sync that adopted nothing. */
    ghost predicate Untouched(wasSynchronized: bool, state0: D, armed0: bool)
      reads this, presence
    {
      isSynchronized == wasSynchronized && presence.localState == state0 && presence.heartbeatTimerArmed == armed0
    }

    /** The outcome of a sync that found `k` last in the sort. */
    ghost predicate SyncedFrom(k: nat, wasSynchronized: bool, state0: D, armed0: bool,
                               emitted: seq<StateEvent<D>>, sent: seq<PresenceMessage<D>>)
      reads this, presence
    {
      && IsSortedLast(presence.participants, compare, k)
      && var recent := presence.participants[k].data;
         if !hasTimestamp(recent) then
           emitted == [EmptyState(Some(recent))] && sent == [] && Untouched(wasSynchronized, state0, armed0)
         else
           && presence.localState == recent && presence.heartbeatTimerArmed
           && sent == [HeartbeatMsg(recent)] && Evaluated(wasSynchronized, emitted)
    }

    /** The outcome of `_syncState` from the given flag, local state and
        heartbeat timer. */
    ghost predicate Synced(wasSynchronized: bool, state0: D, armed0: bool,
                           emitted: seq<StateEvent<D>>, sent: seq<PresenceMessage<D>>)
      reads this, presence
    {
      if presence.participants == [] then
        emitted == [EmptyState(None)] && sent == [] && Untouched(wasSynchronized, state0, armed0)
      else
        exists k: nat :: SyncedFrom(k, wasSynchronized, state0, armed0, emitted, sent)
    }

    /** `_syncState`: take the participant a sort puts last. If there is
        none, or its state has no timestamp, listeners are asked for an
        initial state; re-arming the warm-up timer then names an undefined
        variable and throws, so the timer stays off. Otherwise its state
        becomes the local state (heartbeated at once) and agreement is
        evaluated. */
    method SyncState() returns (emitted: seq<StateEvent<D>>, sent: seq<PresenceMessage<D>>)
      requires ConsistentOn(compare, presence.participants)
      modifies this`isSynchronized, presence`localState, presence`heartbeatTimerArmed
      ensures Synced(old(isSynchronized), old(presence.localState), old(presence.heartbeatTimerArmed), emitted, sent)
    {
      var ps := presence.participants;
      sent := [];
      if ps == [] {
        emitted := [EmptyState(None)];
        return;
      }
      var k := SortedLast(ps, compare);
      var recent := ps[k].data;
      if !hasTimestamp(recent) {
        emitted := [EmptyState(Some(recent))];
        assert SyncedFrom(k, old(isSynchronized), old(presence.localState), old(presence.heartbeatTimerArmed), emitted, sent);
        return;
      }
      sent := presence.SetLocalState(recent);
      emitted := EvalStates();
      assert SyncedFrom(k, old(isSynchronized), old(presence.localState), old(presence.heartbeatTimerArmed), emitted, sent);
    }

    /** The warm-up timer fires: it is disarmed and the state is synced. */
    method OnWarmupTimer() returns (emitted: seq<StateEvent<D>>, sent: seq<PresenceMessage<D>>)
      requires warmupTimerArmed
      requires ConsistentOn(compare, presence.participants)
      modifies this`isSynchronized, this`warmupTimerArmed, presence`localState, presence`heartbeatTimerArmed
      ensures !warmupTimerArmed
      ensures Synced(old(isSynchronized), old(presence.localState), old(presence.heartbeatTimerArmed), emitted, sent)
    {
      warmupTimerArmed := false;
      emitted, sent := SyncState();
    }

    /** `on` forwards to the registry. */
    method On(name: string, h: H)
      requires emitter.Valid()
      modifies emitter
      ensures emitter.Valid() && name in emitter.listeners && h in emitter.listeners[name]
      ensures emitter.listeners == Registered(old(emitter.listeners), name, h)
    {
      emitter.On(name, h);
    }

    /** `off` forwards to the registry's `on`, so it registers `h` instead
        of removing it. */
    method Off(name: string, h: H)
      requires emitter.Valid()
      modifies emitter
      ensures emitter.Valid() && name in emitter.listeners && h in emitter.listeners[name]
      ensures emitter.listeners == Registered(old(emitter.listeners), name, h)
    {
      emitter.On(name, h);
    }

    /** Disposal: stop the warm-up timer, dispose the presence tracker, then
        empty the listener registry. */
    method Dispose() returns (presenceSent: seq<PresenceMessage<D>>)
      requires presence.Valid()
      modifies this`warmupTimerArmed, presence, emitter
      ensures !warmupTimerArmed && presence.participants == [] && !presence.active
      ensures emitter.listeners == map[]
      ensures presenceSent == [LeaveMsg(presence.localState)]
    {
      warmupTimerArmed := false;
      var presenceEmitted;
      presenceSent, presenceEmitted := presence.Dispose();
      emitter.Dispose();
    }
  }
}

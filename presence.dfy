/** The membership tracker: a participant dictionary keyed by sender id,
    filled by heartbeats and emptied by timeouts. The dictionary is an
    association list in key-insertion order, which is the order in which
    JavaScript's `Object.values` lists it. */
module Presence {
  import opened Common

  /** Events emitted to local listeners. The `change` event's payload (the
      current participant list) is not carried: its listeners in the core
      re-read the tracker instead. */
  datatype PresenceEvent<D> =
    | Join(participant: Participant<D>)
    | Leave(participant: Participant<D>)
    | Change
    | StateChange(participant: Participant<D>)

  /** Messages handed to the transport, each carrying the local state. */
  datatype PresenceMessage<D> = JoinMsg(data: D) | HeartbeatMsg(data: D) | LeaveMsg(data: D)

  /** The three wire events the tracker subscribes to. */
  datatype PresenceEventName = PresenceJoin | PresenceLeave | PresenceHeartbeat

  /** `now - timestamp > interval * 3.5`, written exactly on integers. */
  predicate TimedOut<D>(p: Participant<D>, now: int, interval: nat)
  {
    2 * (now - p.timestamp) > 7 * interval
  }

  /** Dictionary lookup: the position of the entry for `src`, if any. */
  function IndexOf<D>(ps: seq<Participant<D>>, src: string): (r: Option<nat>)
    ensures r.Some? ==> r.value < |ps| && ps[r.value].src == src
    ensures r.None? ==> forall i :: 0 <= i < |ps| ==> ps[i].src != src
  {
    if ps == [] then None
    else if ps[0].src == src then Some(0)
    else match IndexOf(ps[1..], src)
      case None => None
      case Some(k) => Some(k + 1)
  }

  /** `dict[p.src] = p`: overwrite the entry for `p.src` in place, or append
      a new entry. */
  function Upsert<D>(ps: seq<Participant<D>>, p: Participant<D>): seq<Participant<D>>
  {
    match IndexOf(ps, p.src)
    case None => ps + [p]
    case Some(k) => ps[k := p]
  }

  /** An upsert keeps keys unique, stores `p` under its key, grows the
      dictionary only for a new key and leaves every other entry where it
      was. */
  lemma UpsertMeaning<D>(ps: seq<Participant<D>>, p: Participant<D>)
    requires UniqueSrcs(ps)
    ensures var r := Upsert(ps, p);
      UniqueSrcs(r) && p in r &&
      |r| == (if IndexOf(ps, p.src).None? then |ps| + 1 else |ps|) &&
      forall i :: 0 <= i < |ps| && ps[i].src != p.src ==> r[i] == ps[i]
  {
    match IndexOf(ps, p.src)
    case None =>
      assert (ps + [p])[|ps|] == p;
    case Some(k) =>
      assert ps[k := p][k] == p;
  }

  /** `delete dict[src]`: every entry but the one for `src`. */
  function RemoveSrc<D>(ps: seq<Participant<D>>, src: string): (r: seq<Participant<D>>)
    ensures forall i :: 0 <= i < |r| ==> r[i] in ps && r[i].src != src
    ensures forall i :: 0 <= i < |ps| && ps[i].src != src ==> ps[i] in r
  {
    KeepOthers(ps, {src})
  }

  /** The entries whose key is not in `gone`, in dictionary order. */
  function KeepOthers<D>(ps: seq<Participant<D>>, gone: set<string>): (r: seq<Participant<D>>)
    ensures forall i :: 0 <= i < |r| ==> r[i] in ps && r[i].src !in gone
    ensures forall i :: 0 <= i < |ps| && ps[i].src !in gone ==> ps[i] in r
  {
    if ps == [] then []
    else (if ps[0].src in gone then [] else [ps[0]]) + KeepOthers(ps[1..], gone)
  }

  lemma {:induction false} KeepOthersTwice<D>(ps: seq<Participant<D>>, gone: set<string>, src: string)
    ensures RemoveSrc(KeepOthers(ps, gone), src) == KeepOthers(ps, gone + {src})
  {
    if ps != [] {
      KeepOthersTwice(ps[1..], gone, src);
      var head := if ps[0].src in gone then [] else [ps[0]];
      assert KeepOthers(head + KeepOthers(ps[1..], gone), {src}) ==
        KeepOthers(head, {src}) + KeepOthers(KeepOthers(ps[1..], gone), {src}) by {
        KeepOthersAppend(head, KeepOthers(ps[1..], gone), {src});
      }
    }
  }

  lemma {:induction false} KeepOthersAppend<D>(a: seq<Participant<D>>, b: seq<Participant<D>>, gone: set<string>)
    ensures KeepOthers(a + b, gone) == KeepOthers(a, gone) + KeepOthers(b, gone)
  {
    if a != [] {
      assert (a + b)[1..] == a[1..] + b;
      KeepOthersAppend(a[1..], b, gone);
    } else {
      assert a + b == b;
    }
  }

  lemma {:induction false} KeepOthersUnique<D>(ps: seq<Participant<D>>, gone: set<string>)
    requires UniqueSrcs(ps)
    ensures UniqueSrcs(KeepOthers(ps, gone))
  {
    if ps != [] {
      KeepOthersUnique(ps[1..], gone);
      var rest := KeepOthers(ps[1..], gone);
      if ps[0].src !in gone {
        var r := [ps[0]] + rest;
        forall i, j | 0 <= i < j < |r|
          ensures r[i].src != r[j].src
        {
          if i == 0 {
            assert r[j] in ps[1..];
            var m :| 0 <= m < |ps[1..]| && ps[1..][m] == r[j];
            assert ps[m + 1] == r[j];
          } else {
            assert r[i] == rest[i - 1] && r[j] == rest[j - 1];
          }
        }
      }
    }
  }

  /** The entries that housekeeping finds timed out, in dictionary order. */
  function Expired<D>(ps: seq<Participant<D>>, now: int, interval: nat): (r: seq<Participant<D>>)
    ensures forall i :: 0 <= i < |r| ==> r[i] in ps && TimedOut(r[i], now, interval)
    ensures forall i :: 0 <= i < |ps| && TimedOut(ps[i], now, interval) ==> ps[i] in r
  {
    if ps == [] then []
    else (if TimedOut(ps[0], now, interval) then [ps[0]] else []) + Expired(ps[1..], now, interval)
  }

  /** The entries that survive housekeeping, in dictionary order. */
  function Live<D>(ps: seq<Participant<D>>, now: int, interval: nat): (r: seq<Participant<D>>)
    ensures forall i :: 0 <= i < |r| ==> r[i] in ps && !TimedOut(r[i], now, interval)
    ensures forall i :: 0 <= i < |ps| && !TimedOut(ps[i], now, interval) ==> ps[i] in r
  {
    if ps == [] then []
    else (if TimedOut(ps[0], now, interval) then [] else [ps[0]]) + Live(ps[1..], now, interval)
  }

  /** The events housekeeping emits: `leave` then `change` for each expired
      entry, in dictionary order. */
  function EvictionEvents<D>(expired: seq<Participant<D>>): (r: seq<PresenceEvent<D>>)
    ensures |r| == 2 * |expired|
    ensures forall i :: 0 <= i < |expired| ==> r[2 * i] == Leave(expired[i]) && r[2 * i + 1] == Change
  {
    if expired == [] then [] else [Leave(expired[0]), Change] + EvictionEvents(expired[1..])
  }

  lemma {:induction false} EvictionEventsAppend<D>(a: seq<Participant<D>>, p: Participant<D>)
    ensures EvictionEvents(a + [p]) == EvictionEvents(a) + [Leave(p), Change]
  {
    if a != [] {
      assert (a + [p])[1..] == a[1..] + [p];
      EvictionEventsAppend(a[1..], p);
    }
  }

  /** The events of the first `j + 1` evictions extend those of the first `j`. */
  lemma EvictionEventsPrefix<D>(e: seq<Participant<D>>, j: nat)
    requires j < |e|
    ensures EvictionEvents(e[..j + 1]) == EvictionEvents(e[..j]) + [Leave(e[j]), Change]
  {
    assert e[..j + 1] == e[..j] + [e[j]];
    EvictionEventsAppend(e[..j], e[j]);
  }

  lemma {:induction false} ExpiredUnique<D>(ps: seq<Participant<D>>, now: int, interval: nat)
    requires UniqueSrcs(ps)
    ensures UniqueSrcs(Expired(ps, now, interval))
  {
    if ps != [] {
      ExpiredUnique(ps[1..], now, interval);
      var rest := Expired(ps[1..], now, interval);
      if TimedOut(ps[0], now, interval) {
        var r := [ps[0]] + rest;
        forall i, j | 0 <= i < j < |r|
          ensures r[i].src != r[j].src
        {
          if i == 0 {
            assert r[j] in ps[1..];
            var m :| 0 <= m < |ps[1..]| && ps[1..][m] == r[j];
            assert ps[m + 1] == r[j];
          } else {
            assert r[i] == rest[i - 1] && r[j] == rest[j - 1];
          }
        }
      }
    }
  }

  /** Removing exactly the keys of the expired entries leaves the live ones. */
  lemma {:induction false} KeepOthersLive<D>(ps: seq<Participant<D>>, gone: set<string>, now: int, interval: nat)
    requires forall i :: 0 <= i < |ps| ==> (ps[i].src in gone <==> TimedOut(ps[i], now, interval))
    ensures KeepOthers(ps, gone) == Live(ps, now, interval)
  {
    if ps != [] {
      KeepOthersLive(ps[1..], gone, now, interval);
    }
  }

  class PresenceClient<D(==)> {
    const uuid: string
    const heartbeatIntervalMilliseconds: nat
    /** `Object.values(this._participants)`. */
    var participants: seq<Participant<D>>
    /** `_data`, the state this process publishes. */
    var localState: D
    /** Whether a heartbeat timer is pending. */
    var heartbeatTimerArmed: bool
    /** Whether the transport subscriptions and the housekeeping interval
        are active. */
    var active: bool

    ghost predicate Valid()
      reads this
    {
      UniqueSrcs(participants)
    }

    constructor (uuid: string, heartbeatIntervalMilliseconds: nat, initialState: D)
      ensures Valid() && this.uuid == uuid && this.heartbeatIntervalMilliseconds == heartbeatIntervalMilliseconds
      ensures participants == [] && localState == initialState && !heartbeatTimerArmed && active
    {
      this.uuid := uuid;
      this.heartbeatIntervalMilliseconds := heartbeatIntervalMilliseconds;
      participants := [];
      localState := initialState;
      heartbeatTimerArmed := false;
      active := true;
    }

    /** What one heartbeat from `src` carrying `data` at time `now` does:
        the entry for `src` is overwritten (or appended); a new participant
        causes `join` then `change`, and a welcome heartbeat of the local
        state unless it is this process; a known participant whose data
        differs causes `stateChange`. */
    ghost predicate HeartbeatApplied(before: seq<Participant<D>>, after: seq<Participant<D>>,
                                     emitted: seq<PresenceEvent<D>>, sent: seq<PresenceMessage<D>>,
                                     src: string, data: D, now: int)
      reads this
    {
      var p := Participant(src, data, now);
      && after == Upsert(before, p)
      && match IndexOf(before, src)
         case None =>
           emitted == [Join(p), Change] && sent == (if src != uuid then [HeartbeatMsg(localState)] else [])
         case Some(k) =>
           emitted == (if before[k].data != data then [StateChange(p)] else []) && sent == []
    }

    method OnParticipantHeartbeat(src: string, data: D, now: int)
      returns (emitted: seq<PresenceEvent<D>>, sent: seq<PresenceMessage<D>>)
      requires Valid()
      modifies this`participants
      ensures Valid()
      ensures HeartbeatApplied(old(participants), participants, emitted, sent, src, data, now)
    {
      UpsertMeaning(participants, Participant(src, data, now));
      var k := IndexOf(participants, src);
      var isNew := k.None?;
      var isStateChange := !isNew && participants[k.value].data != data;
      var p := Participant(src, data, now);
      if isNew {
        participants := participants + [p];
      } else {
        participants := participants[k.value := p];
      }
      emitted, sent := [], [];
      if isNew {
        emitted := [Join(p), Change];
        if src != uuid {
          sent := [HeartbeatMsg(localState)];
        }
      }
      if isStateChange {
        emitted := emitted + [StateChange(p)];
      }
    }

    /** `presence:join`, `presence:leave` and `presence:heartbeat` are all
        handled as a heartbeat: a leave message removes no one. */
    method OnEvent(event: PresenceEventName, src: string, data: D, now: int)
      returns (emitted: seq<PresenceEvent<D>>, sent: seq<PresenceMessage<D>>)
      requires Valid()
      modifies this`participants
      ensures Valid()
      ensures HeartbeatApplied(old(participants), participants, emitted, sent, src, data, now)
    {
      match event
      case PresenceJoin =>
        emitted, sent := OnParticipantHeartbeat(src, data, now);
      case PresenceLeave =>
        emitted, sent := OnParticipantHeartbeat(src, data, now);
      case PresenceHeartbeat =>
        emitted, sent := OnParticipantHeartbeat(src, data, now);
    }

    /** A timeout for an absent key does nothing; otherwise the entry is
        deleted and `leave` then `change` are emitted once. */
    method OnParticipantTimeout(src: string) returns (emitted: seq<PresenceEvent<D>>)
      requires Valid()
      modifies this`participants
      ensures Valid()
      ensures IndexOf(old(participants), src).None? ==> participants == old(participants) && emitted == []
      ensures IndexOf(old(participants), src).Some? ==>
        participants == RemoveSrc(old(participants), src) &&
        emitted == [Leave(old(participants)[IndexOf(old(participants), src).value]), Change]
    {
      var k := IndexOf(participants, src);
      if k.None? {
        return [];
      }
      var p := participants[k.value];
      KeepOthersUnique(participants, {src});
      participants := RemoveSrc(participants, src);
      emitted := [Leave(p), Change];
    }

    /** The first pass of housekeeping: the keys of the entries silent for
        more than 3.5 heartbeat intervals, in dictionary order. */
    method CollectTimeouts(now: int) returns (timeouts: seq<string>)
      ensures timeouts == Srcs(Expired(participants, now, heartbeatIntervalMilliseconds))
    {
      timeouts := [];
      var i := 0;
      while i < |participants|
        invariant 0 <= i <= |participants|
        invariant timeouts == Srcs(Expired(participants[..i], now, heartbeatIntervalMilliseconds))
      {
        assert participants[..i + 1] == participants[..i] + [participants[i]];
        ExpiredAppend(participants[..i], participants[i], now, heartbeatIntervalMilliseconds);
        assert Srcs(Expired(participants[..i], now, heartbeatIntervalMilliseconds) + [participants[i]])
            == Srcs(Expired(participants[..i], now, heartbeatIntervalMilliseconds)) + [participants[i].src];
        if TimedOut(participants[i], now, heartbeatIntervalMilliseconds) {
          timeouts := timeouts + [participants[i].src];
        }
        i := i + 1;
      }
      assert participants[..i] == participants;
    }

    /** Collects the keys of the expired entries, then times each of them
        out: exactly the expired entries go, the others stay in order, and
        each expired entry causes one `leave` and one `change`. */
    method Housekeep(now: int) returns (emitted: seq<PresenceEvent<D>>)
      requires Valid()
      modifies this`participants
      ensures Valid()
      ensures participants == Live(old(participants), now, heartbeatIntervalMilliseconds)
      ensures emitted == EvictionEvents(Expired(old(participants), now, heartbeatIntervalMilliseconds))
    {
      ghost var ps0 := participants;
      ghost var expired := Expired(ps0, now, heartbeatIntervalMilliseconds);
      var timeouts := CollectTimeouts(now);
      KeepOthersAbsent(ps0, {});
      assert Gone(expired, 0) == {};
      emitted := [];
      var j := 0;
      while j < |timeouts|
        invariant 0 <= j <= |timeouts| == |expired|
        invariant UniqueSrcs(participants)
        invariant participants == KeepOthers(ps0, Gone(expired, j))
        invariant emitted == EvictionEvents(expired[..j])
      {
        ghost var p := expired[j];
        assert timeouts[j] == p.src;
        EvictStep(ps0, now, heartbeatIntervalMilliseconds, j);
        EvictionEventsPrefix(expired, j);
        var evs := OnParticipantTimeout(timeouts[j]);
        assert evs == [Leave(p), Change];
        assert participants == KeepOthers(ps0, Gone(expired, j + 1));
        emitted := emitted + evs;
        j := j + 1;
      }
      assert expired[..j] == expired;
      EvictAll(ps0, now, heartbeatIntervalMilliseconds);
    }

    /** The `localState` setter: store the value and heartbeat it at once,
        re-arming the heartbeat timer. */
    method SetLocalState(value: D) returns (sent: seq<PresenceMessage<D>>)
      modifies this`localState, this`heartbeatTimerArmed
      ensures localState == value && heartbeatTimerArmed
      ensures sent == [HeartbeatMsg(value)]
    {
      localState := value;
      sent := Heartbeat();
    }

    /** `_heartbeat`, also what the heartbeat timer runs: publish the current
        (last stored, not the initial) local state and re-arm the timer. */
    method Heartbeat() returns (sent: seq<PresenceMessage<D>>)
      modifies this`heartbeatTimerArmed
      ensures heartbeatTimerArmed
      ensures sent == [HeartbeatMsg(localState)]
    {
      sent := [HeartbeatMsg(localState)];
      heartbeatTimerArmed := true;
    }

    /** The transport is ready again: announce with `presence:join`, then
        heartbeat. */
    method OnReconnect() returns (sent: seq<PresenceMessage<D>>)
      modifies this`heartbeatTimerArmed
      ensures heartbeatTimerArmed
      ensures sent == [JoinMsg(localState), HeartbeatMsg(localState)]
    {
      var hb := Heartbeat();
      sent := [JoinMsg(localState)] + hb;
    }

    /** Disposal: unsubscribe, stop the timers, send `presence:leave` with the
        local state, run the per-key timeout loop, and empty the dictionary.
        The loop hands each bare key to a handler that destructures
        `{ src }` from it, so every iteration looks up the key `undefined`:
        only a participant whose id is that very string gets a `leave`. */
    method Dispose() returns (sent: seq<PresenceMessage<D>>, emitted: seq<PresenceEvent<D>>)
      requires Valid()
      modifies this`participants, this`heartbeatTimerArmed, this`active
      ensures Valid()
      ensures participants == [] && !heartbeatTimerArmed && !active
      ensures sent == [LeaveMsg(localState)]
      ensures emitted == match IndexOf(old(participants), UndefinedKey)
                         case None => []
                         case Some(k) => [Leave(old(participants)[k]), Change]
    {
      active := false;
      heartbeatTimerArmed := false;
      sent := [LeaveMsg(localState)];
      ghost var ps0 := participants;
      var keys := Srcs(participants);
      emitted := [];
      var i := 0;
      while i < |keys|
        invariant 0 <= i <= |keys| == |ps0|
        invariant Valid()
        invariant !heartbeatTimerArmed && !active
        invariant i == 0 ==> participants == ps0 && emitted == []
        invariant i > 0 ==> participants == RemoveSrc(ps0, UndefinedKey)
        invariant i > 0 ==> emitted == match IndexOf(ps0, UndefinedKey)
                                       case None => []
                                       case Some(k) => [Leave(ps0[k]), Change]
      {
        if IndexOf(participants, UndefinedKey).None? {
          KeepOthersAbsent(participants, {UndefinedKey});
        }
        var evs := OnParticipantTimeout(UndefinedKey);
        emitted := emitted + evs;
        i := i + 1;
      }
      participants := [];
    }
  }

  /** The property key `undefined` becomes when it indexes an object. */
  const UndefinedKey: string := "undefined"

  /** Removing keys that are not there changes nothing. */
  lemma {:induction false} KeepOthersAbsent<D>(ps: seq<Participant<D>>, gone: set<string>)
    requires forall i :: 0 <= i < |ps| ==> ps[i].src !in gone
    ensures KeepOthers(ps, gone) == ps
  {
    if ps != [] {
      KeepOthersAbsent(ps[1..], gone);
      assert ps == [ps[0]] + ps[1..];
    }
  }

  /** The keys of the first `j` expired entries. */
  function Gone<D>(expired: seq<Participant<D>>, j: nat): set<string>
    requires j <= |expired|
  {
    set m | 0 <= m < j :: expired[m].src
  }

  /** Step `j` of the second housekeeping pass finds the `j`-th expired
      entry still present and removes exactly it. */
  lemma EvictStep<D>(ps0: seq<Participant<D>>, now: int, interval: nat, j: nat)
    requires UniqueSrcs(ps0) && j < |Expired(ps0, now, interval)|
    ensures var e := Expired(ps0, now, interval);
      var cur := KeepOthers(ps0, Gone(e, j));
      && IndexOf(cur, e[j].src).Some?
      && cur[IndexOf(cur, e[j].src).value] == e[j]
      && RemoveSrc(cur, e[j].src) == KeepOthers(ps0, Gone(e, j + 1))
  {
    var e := Expired(ps0, now, interval);
    var gone := Gone(e, j);
    var cur := KeepOthers(ps0, gone);
    ExpiredUnique(ps0, now, interval);
    KeepOthersUnique(ps0, gone);
    var p := e[j];
    assert p.src !in gone by {
      forall m | 0 <= m < j ensures e[m].src != p.src {
      }
    }
    var n :| 0 <= n < |ps0| && ps0[n] == p;
    assert p in cur;
    var k := IndexOf(cur, p.src);
    assert cur[k.value] == p by {
      var i :| 0 <= i < |cur| && cur[i] == p;
      assert cur[i].src == cur[k.value].src;
    }
    KeepOthersTwice(ps0, gone, p.src);
    assert Gone(e, j + 1) == gone + {p.src};
  }

  /** After the second pass the live entries, and only they, remain. */
  lemma EvictAll<D>(ps0: seq<Participant<D>>, now: int, interval: nat)
    requires UniqueSrcs(ps0)
    ensures var e := Expired(ps0, now, interval);
      KeepOthers(ps0, Gone(e, |e|)) == Live(ps0, now, interval)
  {
    var e := Expired(ps0, now, interval);
    var gone := Gone(e, |e|);
    forall n | 0 <= n < |ps0|
      ensures ps0[n].src in gone <==> TimedOut(ps0[n], now, interval)
    {
      var x := ps0[n];
      if TimedOut(x, now, interval) {
        var m :| 0 <= m < |e| && e[m] == x;
      }
    }
    KeepOthersLive(ps0, gone, now, interval);
  }

  lemma ExpiredAppend<D>(ps: seq<Participant<D>>, p: Participant<D>, now: int, interval: nat)
    ensures Expired(ps + [p], now, interval) ==
      Expired(ps, now, interval) + (if TimedOut(p, now, interval) then [p] else [])
  {
    if ps != [] {
      assert (ps + [p])[1..] == ps[1..] + [p];
      ExpiredAppend(ps[1..], p, now, interval);
    }
  }
}

/** One replica's leader election: a belief about who leads, fed by
    `leader:announced` messages, and a decision procedure that sorts the
    presence participants with a comparator and lets only the participant
    that sorts first claim leadership. */
module LeaderElection {
  import opened Common
  import opened Presence

  /** Events emitted to local listeners. */
  datatype ElectionEvent = LeaderStateChanged(isLeader: bool) | LeaderRequested

  /** Messages handed to the transport. Their payload spreads a
      `presenceData` property the presence tracker does not have, so it is
      always `{}`; receivers use only the sender id the transport adds. */
  datatype ElectionMessage = LeaderRequestedMsg | LeaderAnnouncedMsg

  /** `k` is the position of the element a stable sort with `cmp` puts
      first: it is not after any element, and every element before it in
      the input sorts strictly after it. */
  ghost predicate IsSortedHead<D>(ps: seq<Participant<D>>, cmp: (Participant<D>, Participant<D>) -> int, k: nat)
  {
    && k < |ps|
    && (forall j :: 0 <= j < |ps| ==> cmp(ps[k], ps[j]) <= 0)
    && (forall j :: 0 <= j < k ==> cmp(ps[j], ps[k]) > 0)
  }

  /** The head of the sorted copy is well defined. */
  lemma SortedHeadUnique<D>(ps: seq<Participant<D>>, cmp: (Participant<D>, Participant<D>) -> int, k1: nat, k2: nat)
    requires ConsistentOn(cmp, ps)
    requires IsSortedHead(ps, cmp, k1) && IsSortedHead(ps, cmp, k2)
    ensures k1 == k2
  {
    var a, b := ps[k1], ps[k2];
    assert k1 < k2 ==> cmp(a, b) > 0;
    assert k2 < k1 ==> cmp(b, a) > 0;
  }

  /** When the comparator ties only entries with the same id, every replica
      whose participant list holds the same entries, in whatever dictionary
      order, sorts the same id first. */
  lemma SortedHeadOrderIndependent<D>(ps1: seq<Participant<D>>, ps2: seq<Participant<D>>,
                                      cmp: (Participant<D>, Participant<D>) -> int, k1: nat, k2: nat)
    requires IsSortedHead(ps1, cmp, k1) && IsSortedHead(ps2, cmp, k2)
    requires ConsistentOn(cmp, ps1 + ps2)
    requires forall i :: 0 <= i < |ps1| ==> ps1[i] in ps2
    requires forall i :: 0 <= i < |ps2| ==> ps2[i] in ps1
    requires forall i, j :: 0 <= i < |ps1| && 0 <= j < |ps1| && cmp(ps1[i], ps1[j]) == 0 ==> ps1[i].src == ps1[j].src
    ensures ps1[k1].src == ps2[k2].src
  {
    var a, b := ps1[k1], ps2[k2];
    var ia :| 0 <= ia < |ps2| && ps2[ia] == a;
    var ib :| 0 <= ib < |ps1| && ps1[ib] == b;
    assert cmp(a, b) <= 0;
    assert cmp(b, a) <= 0;
    var s := ps1 + ps2;
    assert s[k1] == a && s[|ps1| + k2] == b;
    assert cmp(a, b) == 0;
    assert cmp(ps1[k1], ps1[ib]) == 0;
  }

  /** The first element of `ps` after a stable sort with `cmp`. */
  method SortedHead<D>(ps: seq<Participant<D>>, cmp: (Participant<D>, Participant<D>) -> int) returns (k: nat)
    requires ps != [] && ConsistentOn(cmp, ps)
    ensures IsSortedHead(ps, cmp, k)
  {
    assert cmp(ps[0], ps[0]) == 0;
    k := 0;
    var i := 1;
    while i < |ps|
      invariant 0 <= k < i <= |ps|
      invariant forall j :: 0 <= j < i ==> cmp(ps[k], ps[j]) <= 0
      invariant forall j :: 0 <= j < k ==> cmp(ps[j], ps[k]) > 0
    {
      if cmp(ps[i], ps[k]) < 0 {
        k := i;
      }
      i := i + 1;
    }
  }

  /** Whether a decimal string is a canonical array index (the form
      `String(n)` produces for `0 <= n < 2^32 - 1`), and the index it names. */
  function CanonicalIndex(s: string): (r: Option<nat>)
    ensures r.Some? ==> |s| > 0 && (forall i :: 0 <= i < |s| ==> '0' <= s[i] <= '9') && r.value < 0xFFFF_FFFF
  {
    if |s| > 0 && (forall i :: 0 <= i < |s| ==> '0' <= s[i] <= '9') && (s == "0" || s[0] != '0')
       && DecimalValue(s) < 0xFFFF_FFFF
    then Some(DecimalValue(s))
    else None
  }

  function DecimalValue(s: string): nat
    requires forall i :: 0 <= i < |s| ==> '0' <= s[i] <= '9'
  {
    if s == [] then 0 else 10 * DecimalValue(s[..|s| - 1]) + (s[|s| - 1] - '0') as nat
  }

  /** `_leaderExists` as written: `src in participants` asks whether the
      leader's id is a property key of the participant array, that is an
      index below its length or `length` itself; entry ids are never
      consulted. */
  function LeaderExistsAsWritten<D>(leader: Option<string>, ps: seq<Participant<D>>): (r: bool)
    ensures r ==> leader.Some? && (leader.value == "length" || CanonicalIndex(leader.value).Some?)
  {
    leader.Some? &&
    (leader.value == "length" ||
     (CanonicalIndex(leader.value).Some? && CanonicalIndex(leader.value).value < |ps|))
  }

  /** As written, the test depends only on how many participants there are. */
  lemma LeaderExistsAsWrittenIgnoresIds<D>(leader: Option<string>, ps1: seq<Participant<D>>, ps2: seq<Participant<D>>)
    requires |ps1| == |ps2|
    ensures LeaderExistsAsWritten(leader, ps1) == LeaderExistsAsWritten(leader, ps2)
  {
  }

  /** A present leader whose id is not an index is reported absent. */
  lemma LeaderExistsAsWrittenMissesLeader()
    ensures var ps := [Participant("replica-a", 0, 0)];
      !LeaderExistsAsWritten(Some("replica-a"), ps) && LeaderExists(Some("replica-a"), ps)
  {
    var ps := [Participant("replica-a", 0, 0)];
    assert Srcs(ps)[0] == "replica-a";
    assert !('0' <= "replica-a"[0] <= '9');
  }

  /** The intended test: the believed leader is among the participants. */
  function LeaderExists<D>(leader: Option<string>, ps: seq<Participant<D>>): (r: bool)
    ensures r <==> leader.Some? && exists i :: 0 <= i < |ps| && ps[i].src == leader.value
  {
    leader.Some? && leader.value in Srcs(ps)
  }

  /** Which leader-presence test an election client runs: the one the code
      contains, or the intended one. */
  datatype LeaderTest = AsWrittenTest | CorrectedTest

  function LeaderPresent<D>(test: LeaderTest, leader: Option<string>, ps: seq<Participant<D>>): (r: bool)
    ensures test == AsWrittenTest ==> r == LeaderExistsAsWritten(leader, ps)
    ensures test == CorrectedTest ==> r == LeaderExists(leader, ps)
  {
    match test
    case AsWrittenTest => LeaderExistsAsWritten(leader, ps)
    case CorrectedTest => LeaderExists(leader, ps)
  }

  class LeaderElectionClient<D(==)> {
    const presence: PresenceClient<D>
    /** `_requestSortParticipantsCallback`. */
    const compare: (Participant<D>, Participant<D>) -> int
    const warmupTimeMilliseconds: nat
    const allowLeaderDemotion: bool
    /** The `_leaderExists` test this client runs. */
    const leaderTest: LeaderTest
    /** The id of the believed leader (`_leader.src`), or none. */
    var leader: Option<string>
    /** `_lastLeaderState`: the role last reported to listeners, if any. */
    var lastLeaderState: Option<bool>
    var isWarm: bool
    var leaderTimerArmed: bool
    /** Whether the presence and transport subscriptions are active. */
    var active: bool
    /** The `localState` property the replication roles attach to this
        object: `{queueIndex}` as the queue index, or none while unset. */
    var localState: Option<string>

    /** `isLeader`: the believed leader is this process. */
    predicate IsLeader()
      reads this
    {
      leader == Some(presence.uuid)
    }

    /** `hasLeader`. */
    predicate HasLeader()
      reads this
    {
      leader.Some?
    }

    /** The JavaScript constructor also requests a leader at once; that step
        is `RequestLeader`. */
    constructor (presence: PresenceClient<D>, compare: (Participant<D>, Participant<D>) -> int,
                 warmupTimeMilliseconds: nat, allowLeaderDemotion: bool, leaderTest: LeaderTest)
      ensures this.presence == presence && this.compare == compare
      ensures this.warmupTimeMilliseconds == warmupTimeMilliseconds && this.allowLeaderDemotion == allowLeaderDemotion
      ensures this.leaderTest == leaderTest
      ensures leader.None? && lastLeaderState.None? && !isWarm && !leaderTimerArmed && active && localState.None?
    {
      this.presence := presence;
      this.compare := compare;
      this.warmupTimeMilliseconds := warmupTimeMilliseconds;
      this.allowLeaderDemotion := allowLeaderDemotion;
      this.leaderTest := leaderTest;
      leader := None;
      lastLeaderState := None;
      isWarm := false;
      leaderTimerArmed := false;
      active := true;
      localState := None;
    }

    method RequestLeader() returns (sent: seq<ElectionMessage>, emitted: seq<ElectionEvent>)
      ensures sent == [LeaderRequestedMsg] && emitted == [LeaderRequested]
    {
      sent := [LeaderRequestedMsg];
      emitted := [LeaderRequested];
    }

    /** An announcement from `src` is adopted without validation; listeners
        hear `leaderStateChanged` only when this process's role differs from
        the one last reported. */
    method OnLeaderAnnounced(src: string) returns (emitted: seq<ElectionEvent>)
      modifies this`leader, this`lastLeaderState
      ensures leader == Some(src) && lastLeaderState == Some(src == presence.uuid)
      ensures emitted == if old(lastLeaderState) == Some(src == presence.uuid) then []
                         else [LeaderStateChanged(src == presence.uuid)]
    {
      leader := Some(src);
      emitted := [];
      if lastLeaderState != Some(IsLeader()) {
        lastLeaderState := Some(IsLeader());
        emitted := [LeaderStateChanged(IsLeader())];
      }
    }

    /** `_evalLeader`, also run on presence `leave` and `change`: (re)arm the
        leader timer, with no delay once warm and the warm-up delay before. */
    method EvalLeader() returns (delay: nat)
      modifies this`leaderTimerArmed
      ensures leaderTimerArmed
      ensures delay == if isWarm then 0 else warmupTimeMilliseconds
    {
      leaderTimerArmed := true;
      delay := if isWarm then 0 else warmupTimeMilliseconds;
    }

    /** A presence `join` or a `leader:requested` message: the current leader
        re-announces itself; any other process re-evaluates. */
    method OnPresenceJoinOrLeaderRequested() returns (sent: seq<ElectionMessage>, delay: Option<nat>)
      modifies this`leaderTimerArmed
      ensures IsLeader() ==> sent == [LeaderAnnouncedMsg] && delay.None? && leaderTimerArmed == old(leaderTimerArmed)
      ensures !IsLeader() ==>
        (sent == [] && leaderTimerArmed && delay == Some(if isWarm then 0 else warmupTimeMilliseconds))
    {
      if IsLeader() {
        sent := ClaimLeadership();
        delay := None;
      } else {
        sent := [];
        var d := EvalLeader();
        delay := Some(d);
      }
    }

    method ClaimLeadership() returns (sent: seq<ElectionMessage>)
      ensures sent == [LeaderAnnouncedMsg]
    {
      sent := [LeaderAnnouncedMsg];
    }

    /** What one evaluation over participant list `ps` does, leader belief
        `before` becoming `after`: a leader the client's test reports
        present is kept when demotion is off; an empty list clears the belief (reporting a lost role if
        this process led); otherwise only the participant that sorts first
        may act, and does so by claiming if it is this process. */
    ghost predicate Evaluated(ps: seq<Participant<D>>, before: Option<string>, after: Option<string>,
                              sent: seq<ElectionMessage>, emitted: seq<ElectionEvent>)
      reads this
    {
      if LeaderPresent(leaderTest, before, ps) && !allowLeaderDemotion then
        after == before && sent == [] && emitted == []
      else if ps == [] then
        after.None? && sent == [] &&
        emitted == (if before == Some(presence.uuid) then [LeaderStateChanged(false)] else [])
      else
        emitted == [] && exists k: nat :: HeadActs(ps, before, after, sent, k)
    }

    /** The participant at `k` sorts first, and the belief and broadcast
        are what that participant being this process or not calls for. */
    ghost predicate HeadActs(ps: seq<Participant<D>>, before: Option<string>, after: Option<string>,
                             sent: seq<ElectionMessage>, k: nat)
      reads this
    {
      IsSortedHead(ps, compare, k) &&
      if ps[k].src == presence.uuid then after == Some(presence.uuid) && sent == [LeaderAnnouncedMsg]
      else after == before && sent == []
    }

    method EvalLeaderExec() returns (sent: seq<ElectionMessage>, emitted: seq<ElectionEvent>)
      requires ConsistentOn(compare, presence.participants)
      modifies this`leader
      ensures Evaluated(presence.participants, old(leader), leader, sent, emitted)
    {
      sent, emitted := [], [];
      var ps := presence.participants;
      if LeaderPresent(leaderTest, leader, ps) && !allowLeaderDemotion {
        return;
      }
      if ps == [] {
        var wasLeader := IsLeader();
        leader := None;
        if wasLeader {
          emitted := [LeaderStateChanged(false)];
        }
        return;
      }
      var k := SortedHead(ps, compare);
      if ps[k].src == presence.uuid {
        leader := Some(ps[k].src);
        sent := ClaimLeadership();
      }
      assert HeadActs(ps, old(leader), leader, sent, k);
    }

    /** The leader timer fires: the process is warm from now on. */
    method OnLeaderTimer() returns (sent: seq<ElectionMessage>, emitted: seq<ElectionEvent>)
      requires leaderTimerArmed
      requires ConsistentOn(compare, presence.participants)
      modifies this`leader, this`isWarm, this`leaderTimerArmed
      ensures isWarm && !leaderTimerArmed
      ensures Evaluated(presence.participants, old(leader), leader, sent, emitted)
    {
      isWarm := true;
      leaderTimerArmed := false;
      sent, emitted := EvalLeaderExec();
    }

    /** Disposal: stop the timer, unsubscribe, dispose the presence tracker,
        and drop the leader belief, reporting a lost role if this process
        led. `lastLeaderState` is left as it was. */
    method Dispose() returns (presenceSent: seq<PresenceMessage<D>>, emitted: seq<ElectionEvent>)
      requires presence.Valid()
      modifies this`leader, this`leaderTimerArmed, this`active, presence
      ensures leader.None? && !leaderTimerArmed && !active && lastLeaderState == old(lastLeaderState)
      ensures presence.participants == [] && !presence.active
      ensures presenceSent == [LeaveMsg(presence.localState)]
      ensures emitted == if old(leader) == Some(presence.uuid) then [LeaderStateChanged(false)] else []
    {
      leaderTimerArmed := false;
      active := false;
      var presenceEmitted;
      presenceSent, presenceEmitted := presence.Dispose();
      var wasLeader := IsLeader();
      leader := None;
      emitted := if wasLeader then [LeaderStateChanged(false)] else [];
    }
  }

  /** Evaluation never installs another process as leader: afterwards the
      belief is the old one, none, or this process. */
  lemma EvaluatedOnlySelfClaims<D>(c: LeaderElectionClient<D>, ps: seq<Participant<D>>, before: Option<string>,
                                       after: Option<string>, sent: seq<ElectionMessage>, emitted: seq<ElectionEvent>)
    requires c.Evaluated(ps, before, after, sent, emitted)
    ensures after == before || after.None? || after == Some(c.presence.uuid)
    ensures sent != [] ==> sent == [LeaderAnnouncedMsg] && after == Some(c.presence.uuid)
  {
  }

  /** With the test as written, a present leader whose id is not an array
      index does not stop the evaluation: when demotion is off and this
      process sorts first, it claims leadership over the believed leader,
      so two processes then announce themselves. */
  lemma AsWrittenClaimsOverPresentLeader<D>(c: LeaderElectionClient<D>, ps: seq<Participant<D>>, b: nat, k: nat,
                                            after: Option<string>, sent: seq<ElectionMessage>, emitted: seq<ElectionEvent>)
    requires c.leaderTest == AsWrittenTest && !c.allowLeaderDemotion && ConsistentOn(c.compare, ps)
    requires b < |ps| && ps[b].src != c.presence.uuid && ps[b].src != "length" && CanonicalIndex(ps[b].src).None?
    requires IsSortedHead(ps, c.compare, k) && ps[k].src == c.presence.uuid
    requires c.Evaluated(ps, Some(ps[b].src), after, sent, emitted)
    ensures after == Some(c.presence.uuid) && sent == [LeaderAnnouncedMsg]
  {
    assert !LeaderExistsAsWritten(Some(ps[b].src), ps);
    var k' :| c.HeadActs(ps, Some(ps[b].src), after, sent, k');
    SortedHeadUnique(ps, c.compare, k, k');
  }

  /** With the intended test the same situation changes nothing: the
      present leader is kept. */
  lemma CorrectedKeepsPresentLeader<D>(c: LeaderElectionClient<D>, ps: seq<Participant<D>>, b: nat,
                                       after: Option<string>, sent: seq<ElectionMessage>, emitted: seq<ElectionEvent>)
    requires c.leaderTest == CorrectedTest && !c.allowLeaderDemotion && b < |ps|
    requires c.Evaluated(ps, Some(ps[b].src), after, sent, emitted)
    ensures after == Some(ps[b].src) && sent == [] && emitted == []
  {
    assert LeaderExists(Some(ps[b].src), ps);
  }
}

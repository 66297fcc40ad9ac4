/** The coordinated message queue: a FIFO whose items are handed out one
    at a time, each round waiting until every participant present when it
    began has acknowledged it (or left). The round's promise barrier is the
    set of members whose acknowledgement is still unresolved. */
module CoordinatedQueue {
  import opened Common
  import opened Presence
  import opened LeaderElection

  datatype QueueEntry<T> = QueueEntry(timestamp: int, nonce: string, data: T)

  /** Messages handed to the transport. */
  datatype QueueMessage<T> =
    | MsgOut(ack: string, item: QueueEntry<T>)        // coordinated:msg
    | AckOut(ack: string, member: string)             // coordinated:ack
    | WelcomeOut(nextQueueItem: Option<QueueEntry<T>>) // coordinated:welcome

  /** The `message` event: the item, its sender and the token its `ack`
      callback will acknowledge. */
  datatype QueueEvent<T> = Message(src: string, ackToken: string, data: QueueEntry<T>)

  /** Which members stay pending after an acknowledgement from `member`
      carrying `token`: only a current-token ack from a member holding a
      slot resolves anything, and then just that member. */
  function AckOutcome(unresolved: set<string>, slots: set<string>, current: string,
                      token: string, member: string): (r: set<string>)
    ensures r <= unresolved
    ensures r == unresolved <==> token != current || member !in slots || member !in unresolved
    ensures forall m :: m in unresolved && m != member ==> m in r
  {
    if token == current && member in slots then unresolved - {member} else unresolved
  }

  /** The pending members after a run of acknowledgements within one round. */
  function AcksOutcome(unresolved: set<string>, slots: set<string>, current: string,
                       acks: seq<(string, string)>): (r: set<string>)
    ensures r <= unresolved
  {
    if acks == [] then unresolved
    else AcksOutcome(AckOutcome(unresolved, slots, current, acks[0].0, acks[0].1), slots, current, acks[1..])
  }

  /** Acknowledgements that all carry another token change nothing. */
  lemma {:induction false} StaleAcksIgnored(unresolved: set<string>, slots: set<string>, current: string,
                                            acks: seq<(string, string)>)
    requires forall i :: 0 <= i < |acks| ==> acks[i].0 != current
    ensures AcksOutcome(unresolved, slots, current, acks) == unresolved
  {
    if acks != [] {
      StaleAcksIgnored(unresolved, slots, current, acks[1..]);
    }
  }

  /** The barrier opens once every slot holder has acknowledged with the
      current token, in any order and among any other messages. */
  lemma {:induction false} AcksDrain(unresolved: set<string>, slots: set<string>, current: string,
                                     acks: seq<(string, string)>)
    requires unresolved <= slots
    requires forall m :: m in unresolved ==> (current, m) in acks
    ensures AcksOutcome(unresolved, slots, current, acks) == {}
  {
    if acks != [] {
      var next := AckOutcome(unresolved, slots, current, acks[0].0, acks[0].1);
      forall m | m in next
        ensures (current, m) in acks[1..]
      {
        assert (current, m) in acks && (current, m) != acks[0];
        var i :| 0 <= i < |acks| && acks[i] == (current, m);
        assert acks[1..][i - 1] == (current, m);
      }
      AcksDrain(next, slots, current, acks[1..]);
    }
  }

  /** Without an acknowledgement from a pending member the barrier stays
      closed. */
  lemma {:induction false} AcksMissingMember(unresolved: set<string>, slots: set<string>, current: string,
                                             acks: seq<(string, string)>, m: string)
    requires m in unresolved
    requires forall i :: 0 <= i < |acks| ==> acks[i].1 != m
    ensures m in AcksOutcome(unresolved, slots, current, acks)
  {
    if acks != [] {
      AcksMissingMember(AckOutcome(unresolved, slots, current, acks[0].0, acks[0].1), slots, current, acks[1..], m);
    }
  }

  class CoordinatedQueueClient<D(==), T> {
    const election: LeaderElectionClient<D>
    var queue: seq<QueueEntry<T>>
    /** The keys of `_waitForAckResolveCalls`: one slot per member of the
        current round. */
    var slots: set<string>
    /** The slot holders whose promise is not yet resolved. */
    var unresolved: set<string>
    var currentAckToken: string
    var isProcessing: bool
    /** Whether the transport and election subscriptions are active. */
    var active: bool

    /** Pending members hold slots, and between rounds nothing is pending. */
    ghost predicate Valid()
      reads this
    {
      unresolved <= slots && (!isProcessing ==> unresolved == {})
    }

    constructor (election: LeaderElectionClient<D>, initialAckToken: string)
      ensures Valid() && this.election == election
      ensures queue == [] && slots == {} && unresolved == {} && currentAckToken == initialAckToken
      ensures !isProcessing && active
    {
      this.election := election;
      queue := [];
      slots := {};
      unresolved := {};
      currentAckToken := initialAckToken;
      isProcessing := false;
      active := true;
    }

    /** What `_maybeProcessNextQueueItem` did, from queue `q0` and the other
        old values given: nothing without a leader, while a round is in
        flight, or on an empty queue; otherwise the front item is removed,
        a fresh round gives every current participant an unresolved slot,
        and only the leader mints the token and broadcasts the item. */
    ghost predicate MaybeProcessed(q0: seq<QueueEntry<T>>, wasProcessing: bool, slots0: set<string>,
                                   unresolved0: set<string>, token0: string, freshToken: string,
                                   sent: seq<QueueMessage<T>>)
      reads this, election, election.presence
    {
      if !election.HasLeader() || wasProcessing || q0 == [] then
        && queue == q0 && isProcessing == wasProcessing && slots == slots0 && unresolved == unresolved0
        && currentAckToken == token0 && sent == []
      else
        && queue == q0[1..] && isProcessing
        && slots == (set i | 0 <= i < |election.presence.participants| :: election.presence.participants[i].src)
        && unresolved == slots
        && if election.IsLeader() then currentAckToken == freshToken && sent == [MsgOut(freshToken, q0[0])]
           else currentAckToken == token0 && sent == []
    }

    /** `freshToken` stands for the `crypto.randomUUID()` a leader mints. */
    method MaybeProcessNextQueueItem(freshToken: string) returns (sent: seq<QueueMessage<T>>)
      requires Valid() && freshToken != currentAckToken
      modifies this`queue, this`slots, this`unresolved, this`currentAckToken, this`isProcessing
      ensures Valid()
      ensures MaybeProcessed(old(queue), old(isProcessing), old(slots), old(unresolved), old(currentAckToken), freshToken, sent)
    {
      sent := [];
      if !election.HasLeader() || isProcessing || queue == [] {
        return;
      }
      var item := queue[0];
      queue := queue[1..];
      isProcessing := true;
      var ps := election.presence.participants;
      var table: set<string> := {};
      var i := 0;
      while i < |ps|
        invariant 0 <= i <= |ps|
        invariant table == set j | 0 <= j < i :: ps[j].src
      {
        table := table + {ps[i].src};
        i := i + 1;
      }
      slots := table;
      unresolved := table;
      if election.IsLeader() {
        currentAckToken := freshToken;
        sent := [MsgOut(freshToken, item)];
      }
    }

    /** `enqueue`: append exactly one entry at the tail, then try to start a
        round. */
    method Enqueue(timestamp: int, nonce: string, data: T, freshToken: string) returns (sent: seq<QueueMessage<T>>)
      requires Valid() && freshToken != currentAckToken
      modifies this`queue, this`slots, this`unresolved, this`currentAckToken, this`isProcessing
      ensures Valid()
      ensures MaybeProcessed(old(queue) + [QueueEntry(timestamp, nonce, data)], old(isProcessing), old(slots),
                             old(unresolved), old(currentAckToken), freshToken, sent)
    {
      queue := queue + [QueueEntry(timestamp, nonce, data)];
      sent := MaybeProcessNextQueueItem(freshToken);
    }

    /** `coordinated:ack`: an ack with another token, or from a member with
        no slot, is dropped; otherwise that member is resolved and a round
        is tried. */
    method OnAckEvent(ackToken: string, member: string, freshToken: string) returns (sent: seq<QueueMessage<T>>)
      requires Valid() && freshToken != currentAckToken
      modifies this`queue, this`slots, this`unresolved, this`currentAckToken, this`isProcessing
      ensures Valid()
      ensures ackToken != old(currentAckToken) || member !in old(slots) ==>
        unchanged(this) && sent == []
      ensures ackToken == old(currentAckToken) && member in old(slots) ==>
        MaybeProcessed(old(queue), old(isProcessing), old(slots),
                       AckOutcome(old(unresolved), old(slots), old(currentAckToken), ackToken, member),
                       old(currentAckToken), freshToken, sent)
    {
      sent := [];
      if ackToken != currentAckToken {
        return;
      }
      if member !in slots {
        return;
      }
      unresolved := unresolved - {member};
      sent := MaybeProcessNextQueueItem(freshToken);
    }

    /** Presence `change`: every slot holder no longer present is resolved
        and loses its slot; present ones are untouched. Then a round is
        tried. */
    method OnPresenceChange(freshToken: string) returns (sent: seq<QueueMessage<T>>)
      requires Valid() && freshToken != currentAckToken
      modifies this`queue, this`slots, this`unresolved, this`currentAckToken, this`isProcessing
      ensures Valid()
      ensures var present := set i | 0 <= i < |election.presence.participants| :: election.presence.participants[i].src;
        MaybeProcessed(old(queue), old(isProcessing), old(slots) * present, old(unresolved) * present,
                       old(currentAckToken), freshToken, sent)
    {
      var ps := election.presence.participants;
      var present := set i | 0 <= i < |ps| :: ps[i].src;
      ghost var slots0, unresolved0 := slots, unresolved;
      var table, pending := slots, unresolved;
      var members := slots;
      while members != {}
        invariant members <= slots0
        invariant table == slots0 - ((slots0 - members) - present)
        invariant pending == unresolved0 - ((slots0 - members) - present)
        decreases members
      {
        var m :| m in members;
        if m !in present {
          pending := pending - {m};
          table := table - {m};
        }
        members := members - {m};
      }
      slots, unresolved := table, pending;
      sent := MaybeProcessNextQueueItem(freshToken);
    }

    /** `leaderStateChanged`: on becoming leader every pending member is
        resolved; in either case a round is tried. */
    method OnLeaderChanged(isLeader: bool, freshToken: string) returns (sent: seq<QueueMessage<T>>)
      requires Valid() && freshToken != currentAckToken
      modifies this`queue, this`slots, this`unresolved, this`currentAckToken, this`isProcessing
      ensures Valid()
      ensures MaybeProcessed(old(queue), old(isProcessing), old(slots), if isLeader then {} else old(unresolved),
                             old(currentAckToken), freshToken, sent)
    {
      if isLeader {
        unresolved := {};
      }
      sent := MaybeProcessNextQueueItem(freshToken);
    }

    /** Presence `join`: the leader tells newcomers the next queued item. */
    method OnJoin() returns (sent: seq<QueueMessage<T>>)
      ensures !election.IsLeader() ==> sent == []
      ensures election.IsLeader() ==> sent == [WelcomeOut(if queue == [] then None else Some(queue[0]))]
    {
      if !election.IsLeader() {
        return [];
      }
      sent := [WelcomeOut(if queue == [] then None else Some(queue[0]))];
    }

    /** `coordinated:msg`: adopt the message's token as current and hand the
        item to listeners. */
    method OnMsgEvent(src: string, ackToken: string, data: QueueEntry<T>) returns (emitted: seq<QueueEvent<T>>)
      modifies this`currentAckToken
      ensures currentAckToken == ackToken
      ensures emitted == [Message(src, ackToken, data)]
    {
      currentAckToken := ackToken;
      emitted := [Message(src, ackToken, data)];
    }

    /** A listener calls the `ack` callback of a `message` event carrying
        `ackToken`: the acknowledgement names this process as member. */
    method AckMessage(ackToken: string) returns (sent: seq<QueueMessage<T>>)
      ensures sent == [AckOut(ackToken, election.presence.uuid)]
    {
      sent := [AckOut(ackToken, election.presence.uuid)];
    }

    /** The round's barrier has opened (every slot resolved): the round ends
        and the next one is scheduled iff items remain. */
    method AllAcksSettled() returns (scheduleNext: bool)
      requires Valid() && isProcessing && unresolved == {}
      modifies this`isProcessing
      ensures Valid() && !isProcessing
      ensures scheduleNext <==> queue != []
    {
      isProcessing := false;
      scheduleNext := queue != [];
    }

    /** Disposal: unsubscribe, drop the queued items, resolve every pending
        member, let the open round finish (nothing is left to schedule), and
        dispose the election client. */
    method Dispose() returns (presenceSent: seq<PresenceMessage<D>>, electionEmitted: seq<ElectionEvent>)
      requires Valid() && election.presence.Valid()
      modifies this`queue, this`unresolved, this`isProcessing, this`active
      modifies election`leader, election`leaderTimerArmed, election`active, election.presence
      ensures Valid() && queue == [] && unresolved == {} && !isProcessing && !active
      ensures election.leader.None? && !election.active
      ensures electionEmitted == if old(election.leader) == Some(election.presence.uuid) then [LeaderStateChanged(false)] else []
    {
      active := false;
      queue := [];
      unresolved := {};
      isProcessing := false;
      presenceSent, electionEmitted := election.Dispose();
    }
  }

  /** While a round is in flight, an ack changes only the pending set, and
      exactly as `AckOutcome` says: no item is popped and no token changes
      before the barrier opens. */
  lemma AckDuringRound<D, T>(c: CoordinatedQueueClient<D, T>, q0: seq<QueueEntry<T>>, slots0: set<string>,
                             unresolved0: set<string>, token0: string, ackToken: string, member: string,
                             freshToken: string, sent: seq<QueueMessage<T>>)
    requires c.MaybeProcessed(q0, true, slots0, AckOutcome(unresolved0, slots0, token0, ackToken, member),
                              token0, freshToken, sent)
    ensures c.queue == q0 && c.isProcessing && c.slots == slots0 && c.currentAckToken == token0 && sent == []
    ensures c.unresolved == AckOutcome(unresolved0, slots0, token0, ackToken, member)
  {
  }
}

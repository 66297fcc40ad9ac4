/** The processing coordinator: on every `leaderStateChanged` it tears down
    the current replication role and installs a fresh leader or follower
    role, so that at most one role of this process is ever active. */
module ProcessingCoordinator {
  import opened Common
  import opened Presence
  import opened LeaderElection
  import opened IndexedQueue
  import opened Replication

  datatype Role<T> = LeaderRole(leader: SharedTrackerLeader<T>) | FollowerRole(follower: SharedTrackerFollower<T>)

  /** The steps of disposal, in the order they happen. */
  datatype DisposeStep = Unsubscribe | DisposeRole | DisposeElection | DisposeTracker

  function RoleObjects<T>(r: Option<Role<T>>): set<object>
  {
    match r
    case None => {}
    case Some(LeaderRole(l)) => {l}
    case Some(FollowerRole(f)) => {f}
  }

  class IndexedQueueProcessingCoordinator<T> {
    const tracker: IndexedQueueTracker<T>
    const election: LeaderElectionClient<SharedState>
    /** `_trackerImpl`. */
    var trackerImpl: Option<Role<T>>
    var subscribed: bool
    /** Every role this coordinator created and has since disposed. */
    ghost var retiredLeaders: set<SharedTrackerLeader<T>>
    ghost var retiredFollowers: set<SharedTrackerFollower<T>>

    /** Every retired role has quit, the current one is not retired, and
        all roles share the coordinator's tracker and election client. */
    ghost predicate Valid()
      reads this, retiredLeaders, retiredFollowers, RoleObjects(trackerImpl)
    {
      && (forall l :: l in retiredLeaders ==> l.quit)
      && (forall f :: f in retiredFollowers ==> f.quit)
      && match trackerImpl
         case None => true
         case Some(LeaderRole(l)) => l !in retiredLeaders && l.tracker == tracker && l.election == election
         case Some(FollowerRole(f)) => f !in retiredFollowers && f.tracker == tracker && f.election == election
    }

    constructor (tracker: IndexedQueueTracker<T>, election: LeaderElectionClient<SharedState>)
      ensures Valid() && this.tracker == tracker && this.election == election
      ensures trackerImpl.None? && subscribed && retiredLeaders == {} && retiredFollowers == {}
    {
      this.tracker := tracker;
      this.election := election;
      trackerImpl := None;
      subscribed := true;
      retiredLeaders := {};
      retiredFollowers := {};
    }

    /** Dispose the current role, if any, and clear the slot. */
    method RetireRole()
      requires Valid()
      modifies this`trackerImpl, this`retiredLeaders, this`retiredFollowers, RoleObjects(trackerImpl)
      ensures Valid() && trackerImpl.None?
      ensures match old(trackerImpl)
              case None => retiredLeaders == old(retiredLeaders) && retiredFollowers == old(retiredFollowers)
              case Some(LeaderRole(l)) => l.quit && retiredLeaders == old(retiredLeaders) + {l} && retiredFollowers == old(retiredFollowers)
              case Some(FollowerRole(f)) => f.quit && retiredFollowers == old(retiredFollowers) + {f} && retiredLeaders == old(retiredLeaders)
    {
      match trackerImpl {
        case None =>
        case Some(LeaderRole(l)) =>
          l.Dispose();
          retiredLeaders := retiredLeaders + {l};
        case Some(FollowerRole(f)) =>
          f.Dispose();
          retiredFollowers := retiredFollowers + {f};
      }
      trackerImpl := None;
    }

    /** `_onLeaderStateChanged`: the previous role is disposed and cleared
        before a new one is created; the new role is a leader role iff
        `isLeader`, and it runs its first pass at once, whose outcome is
        that role's `Stepped` from a fresh role's flags (`storageItems` is
        what storage returns should a follower need to backfill). */
    method OnLeaderStateChanged(isLeader: bool, storageItems: seq<T>)
      returns (outcome: StepOutcome<T>, scheduleNext: bool)
      requires Valid()
      modifies this`trackerImpl, this`retiredLeaders, this`retiredFollowers, RoleObjects(trackerImpl)
      modifies tracker`queue, election`localState
      ensures Valid()
      ensures trackerImpl.Some? && (trackerImpl.value.LeaderRole? <==> isLeader)
      ensures fresh(RoleObjects(trackerImpl))
      ensures forall o :: o in RoleObjects(old(trackerImpl)) ==> o in retiredLeaders || o in retiredFollowers
      ensures isLeader ==> !scheduleNext
      ensures match trackerImpl.value
              case LeaderRole(l) =>
                if Aligned(false, old(election.localState), election.presence.participants) then
                  l.Stepped(false, false, old(tracker.queue), old(election.localState), outcome)
                else
                  outcome == Skipped && tracker.queue == old(tracker.queue) && election.localState == old(election.localState)
              case FollowerRole(f) =>
                f.Stepped(false, false, old(tracker.queue), old(election.localState), storageItems, outcome, scheduleNext)
    {
      RetireRole();
      if isLeader {
        var l := new SharedTrackerLeader(tracker, election);
        trackerImpl := Some(LeaderRole(l));
        outcome := l.OnQueueOrPresenceChange();
        scheduleNext := false;
      } else {
        var f := new SharedTrackerFollower(tracker, election);
        trackerImpl := Some(FollowerRole(f));
        outcome, scheduleNext := f.OnPresenceChange(storageItems);
      }
    }

    /** Disposal: unsubscribe, dispose the role if there is one, then the
        election client, then the tracker. The role slot is not cleared. */
    method Dispose() returns (steps: seq<DisposeStep>, presenceSent: seq<PresenceMessage<SharedState>>)
      requires Valid() && election.presence.Valid()
      modifies this`subscribed, this`retiredLeaders, this`retiredFollowers, RoleObjects(trackerImpl)
      modifies election`leader, election`leaderTimerArmed, election`active, election.presence, tracker
      ensures !subscribed && trackerImpl == old(trackerImpl)
      ensures forall o :: o in RoleObjects(trackerImpl) ==> o in retiredLeaders || o in retiredFollowers
      ensures steps == [Unsubscribe] + (if old(trackerImpl).Some? then [DisposeRole] else []) + [DisposeElection, DisposeTracker]
      ensures election.leader.None? && !election.active && tracker.queue == [] && !tracker.subscribed
      ensures forall l :: l in retiredLeaders ==> l.quit
      ensures forall f :: f in retiredFollowers ==> f.quit
      ensures match trackerImpl
              case None => true
              case Some(LeaderRole(l)) => l.quit
              case Some(FollowerRole(f)) => f.quit
    {
      subscribed := false;
      steps := [Unsubscribe];
      match trackerImpl {
        case None =>
        case Some(LeaderRole(l)) =>
          l.Dispose();
          retiredLeaders := retiredLeaders + {l};
          steps := steps + [DisposeRole];
        case Some(FollowerRole(f)) =>
          f.Dispose();
          retiredFollowers := retiredFollowers + {f};
          steps := steps + [DisposeRole];
      }
      var electionEmitted;
      presenceSent, electionEmitted := election.Dispose();
      steps := steps + [DisposeElection];
      tracker.Dispose();
      steps := steps + [DisposeTracker];
    }
  }
}

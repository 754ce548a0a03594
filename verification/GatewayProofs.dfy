/**
 The gateway's invariants survive every step, and what follows about every run.
*/
module GatewayProofs {
  import opened Wrappers
  import opened LeaseTable
  import opened GatewayMachine

  // ----- one lease replaced

  lemma OpenAt(leases: map<string, Lease>, posts: multiset<Guard>, streams: multiset<string>, busy: set<string>, id: string)
    requires OpenInv(leases, posts, streams, busy) && id in leases
    ensures leases[id].everActive <==> id in busy
    ensures leases[id].inFlight == posts[Guard(id, true)] + posts[Guard(id, false)]
    ensures leases[id].sse == streams[id]
  {
  }

  lemma OpenReplaced(leases: map<string, Lease>, posts: multiset<Guard>, streams: multiset<string>, busy: set<string>,
                     id: string, l: Lease, newPosts: multiset<Guard>, newStreams: multiset<string>, newBusy: set<string>)
    requires OpenInv(leases, posts, streams, busy)
    requires newBusy - {id} == busy - {id} && (l.everActive <==> id in newBusy)
    requires l.inFlight == newPosts[Guard(id, true)] + newPosts[Guard(id, false)] && l.sse == newStreams[id]
    requires forall g: Guard :: g.id != id ==> newPosts[g] == posts[g]
    requires forall other: string :: other != id ==> newStreams[other] == streams[other]
    ensures OpenInv(leases[id := l], newPosts, newStreams, newBusy)
  {
    forall other: string | other != id ensures other in newBusy <==> other in busy {
      assert other in newBusy - {id} <==> other in busy - {id};
    }
  }

  lemma JobAt(leases: map<string, Lease>, jobs: map<string, Job>, dispatched: multiset<string>, id: string)
    requires JobInv(leases, jobs, dispatched)
    ensures dispatched[id] <= 1
    ensures id in jobs ==> dispatched[id] == if jobs[id] == Claimed then 0 else 1
    ensures id in leases ==> (leases[id].state == Expiring <==> id in jobs)
    ensures id in leases && leases[id].state != Active ==> leases[id].inFlight == 0
    ensures id in leases && leases[id].state == Active ==> dispatched[id] == 0
  {
  }

  lemma JobReplaced(leases: map<string, Lease>, jobs: map<string, Job>, dispatched: multiset<string>,
                    id: string, l: Lease, newJobs: map<string, Job>)
    requires JobInv(leases, jobs, dispatched)
    requires newJobs - {id} == jobs - {id}
    requires id in newJobs ==> dispatched[id] == if newJobs[id] == Claimed then 0 else 1
    requires l.state == Expiring <==> id in newJobs
    requires l.state != Active ==> l.inFlight == 0
    requires l.state == Active ==> dispatched[id] == 0
    ensures JobInv(leases[id := l], newJobs, dispatched)
  {
    forall other | other in newJobs && other != id ensures other in jobs && jobs[other] == newJobs[other] {
      assert other in newJobs - {id};
    }
    forall other | other in jobs && other != id ensures other in newJobs {
      assert other in jobs - {id};
    }
  }

  // Ending the job of a lease that is no longer there, or losing leases, promises less.
  lemma JobShrinks(leases: map<string, Lease>, jobs: map<string, Job>, dispatched: multiset<string>,
                   fewer: map<string, Lease>, fewerJobs: map<string, Job>)
    requires JobInv(leases, jobs, dispatched)
    requires forall id <- fewer :: id in leases && fewer[id] == leases[id]
    requires forall id <- fewerJobs :: id in jobs && fewerJobs[id] == jobs[id]
    requires forall id <- fewer :: id in jobs ==> id in fewerJobs
    ensures JobInv(fewer, fewerJobs, dispatched)
  {
  }

  lemma OpenShrinks(leases: map<string, Lease>, posts: multiset<Guard>, streams: multiset<string>, busy: set<string>,
                    fewer: map<string, Lease>)
    requires OpenInv(leases, posts, streams, busy)
    requires forall id <- fewer :: id in leases && fewer[id] == leases[id]
    ensures OpenInv(fewer, posts, streams, busy)
  {
  }

  lemma OpenElsewhere(leases: map<string, Lease>, posts: multiset<Guard>, streams: multiset<string>, busy: set<string>,
                      id: string, newPosts: multiset<Guard>, newStreams: multiset<string>)
    requires OpenInv(leases, posts, streams, busy) && id !in leases
    requires forall g: Guard :: g.id != id ==> newPosts[g] == posts[g]
    requires forall other: string :: other != id ==> newStreams[other] == streams[other]
    ensures OpenInv(leases, newPosts, newStreams, busy)
  {
  }

  // ----- each step keeps the invariants

  lemma TickKeeps(s: State, d: nat)
    requires Inv(s)
    ensures Inv(Tick(s, d))
  {
    hide TableInv, InitInv, OpenInv, JobInv;
    ClockKeeps(s.t, s.clock, s.clock + d);
  }

  lemma InitReserveKeeps(s: State)
    requires Inv(s)
    ensures Inv(InitReserve(s))
  {
    hide TableInv, OpenInv, JobInv;
    ReserveKeeps(s.t, s.clock);
  }

  lemma InitRefusedKeeps(s: State, token: nat)
    requires Inv(s)
    ensures Inv(InitRefused(s, token))
  {
    hide TableInv, OpenInv, JobInv;
    ReleaseKeeps(s.t, token, s.clock);
  }

  lemma InitAmbiguousKeeps(s: State, token: nat)
    requires Inv(s)
    ensures Inv(InitAmbiguous(s, token))
  {
    hide TableInv, OpenInv, JobInv;
  }

  lemma InitAnsweredKeeps(s: State, token: nat, id: string)
    requires Inv(s)
    ensures Inv(InitAnswered(s, token, id))
  {
    hide TableInv, OpenInv, JobInv;
    if Undecided(s, token) && !Retired(s, id) {
      if CommitOutcome(s.t, token, id) != NoError {
        InitAmbiguousKeeps(s, token);
      } else {
        CommitKeeps(s.t, token, id, s.clock);
        NothingNamesIt(s, id);
        OpenReplaced(s.t.leases, s.posts, s.streams, s.busyIds, id, Fresh(s.clock), s.posts, s.streams, s.busyIds);
        JobReplaced(s.t.leases, s.jobs, s.dispatched, id, Fresh(s.clock), s.jobs);
      }
    }
  }

  lemma NothingNamesIt(s: State, id: string)
    requires NamedInv(s) && id !in s.everIds
    ensures s.posts[Guard(id, true)] == s.posts[Guard(id, false)] == s.streams[id] == s.dispatched[id] == 0
    ensures id !in s.jobs && id !in s.busyIds
  {
    assert Guard(id, true) !in s.posts && Guard(id, false) !in s.posts && id !in s.streams && id !in s.dispatched;
  }

  lemma PostBeginKeeps(s: State, id: string, activity: bool)
    requires Inv(s)
    ensures Inv(PostBegin(s, id, activity))
  {
    hide TableInv, InitInv, OpenInv, JobInv;
    if IsActive(s.t, id) {
      var u := PostBegin(s, id, activity);
      RequestsKeep(s.t, id, activity, s.clock);
      OpenAt(s.t.leases, s.posts, s.streams, s.busyIds, id);
      OpenReplaced(s.t.leases, s.posts, s.streams, s.busyIds, id, u.t.leases[id], u.posts, s.streams, u.busyIds);
      JobAt(s.t.leases, s.jobs, s.dispatched, id);
      JobReplaced(s.t.leases, s.jobs, s.dispatched, id, u.t.leases[id], s.jobs);
    }
  }

  lemma PostEndKeeps(s: State, g: Guard)
    requires Inv(s)
    ensures Inv(PostEnd(s, g))
  {
    hide TableInv, InitInv, OpenInv, JobInv;
    if g in s.posts {
      var u := PostEnd(s, g);
      RequestsKeep(s.t, g.id, g.activity, s.clock);
      if g.id in s.t.leases {
        OpenAt(s.t.leases, s.posts, s.streams, s.busyIds, g.id);
        OpenReplaced(s.t.leases, s.posts, s.streams, s.busyIds, g.id, u.t.leases[g.id], u.posts, s.streams, u.busyIds);
        JobAt(s.t.leases, s.jobs, s.dispatched, g.id);
        JobReplaced(s.t.leases, s.jobs, s.dispatched, g.id, u.t.leases[g.id], s.jobs);
      } else {
        OpenElsewhere(s.t.leases, s.posts, s.streams, s.busyIds, g.id, u.posts, s.streams);
      }
    }
  }

  lemma StreamBeginKeeps(s: State, id: string)
    requires Inv(s)
    ensures Inv(StreamBegin(s, id))
  {
    hide TableInv, InitInv, OpenInv, JobInv;
    if IsActive(s.t, id) {
      var u := StreamBegin(s, id);
      RequestsKeep(s.t, id, false, s.clock);
      OpenAt(s.t.leases, s.posts, s.streams, s.busyIds, id);
      OpenReplaced(s.t.leases, s.posts, s.streams, s.busyIds, id, u.t.leases[id], s.posts, u.streams, s.busyIds);
      JobAt(s.t.leases, s.jobs, s.dispatched, id);
      JobReplaced(s.t.leases, s.jobs, s.dispatched, id, u.t.leases[id], s.jobs);
    }
  }

  lemma StreamEndKeeps(s: State, id: string)
    requires Inv(s)
    ensures Inv(StreamEnd(s, id))
  {
    hide TableInv, InitInv, OpenInv, JobInv;
    if id in s.streams {
      var u := StreamEnd(s, id);
      RequestsKeep(s.t, id, false, s.clock);
      if id in s.t.leases {
        OpenAt(s.t.leases, s.posts, s.streams, s.busyIds, id);
        OpenReplaced(s.t.leases, s.posts, s.streams, s.busyIds, id, u.t.leases[id], s.posts, u.streams, s.busyIds);
        JobAt(s.t.leases, s.jobs, s.dispatched, id);
        JobReplaced(s.t.leases, s.jobs, s.dispatched, id, u.t.leases[id], s.jobs);
      } else {
        OpenElsewhere(s.t.leases, s.posts, s.streams, s.busyIds, id, s.posts, u.streams);
      }
    }
  }

  // A change of state, with the job that goes with it.
  lemma StateChangeKeeps(s: State, id: string, l: Lease, newJobs: map<string, Job>)
    requires OpenInv(s.t.leases, s.posts, s.streams, s.busyIds) && JobInv(s.t.leases, s.jobs, s.dispatched)
    requires id in s.t.leases && l.inFlight == s.t.leases[id].inFlight && l.sse == s.t.leases[id].sse
    requires l.everActive == s.t.leases[id].everActive
    requires newJobs - {id} == s.jobs - {id}
    requires id in newJobs ==> s.dispatched[id] == if newJobs[id] == Claimed then 0 else 1
    requires l.state == Expiring <==> id in newJobs
    requires l.state != Active ==> l.inFlight == 0
    requires l.state == Active ==> s.dispatched[id] == 0
    ensures OpenInv(s.t.leases[id := l], s.posts, s.streams, s.busyIds)
    ensures JobInv(s.t.leases[id := l], newJobs, s.dispatched)
  {
    hide OpenInv, JobInv;
    OpenAt(s.t.leases, s.posts, s.streams, s.busyIds, id);
    OpenReplaced(s.t.leases, s.posts, s.streams, s.busyIds, id, l, s.posts, s.streams, s.busyIds);
    JobReplaced(s.t.leases, s.jobs, s.dispatched, id, l, newJobs);
  }

  lemma ClientDeleteKeeps(s: State, id: string)
    requires Inv(s)
    ensures Inv(ClientDelete(s, id))
  {
    hide TableInv, InitInv, OpenInv, JobInv;
    if Claimable(s.t, id) {
      var u := ClientDelete(s, id);
      StatesKeep(s.t, id, "client_delete", s.clock);
      JobAt(s.t.leases, s.jobs, s.dispatched, id);
      StateChangeKeeps(s, id, u.t.leases[id], u.jobs);
    }
  }

  lemma JobsClaimed(leases: map<string, Lease>, jobs: map<string, Job>, dispatched: multiset<string>,
                    claimed: set<string>, newLeases: map<string, Lease>)
    requires JobInv(leases, jobs, dispatched) && newLeases.Keys == leases.Keys && claimed <= leases.Keys
    requires forall id <- claimed :: leases[id].state == Active && leases[id].inFlight == 0
    requires forall id <- claimed :: newLeases[id].state == Expiring && newLeases[id].inFlight == 0
    requires forall id <- leases :: id !in claimed ==> newLeases[id] == leases[id]
    ensures JobInv(newLeases, jobs + map id | id in claimed :: Claimed, dispatched)
  {
  }

  lemma ClaimedLeases(t: Table, now: int)
    ensures var leases := ExpireEligible(t, now).leases;
            && leases.Keys == t.leases.Keys && Eligible(t, now) <= t.leases.Keys
            && (forall id <- t.leases :: leases[id].inFlight == t.leases[id].inFlight && leases[id].sse == t.leases[id].sse)
            && (forall id <- t.leases :: leases[id].everActive == t.leases[id].everActive)
            && (forall id <- Eligible(t, now) ::
                  t.leases[id].state == Active && t.leases[id].inFlight == 0 && leases[id].state == Expiring)
            && (forall id <- t.leases :: id !in Eligible(t, now) ==> leases[id] == t.leases[id])
  {
  }

  lemma OpenClaimed(leases: map<string, Lease>, posts: multiset<Guard>, streams: multiset<string>, busy: set<string>,
                    newLeases: map<string, Lease>)
    requires OpenInv(leases, posts, streams, busy) && newLeases.Keys == leases.Keys
    requires forall id <- leases :: newLeases[id].everActive == leases[id].everActive
    requires forall id <- leases :: newLeases[id].inFlight == leases[id].inFlight && newLeases[id].sse == leases[id].sse
    ensures OpenInv(newLeases, posts, streams, busy)
  {
  }

  lemma PruneClaimKeeps(s: State)
    requires Inv(s)
    ensures Inv(PruneClaim(s))
  {
    hide TableInv, InitInv, JobInv, OpenInv;
    ExpireKeeps(s.t, s.clock);
    var u := PruneClaim(s);
    ClaimedLeases(s.t, s.clock);
    OpenClaimed(s.t.leases, s.posts, s.streams, s.busyIds, u.t.leases);
    JobsClaimed(s.t.leases, s.jobs, s.dispatched, Eligible(s.t, s.clock), u.t.leases);
  }

  lemma JobRefusedKeeps(s: State, id: string)
    requires Inv(s)
    ensures Inv(JobRefused(s, id))
  {
    hide TableInv, InitInv, OpenInv, JobInv;
    if HasJob(s, id, Claimed) {
      var u := JobRefused(s, id);
      StatesKeep(s.t, id, "", s.clock);
      JobAt(s.t.leases, s.jobs, s.dispatched, id);
      if id in s.t.leases {
        StateChangeKeeps(s, id, u.t.leases[id], u.jobs);
      } else {
        JobShrinks(s.t.leases, s.jobs, s.dispatched, s.t.leases, u.jobs);
      }
    }
  }

  // The two ways a job ends in quarantine.
  lemma JobQuarantineKeeps(s: State, id: string, reason: string)
    requires Inv(s) && id in s.jobs
    ensures Inv(s.(t := MarkCleanupUncertain(s.t, id, reason, s.clock), jobs := s.jobs - {id}))
  {
    hide TableInv, InitInv, OpenInv, JobInv;
    var u := s.(t := MarkCleanupUncertain(s.t, id, reason, s.clock), jobs := s.jobs - {id});
    StatesKeep(s.t, id, reason, s.clock);
    JobAt(s.t.leases, s.jobs, s.dispatched, id);
    if id in s.t.leases {
      StateChangeKeeps(s, id, u.t.leases[id], u.jobs);
    } else {
      JobShrinks(s.t.leases, s.jobs, s.dispatched, s.t.leases, u.jobs);
    }
  }

  lemma JobDispatchKeeps(s: State, id: string)
    requires Inv(s)
    ensures Inv(JobDispatch(s, id))
  {
    hide TableInv, InitInv, OpenInv;
  }

  lemma JobProvedKeeps(s: State, id: string)
    requires Inv(s)
    ensures Inv(JobProved(s, id))
  {
    hide TableInv, InitInv, OpenInv, JobInv, FinalizeClose;
    if HasJob(s, id, Dispatched) {
      var u := JobProved(s, id);
      FinalizeKeeps(s.t, id, s.clock);
      if id in s.t.leases {
        OpenShrinks(s.t.leases, s.posts, s.streams, s.busyIds, u.t.leases);
        JobShrinks(s.t.leases, s.jobs, s.dispatched, u.t.leases, u.jobs);
      } else {
        assert u.t.leases == s.t.leases;
        JobShrinks(s.t.leases, s.jobs, s.dispatched, s.t.leases, u.jobs);
      }
    }
  }

  lemma QuarantineCloseKeeps(s: State, order: seq<string>)
    requires Inv(s)
    ensures Inv(QuarantineClose(s, order))
  {
    hide TableInv, InitInv, OpenInv, JobInv, FinalizeEach;
    var overdue := Overdue(s.t, s.clock);
    if Lists(order, overdue) {
      var u := QuarantineClose(s, order);
      FinalizeEachKeeps(s.t, order, s.clock);
      ListsSize(order, overdue);
      assert Named(order) == overdue;
      assert u.t.leases.Keys == s.t.leases.Keys - overdue;
      OpenShrinks(s.t.leases, s.posts, s.streams, s.busyIds, u.t.leases);
      JobShrinks(s.t.leases, s.jobs, s.dispatched, u.t.leases, s.jobs);
    }
  }

  lemma QuarantineSettleKeeps(s: State)
    requires Inv(s)
    ensures Inv(QuarantineSettle(s))
  {
    hide TableInv, InitInv, OpenInv, JobInv;
  }

  lemma InvalidateKeeps(s: State, order: seq<string>, reason: string)
    requires Inv(s)
    ensures Inv(Invalidate(s, order, reason))
  {
    hide TableInv, OpenInv, JobInv, InvalidateAll;
    if Lists(order, s.t.leases.Keys) {
      var u := Invalidate(s, order, reason);
      LeaseTable.InvalidateKeeps(s.t, order, reason, s.clock);
      OpenShrinks(s.t.leases, s.posts, s.streams, s.busyIds, map[]);
      JobShrinks(s.t.leases, s.jobs, s.dispatched, map[], s.jobs);
    }
  }

  lemma StepKeeps(s: State, a: Action)
    requires Inv(s)
    ensures Inv(Step(s, a))
  {
    hide Inv;
    match a
    case ATick(d) => TickKeeps(s, d);
    case AInitReserve => InitReserveKeeps(s);
    case AInitRefused(token) => InitRefusedKeeps(s, token);
    case AInitAmbiguous(token) => InitAmbiguousKeeps(s, token);
    case AInitAnswered(token, id) => InitAnsweredKeeps(s, token, id);
    case APostBegin(id, activity) => PostBeginKeeps(s, id, activity);
    case APostEnd(g) => PostEndKeeps(s, g);
    case AStreamBegin(id) => StreamBeginKeeps(s, id);
    case AStreamEnd(id) => StreamEndKeeps(s, id);
    case AClientDelete(id) => ClientDeleteKeeps(s, id);
    case APruneClaim => PruneClaimKeeps(s);
    case AJobRefused(id) => JobRefusedKeeps(s, id);
    case AJobInvalid(id) =>
      if HasJob(s, id, Claimed) {
        JobQuarantineKeeps(s, id, "cleanup_request_invalid");
      }
    case AJobDispatch(id) => JobDispatchKeeps(s, id);
    case AJobProved(id) => JobProvedKeeps(s, id);
    case AJobUncertain(id, reason) =>
      if HasJob(s, id, Dispatched) {
        JobQuarantineKeeps(s, id, reason);
      }
    case AQuarantineClose(order) => QuarantineCloseKeeps(s, order);
    case AQuarantineSettle => QuarantineSettleKeeps(s);
    case AInvalidate(order, reason) => InvalidateKeeps(s, order, reason);
  }

  lemma {:induction false} RunKeeps(s: State, run: seq<Action>)
    requires Inv(s)
    ensures Inv(Run(s, run))
    decreases |run|
  {
    hide Inv;
    if run != [] {
      StepKeeps(s, run[0]);
      RunKeeps(Step(s, run[0]), run[1..]);
    }
  }

  lemma ReachedKeeps(b: Bounds, run: seq<Action>)
    ensures Inv(Reached(b, run))
  {
    RunKeeps(Init(b), run);
  }

  lemma {:induction false} RunConcat(s: State, first: seq<Action>, second: seq<Action>)
    ensures Run(s, first + second) == Run(Run(s, first), second)
    decreases |first|
  {
    if first == [] {
      assert first + second == second;
    } else {
      assert (first + second)[1..] == first[1..] + second;
      RunConcat(Step(s, first[0]), first[1..], second);
    }
  }

  // ----- cleanup

  // Over the whole life of a lease at most one cleanup DELETE leaves for the backend, whether
  // the client asked for it or the pruner did. From that moment, in every continuation, the
  // lease is closed, or it is expiring or cleanup_uncertain with no POST in flight.
  lemma CleanupIsDispatchedOnce(b: Bounds, run: seq<Action>, more: seq<Action>, id: string)
    requires id in Reached(b, run).dispatched
    ensures var s := Reached(b, run + more);
            && s.dispatched[id] == 1
            && (id in s.t.leases ==>
                  && s.t.leases[id].state != Active && s.t.leases[id].inFlight == 0
                  && Guard(id, true) !in s.posts && Guard(id, false) !in s.posts)
  {
    RunConcat(Init(b), run, more);
    DispatchedStays(Reached(b, run), more, id);
    ReachedKeeps(b, run + more);
    var s := Reached(b, run + more);
    JobAt(s.t.leases, s.jobs, s.dispatched, id);
    if id in s.t.leases {
      OpenAt(s.t.leases, s.posts, s.streams, s.busyIds, id);
    }
  }

  lemma {:induction false} DispatchedStays(s: State, run: seq<Action>, id: string)
    requires id in s.dispatched
    ensures id in Run(s, run).dispatched
    decreases |run|
  {
    if run != [] {
      DispatchedStep(s, run[0], id);
      DispatchedStays(Step(s, run[0]), run[1..], id);
    }
  }

  lemma DispatchedStep(s: State, a: Action, id: string)
    requires id in s.dispatched
    ensures id in Step(s, a).dispatched
  {
  }

  // A lease is expiring exactly as long as its cleanup has an owner.
  lemma ExpiringLeaseHasOneOwner(b: Bounds, run: seq<Action>, id: string)
    requires id in Reached(b, run).t.leases
    ensures Reached(b, run).t.leases[id].state == Expiring <==> id in Reached(b, run).jobs
    ensures id in Reached(b, run).jobs && Reached(b, run).jobs[id] == Claimed ==> id !in Reached(b, run).dispatched
  {
    ReachedKeeps(b, run);
  }

  // ----- admission

  // Reservations and leases together never exceed the maximum, and the reservations are
  // exactly the initializes made since the last InvalidateAll that are undecided or ambiguous.
  lemma CapacityIsNeverExceeded(b: Bounds, run: seq<Action>)
    ensures var s := Reached(b, run);
            && (b.maxSessions > 0 ==> |s.t.reservations| + |s.t.leases| <= b.maxSessions)
            && (forall token :: token in s.t.reservations <==> token in s.inits && s.inits[token].epoch == s.epoch)
  {
    ReachedKeeps(b, run);
    ReachedKeeps(b, []);
    OldInitializes(Init(b), run, 0);
  }

  // Whatever the backend answers after an InvalidateAll to an initialize that was sent before
  // it, and whatever happened in between, no lease comes of it.
  lemma InvalidatedReservationNeverCommits(
    b: Bounds, run: seq<Action>, order: seq<string>, reason: string, more: seq<Action>, token: nat, id: string)
    requires token <= Reached(b, run).t.nextToken
    requires Lists(order, Reached(b, run).t.leases.Keys)
    ensures var s := Reached(b, run + [AInvalidate(order, reason)] + more);
            InitAnswered(s, token, id).t == s.t && InitAnswered(s, token, id).gauge == s.gauge
  {
    hide Inv, InitAnswered, Invalidate;
    var s0, s1 := Reached(b, run), Reached(b, run + [AInvalidate(order, reason)]);
    RunConcat(Init(b), run, [AInvalidate(order, reason)]);
    assert Run(s0, [AInvalidate(order, reason)]) == Step(s0, AInvalidate(order, reason));
    RunConcat(Init(b), run + [AInvalidate(order, reason)], more);
    ReachedKeeps(b, run);
    ReachedKeeps(b, run + [AInvalidate(order, reason)]);
    ReachedKeeps(b, run + [AInvalidate(order, reason)] + more);
    InvalidateAges(s0, order, reason, token);
    OldInitializes(s1, more, token);
    StaleInitialize(Reached(b, run + [AInvalidate(order, reason)] + more), token, id);
  }

  lemma InvalidateAges(s: State, order: seq<string>, reason: string, token: nat)
    requires Inv(s) && token <= s.t.nextToken && Lists(order, s.t.leases.Keys)
    ensures var u := Invalidate(s, order, reason);
            token <= u.t.nextToken && (token in u.inits ==> u.inits[token].epoch < u.epoch)
  {
    LeaseTable.InvalidateKeeps(s.t, order, reason, s.clock);
  }

  lemma StaleInitialize(s: State, token: nat, id: string)
    requires Inv(s) && (token in s.inits ==> s.inits[token].epoch < s.epoch)
    ensures InitAnswered(s, token, id).t == s.t && InitAnswered(s, token, id).gauge == s.gauge
  {
    assert token !in s.t.reservations;
  }

  // An initialize keeps the epoch it was made in, tokens are not reused, and the bounds stay.
  lemma {:induction false} OldInitializes(s: State, run: seq<Action>, token: nat)
    requires Inv(s) && token <= s.t.nextToken
    ensures var u := Run(s, run);
            && u.epoch >= s.epoch && u.t.b == s.t.b
            && (token in u.inits ==> token in s.inits && u.inits[token].epoch == s.inits[token].epoch)
    decreases |run|
  {
    hide Inv;
    if run != [] {
      OldInitializesStep(s, run[0], token);
      StepKeeps(s, run[0]);
      OldInitializes(Step(s, run[0]), run[1..], token);
    }
  }

  lemma OldInitializesStep(s: State, a: Action, token: nat)
    requires Inv(s) && token <= s.t.nextToken
    ensures var u := Step(s, a);
            && token <= u.t.nextToken && u.epoch >= s.epoch && u.t.b == s.t.b
            && (token in u.inits ==> token in s.inits && u.inits[token].epoch == s.inits[token].epoch)
  {
    hide Inv, Step;
    if a.AInitReserve? || a.AInitRefused? || a.AInitAmbiguous? || a.AInitAnswered? {
      InitializeStep(s, a, token);
    } else if a.AQuarantineClose? || a.AInvalidate? {
      ReleaseStep(s, a);
    } else if a.APostBegin? || a.APostEnd? || a.ATick? {
      PostStep(s, a);
    } else if a.AStreamBegin? || a.AStreamEnd? || a.AQuarantineSettle? {
      StreamStep(s, a);
    } else {
      CleanupStep(s, a);
    }
  }

  // Initializes other than a new one stay as they are, or end.
  lemma InitializeStep(s: State, a: Action, token: nat)
    requires token <= s.t.nextToken && (a.AInitReserve? || a.AInitRefused? || a.AInitAmbiguous? || a.AInitAnswered?)
    ensures var u := Step(s, a);
            && token <= u.t.nextToken && u.epoch == s.epoch && u.t.b == s.t.b
            && (token in u.inits ==> token in s.inits && u.inits[token].epoch == s.inits[token].epoch)
  {
  }

  lemma ReleaseStep(s: State, a: Action)
    requires Inv(s) && (a.AQuarantineClose? || a.AInvalidate?)
    ensures var u := Step(s, a);
            u.t.nextToken == s.t.nextToken && u.epoch >= s.epoch && u.t.b == s.t.b && u.inits == s.inits
  {
    hide Inv, FinalizeEach, InvalidateAll;
    TableKept(s);
    if a.AQuarantineClose? {
      FinalizeEachKeeps(s.t, a.order, s.clock);
    } else if Lists(a.order, s.t.leases.Keys) {
      LeaseTable.InvalidateKeeps(s.t, a.order, a.reason, s.clock);
    }
  }

  lemma PostStep(s: State, a: Action)
    requires a.APostBegin? || a.APostEnd? || a.ATick?
    ensures var u := Step(s, a);
            u.t.nextToken == s.t.nextToken && u.epoch == s.epoch && u.t.b == s.t.b && u.inits == s.inits
  {
    hide Touched;
  }

  lemma StreamStep(s: State, a: Action)
    requires a.AStreamBegin? || a.AStreamEnd? || a.AQuarantineSettle?
    ensures var u := Step(s, a);
            u.t.nextToken == s.t.nextToken && u.epoch == s.epoch && u.t.b == s.t.b && u.inits == s.inits
  {
  }

  lemma CleanupStep(s: State, a: Action)
    requires a.AClientDelete? || a.APruneClaim? || a.AJobRefused? || a.AJobInvalid? || a.AJobDispatch? || a.AJobProved? || a.AJobUncertain?
    ensures var u := Step(s, a);
            u.t.nextToken == s.t.nextToken && u.epoch == s.epoch && u.t.b == s.t.b && u.inits == s.inits
  {
    hide RowOf;
  }

  lemma TableKept(s: State)
    requires Inv(s)
    ensures TableInv(s.t, s.clock)
  {
  }

  // ----- accounting

  // The gauge is the number of leases plus the decrements still owed for quarantines that
  // were released; at most that many are outstanding, so it never goes negative.
  lemma GaugeCountsLeases(b: Bounds, run: seq<Action>)
    ensures var s := Reached(b, run); s.gauge == |s.t.leases| + s.owed
  {
    ReachedKeeps(b, run);
  }

  // Every committed lease is open, retained as a closed row, or counted as omitted, and the
  // retained rows are the most recent closures in order, at most a thousand of them.
  lemma CommitsAreConserved(b: Bounds, run: seq<Action>)
    ensures var t := Reached(b, run).t;
            && t.commits == |t.leases| + |t.closed| + t.closedOmitted
            && |t.closed| == (if |t.history| <= 1000 then |t.history| else 1000)
            && t.closed == t.history[|t.history| - |t.closed|..]
  {
    ReachedKeeps(b, run);
  }

  // A running disconnect deadline means that no stream is open and lies at least the grace
  // period after the last activity; a quarantine ends within its bound.
  lemma DeadlinesAreMeant(b: Bounds, run: seq<Action>, id: string)
    requires id in Reached(b, run).t.leases
    ensures var s := Reached(b, run);
            var l := s.t.leases[id];
            && (l.disconnect.Some? ==> s.streams[id] == 0 && l.disconnect.value >= l.lastActivity + b.disconnectGrace)
            && (l.state == CleanupUncertain ==> l.cleanup.Some? && l.cleanup.value <= s.clock + b.cleanupUncertain)
  {
    ReachedKeeps(b, run);
    ReachedKeeps(b, []);
    OldInitializes(Init(b), run, 0);
    TrackedKept(Reached(b, run).t, id, Reached(b, run).clock);
  }

  // The pruner reclaims only what may be reclaimed: no request is in flight, and the lease
  // has been disconnected for the grace period, or handshake-idle for at least the handshake
  // floor, or idle for the configured timeout.
  lemma PrunedLeaseIsIdle(maxSessions: int, idleTimeout: Duration, grace: Duration, run: seq<Action>, id: string)
    requires id in Reached(DeriveBounds(maxSessions, idleTimeout, grace), run).t.leases
    ensures var s := Reached(DeriveBounds(maxSessions, idleTimeout, grace), run);
            var l := s.t.leases[id];
            var reason := ExpiryReason(s.t.b, l, s.clock);
            && (reason != "" ==> Guard(id, true) !in s.posts && Guard(id, false) !in s.posts && s.dispatched[id] == 0)
            && (reason == "client_disconnected" ==> s.streams[id] == 0 && s.clock - l.lastActivity >= grace > 0)
            && (reason == "never_streamed" ==> id !in s.busyIds && s.clock - l.lastActivity >= 30_000_000_000)
            && (reason == "idle_timeout" ==> s.clock - l.lastActivity >= idleTimeout > 0)
  {
    var b := DeriveBounds(maxSessions, idleTimeout, grace);
    ReachedKeeps(b, run);
    ReachedKeeps(b, []);
    OldInitializes(Init(b), run, 0);
    var s := Reached(b, run);
    TrackedKept(s.t, id, s.clock);
    hide TableInv, Reached, Run;
    OpenAt(s.t.leases, s.posts, s.streams, s.busyIds, id);
    JobAt(s.t.leases, s.jobs, s.dispatched, id);
  }
}

/**
 The gateway of module GatewayMachine in front of the coordinator of module Backend: a request
 for the backend passes the coordinator's gate first (internal/mcp/managed_gateway.go:255-288
 and 311-327) and reports its completion afterwards. Streams only ask whether the backend is
 ready, they are not counted.
*/
module ManagedBackend {
  import opened Wrappers
  import opened LeaseTable
  import G = GatewayMachine
  import P = GatewayProofs
  import B = Backend

  // A request between its admission at the gate and its completion.
  datatype Flight = Init(token: nat) | Post(guard: G.Guard) | Cleanup(id: string)

  // `queued` are the POSTs that have begun on their lease and not yet come to the gate.
  datatype System = System(g: G.State, b: B.State, queued: multiset<G.Guard>, flights: multiset<Flight>)

  function Start(bounds: Bounds): System { System(G.Init(bounds), B.Init(), multiset{}, multiset{}) }

  // What comes to the gate: an undecided initialize, a POST, or the owner of a cleanup.
  predicate AtGate(s: System, f: Flight) {
    match f
    case Init(token) => G.Undecided(s.g, token) && f !in s.flights
    case Post(guard) => guard in s.queued
    case Cleanup(id) => G.HasJob(s.g, id, G.Claimed)
  }

  // The gate admits it, and a cleanup goes out, or it is refused and undone.
  function Gate(s: System, f: Flight): System {
    if !AtGate(s, f) then s else
    var open := B.Admits(s.b);
    s.(b := B.Begin(s.b), flights := if open then s.flights + multiset{f} else s.flights,
       queued := if f.Post? then s.queued - multiset{f.guard} else s.queued,
       g := match f
            case Init(token) => if open then s.g else G.InitRefused(s.g, token)
            case Post(guard) => if open then s.g else G.PostEnd(s.g, guard)
            case Cleanup(id) => if open then G.JobDispatch(s.g, id) else G.JobRefused(s.g, id))
  }

  // The completion guard of an admitted request; an initialize is decided before.
  function Finish(s: System, f: Flight): System {
    if f !in s.flights || (f.Init? && G.Undecided(s.g, f.token)) then s
    else s.(b := B.Complete(s.b), flights := s.flights - multiset{f})
  }

  // A section of the gateway alone. Who sends, refuses or completes is decided at the gate; an
  // initialize is answered only if it was admitted.
  ghost predicate Blocked(s: System, a: G.Action) {
    || a.AJobDispatch? || a.AJobRefused?
    || (a.APostEnd? && s.g.posts[a.g] <= s.queued[a.g] + s.flights[Post(a.g)])
    || ((a.AInitRefused? || a.AInitAmbiguous? || a.AInitAnswered?) && Init(a.token) !in s.flights)
  }

  ghost function Proceed(s: System, a: G.Action): System {
    if Blocked(s, a) then s
    else s.(g := G.Step(s.g, a),
            queued := if a.APostBegin? && IsActive(s.g.t, a.id) then s.queued + multiset{G.Guard(a.id, a.activity)} else s.queued)
  }

  // A section of the coordinator alone.
  function Coordinate(s: System, a: B.Action): System {
    if a.ABegin? || a.AComplete? then s else s.(b := B.Step(s.b, a))
  }

  datatype Event = Section(a: G.Action) | Coordinator(c: B.Action) | Admission(f: Flight) | Completion(f: Flight)

  ghost function Next(s: System, e: Event): System {
    match e
    case Section(a) => Proceed(s, a)
    case Coordinator(c) => Coordinate(s, c)
    case Admission(f) => Gate(s, f)
    case Completion(f) => Finish(s, f)
  }

  ghost function Runs(s: System, run: seq<Event>): System
    decreases |run|
  {
    if run == [] then s else Runs(Next(s, run[0]), run[1..])
  }

  // The coordinator counts exactly the requests in flight; a POST in flight or queued holds
  // its lease, and a cleanup in flight has been sent.
  ghost predicate Kept(s: System) {
    && G.Inv(s.g) && B.Inv(s.b)
    && |s.flights| == s.b.guards
    && Held(s.queued, s.flights, s.g.posts) && Sent(s.flights, s.g.dispatched)
  }

  ghost predicate Held(queued: multiset<G.Guard>, flights: multiset<Flight>, posts: multiset<G.Guard>) {
    forall guard: G.Guard :: queued[guard] + flights[Post(guard)] <= posts[guard]
  }

  ghost predicate Sent(flights: multiset<Flight>, dispatched: multiset<string>) {
    forall id: string :: flights[Cleanup(id)] <= dispatched[id]
  }

  lemma GuardsCount(b: B.State)
    requires B.Inv(b)
    ensures B.Inv(B.Begin(b)) && B.Begin(b).guards == b.guards + if B.Admits(b) then 1 else 0
    ensures B.Inv(B.Complete(b)) && (b.guards > 0 ==> B.Complete(b).guards == b.guards - 1)
  {
  }

  lemma GateKeeps(s: System, f: Flight)
    requires Kept(s)
    ensures Kept(Gate(s, f))
  {
    hide Kept, Gate;
    match f
    case Init(token) => InitKeeps(s, token);
    case Post(guard) => PostKeeps(s, guard);
    case Cleanup(id) => CleanupKeeps(s, id);
  }

  lemma InitKeeps(s: System, token: nat)
    requires Kept(s)
    ensures Kept(Gate(s, Init(token)))
  {
    hide G.Inv, B.Inv, B.Begin, B.Complete, B.Admits;
    GuardsCount(s.b);
    P.StepKeeps(s.g, G.AInitRefused(token));
  }

  lemma PostKeeps(s: System, guard: G.Guard)
    requires Kept(s)
    ensures Kept(Gate(s, Post(guard)))
  {
    hide G.Inv, B.Inv, B.Begin, B.Complete, B.Admits, G.PostEnd, Held, Sent;
    GuardsCount(s.b);
    PostEnds(s.g, guard);
    if guard in s.queued {
      PostHeld(s.queued, s.flights, s.g.posts, s.g.dispatched, guard);
    }
  }

  // A queued POST takes off, or its guard is returned.
  lemma PostHeld(queued: multiset<G.Guard>, flights: multiset<Flight>, posts: multiset<G.Guard>,
                 dispatched: multiset<string>, guard: G.Guard)
    requires Held(queued, flights, posts) && Sent(flights, dispatched) && guard in queued
    ensures Held(queued - multiset{guard}, flights + multiset{Post(guard)}, posts)
    ensures Held(queued - multiset{guard}, flights, posts - multiset{guard})
    ensures Sent(flights + multiset{Post(guard)}, dispatched)
  {
  }

  lemma PostEnds(g: G.State, guard: G.Guard)
    requires G.Inv(g)
    ensures var u := G.PostEnd(g, guard);
            G.Inv(u) && u.posts == g.posts - multiset{guard} && u.dispatched == g.dispatched
  {
    hide G.Inv, EndRequest;
    P.PostEndKeeps(g, guard);
  }

  lemma CleanupKeeps(s: System, id: string)
    requires Kept(s)
    ensures Kept(Gate(s, Cleanup(id)))
  {
    hide G.Inv, B.Inv, B.Begin, B.Complete, B.Admits;
    GuardsCount(s.b);
    P.StepKeeps(s.g, G.AJobDispatch(id));
    P.StepKeeps(s.g, G.AJobRefused(id));
  }

  lemma FinishKeeps(s: System, f: Flight)
    requires Kept(s)
    ensures Kept(Finish(s, f))
  {
    hide G.Inv, B.Inv, B.Begin, B.Complete;
    GuardsCount(s.b);
  }

  lemma CoordinateKeeps(s: System, a: B.Action)
    requires Kept(s)
    ensures Kept(Coordinate(s, a))
  {
    hide G.Inv;
    B.StepKeeps(s.b, a);
  }

  // Only the gate sends a cleanup, and only the end of a POST returns its guard.
  lemma SectionLeaves(s: G.State, a: G.Action)
    requires !a.AJobDispatch? && !a.APostBegin? && !a.APostEnd?
    ensures G.Step(s, a).posts == s.posts && G.Step(s, a).dispatched == s.dispatched
  {
    hide LeaseTable.ExpiryReason, FinalizeEach, InvalidateAll, FinalizeClose, Reserve, Release, Commit, CommitOutcome;
  }

  lemma PostMoves(s: G.State, a: G.Action)
    requires a.APostBegin? || a.APostEnd?
    ensures var u := G.Step(s, a);
            && u.dispatched == s.dispatched
            && (a.APostBegin? ==> u.posts == if IsActive(s.t, a.id) then s.posts + multiset{G.Guard(a.id, a.activity)} else s.posts)
            && (a.APostEnd? ==> u.posts == s.posts - multiset{a.g})
  {
    hide BeginRequest, EndRequest;
  }

  lemma ProceedKeeps(s: System, a: G.Action)
    requires Kept(s)
    ensures Kept(Proceed(s, a))
  {
    hide G.Inv, B.Inv, G.Step;
    if !Blocked(s, a) {
      P.StepKeeps(s.g, a);
      if a.APostBegin? || a.APostEnd? {
        PostMoves(s.g, a);
      } else {
        SectionLeaves(s.g, a);
      }
    }
  }

  lemma {:induction false} RunsKeep(s: System, run: seq<Event>)
    requires Kept(s)
    ensures Kept(Runs(s, run))
    decreases |run|
  {
    hide Kept, Gate, Finish, Proceed, Coordinate;
    if run != [] {
      match run[0] {
        case Section(a) => ProceedKeeps(s, a);
        case Coordinator(c) => CoordinateKeeps(s, c);
        case Admission(f) => GateKeeps(s, f);
        case Completion(f) => FinishKeeps(s, f);
      }
      RunsKeep(Next(s, run[0]), run[1..]);
    }
  }

  lemma ReachedKeeps(bounds: Bounds, run: seq<Event>)
    ensures Kept(Runs(Start(bounds), run))
  {
    P.ReachedKeeps(bounds, []);
    RunsKeep(Start(bounds), run);
  }

  // Unless MarkReady was called since the drain began, recycle runs while no initialize, no
  // POST and no cleanup DELETE is between its admission and its completion, and nothing that
  // comes to the gate meanwhile is admitted or sent.
  lemma RecycleIsQuiet(bounds: Bounds, run: seq<Event>, f: Flight)
    requires var b := Runs(Start(bounds), run).b; (b.drain.Woken? || b.drain.RunsRecycle?) && !b.readied
    ensures var s := Runs(Start(bounds), run);
            && s.flights == multiset{}
            && Gate(s, f).flights == multiset{} && Gate(s, f).g.dispatched == s.g.dispatched
  {
    ReachedKeeps(bounds, run);
  }

  // What is in flight at any time is what the coordinator counts; a lease with a POST in flight
  // is counted as busy, and no cleanup is in flight twice.
  lemma FlightsAreCounted(bounds: Bounds, run: seq<Event>, id: string, activity: bool)
    ensures var s := Runs(Start(bounds), run);
            && |s.flights| == s.b.inFlight
            && s.flights[Cleanup(id)] <= 1
            && (id in s.g.t.leases ==> s.flights[Post(G.Guard(id, activity))] <= s.g.t.leases[id].inFlight)
  {
    ReachedKeeps(bounds, run);
    var s := Runs(Start(bounds), run);
    P.JobAt(s.g.t.leases, s.g.jobs, s.g.dispatched, id);
    if id in s.g.t.leases {
      P.OpenAt(s.g.t.leases, s.g.posts, s.g.streams, s.g.busyIds, id);
    }
  }

  // Whatever comes to the gate is admitted exactly while the backend is ready. What is refused
  // is undone: the reservation and the guard are given back, and the lease is active again.
  lemma GateDecides(s: System, f: Flight)
    requires AtGate(s, f)
    ensures var u := Gate(s, f);
            if s.b.state == B.Ready then
              && u.flights == s.flights + multiset{f} && u.b.inFlight == s.b.inFlight + 1
              && (f.Cleanup? ==> u.g.dispatched == s.g.dispatched + multiset{f.id})
              && (!f.Cleanup? ==> u.g == s.g)
            else
              && u.flights == s.flights && u.b == s.b && u.g.dispatched == s.g.dispatched
              && match f
                 case Init(token) => token !in u.g.inits && u.g.t.reservations == s.g.t.reservations - {token}
                 case Post(guard) => guard in s.g.posts ==> u.g.posts == s.g.posts - multiset{guard}
                 case Cleanup(id) =>
                   && id !in u.g.jobs
                   && (id in s.g.t.leases && s.g.t.leases[id].state == Expiring ==>
                         id in u.g.t.leases && u.g.t.leases[id].state == Active)
  {
    hide EndRequest;
  }

  // A request that completes is no longer counted.
  lemma CompletionIsCounted(bounds: Bounds, run: seq<Event>, f: Flight)
    requires var s := Runs(Start(bounds), run); f in s.flights && (f.Init? ==> !G.Undecided(s.g, f.token))
    ensures var s := Runs(Start(bounds), run);
            var u := Finish(s, f);
            u.flights == s.flights - multiset{f} && s.b.inFlight > 0 && u.b.inFlight == s.b.inFlight - 1 && u.g == s.g
  {
    ReachedKeeps(bounds, run);
    hide Runs, G.Inv;
  }

  // What neither passes the gate nor ends a request is as in the gateway and the coordinator alone.
  lemma SectionsRunAlone(s: System, a: G.Action, c: B.Action)
    ensures !a.AJobDispatch? && !a.AJobRefused? && !a.APostEnd? && !a.AInitRefused? && !a.AInitAmbiguous? && !a.AInitAnswered? ==>
              var u := Next(s, Section(a)); u.g == G.Step(s.g, a) && u.b == s.b && u.flights == s.flights
    ensures !c.ABegin? && !c.AComplete? ==> Next(s, Coordinator(c)) == s.(b := B.Step(s.b, c))
  {
    hide G.Step, B.Step;
  }

  // A POST on an active lease comes to the gate of a ready backend, is in flight until it
  // completes, and leaves no trace in what is counted.
  lemma PostPassesThrough(s: System, id: string, activity: bool)
    requires Kept(s) && id in s.g.t.leases && s.g.t.leases[id].state == Active && s.b.state == B.Ready
    ensures var guard := G.Guard(id, activity);
            var a := Next(s, Section(G.APostBegin(id, activity)));
            var u := Next(a, Admission(Post(guard)));
            var v := Next(u, Completion(Post(guard)));
            var w := Next(v, Section(G.APostEnd(guard)));
            && a.queued == s.queued + multiset{guard} && a.g.posts == s.g.posts + multiset{guard}
            && u.flights == s.flights + multiset{Post(guard)} && u.queued == s.queued && u.b.inFlight == s.b.inFlight + 1
            && v.flights == s.flights && v.b.inFlight == s.b.inFlight
            && w.g.posts == s.g.posts
  {
    var guard := G.Guard(id, activity);
    HeldAt(s, guard);
    hide Kept, G.Step, Next;
    PostTakesOff(s, id, activity);
    PostLands(Next(Next(s, Section(G.APostBegin(id, activity))), Admission(Post(guard))), guard);
    assert s.flights + multiset{Post(guard)} - multiset{Post(guard)} == s.flights;
    assert s.g.posts + multiset{guard} - multiset{guard} == s.g.posts;
  }

  lemma PostTakesOff(s: System, id: string, activity: bool)
    requires Kept(s) && id in s.g.t.leases && s.g.t.leases[id].state == Active && s.b.state == B.Ready
    ensures var guard := G.Guard(id, activity);
            var a := Next(s, Section(G.APostBegin(id, activity)));
            var u := Next(a, Admission(Post(guard)));
            && a.queued == s.queued + multiset{guard} && a.g.posts == s.g.posts + multiset{guard}
            && u.flights == s.flights + multiset{Post(guard)} && u.queued == s.queued && u.g.posts == a.g.posts
            && u.b.inFlight == s.b.inFlight + 1 && u.b.guards == u.b.inFlight
  {
    var guard := G.Guard(id, activity);
    InFlightIsGuards(s);
    hide Kept, Next;
    PostQueues(s, id, activity);
    PostIsAdmitted(Next(s, Section(G.APostBegin(id, activity))), guard);
    assert s.queued + multiset{guard} - multiset{guard} == s.queued;
  }

  lemma PostQueues(s: System, id: string, activity: bool)
    requires id in s.g.t.leases && s.g.t.leases[id].state == Active
    ensures var guard := G.Guard(id, activity);
            var a := Next(s, Section(G.APostBegin(id, activity)));
            && a.queued == s.queued + multiset{guard} && a.g.posts == s.g.posts + multiset{guard}
            && a.b == s.b && a.flights == s.flights
  {
    PostMoves(s.g, G.APostBegin(id, activity));
    hide G.Step;
  }

  lemma PostIsAdmitted(s: System, guard: G.Guard)
    requires guard in s.queued && s.b.state == B.Ready && s.b.guards == s.b.inFlight
    ensures var u := Next(s, Admission(Post(guard)));
            && u.flights == s.flights + multiset{Post(guard)} && u.queued == s.queued - multiset{guard} && u.g == s.g
            && u.b.inFlight == s.b.inFlight + 1 && u.b.guards == u.b.inFlight
  {
    hide G.PostEnd, G.JobDispatch, G.JobRefused, G.InitRefused;
  }

  lemma PostLands(s: System, guard: G.Guard)
    requires Post(guard) in s.flights && s.b.guards == s.b.inFlight > 0
    requires s.queued[guard] + s.flights[Post(guard)] <= s.g.posts[guard]
    ensures var v := Next(s, Completion(Post(guard)));
            var w := Next(v, Section(G.APostEnd(guard)));
            && v.flights == s.flights - multiset{Post(guard)} && v.b.inFlight == s.b.inFlight - 1
            && w.g.posts == s.g.posts - multiset{guard}
  {
    hide G.Step;
    PostMoves(s.g, G.APostEnd(guard));
  }

  lemma HeldAt(s: System, guard: G.Guard)
    requires Kept(s)
    ensures s.queued[guard] + s.flights[Post(guard)] <= s.g.posts[guard]
  {
  }

  lemma InFlightIsGuards(s: System)
    requires Kept(s)
    ensures s.b.inFlight == s.b.guards
  {
  }

  // An undecided initialize is admitted by a ready backend once, its answer reaches the gateway,
  // and when it is decided its completion takes the count back.
  lemma InitializePassesThrough(s: System, token: nat, id: string)
    requires G.Undecided(s.g, token) && Init(token) !in s.flights && s.b.state == B.Ready && s.b.guards == s.b.inFlight
    ensures var u := Next(s, Admission(Init(token)));
            var v := Next(u, Section(G.AInitAnswered(token, id)));
            var w := Next(v, Completion(Init(token)));
            && u.flights == s.flights + multiset{Init(token)} && u.g == s.g && u.b.inFlight == s.b.inFlight + 1
            && Next(u, Admission(Init(token))) == u
            && v.g == G.Step(s.g, G.AInitAnswered(token, id))
            && (!G.Undecided(v.g, token) ==> w.flights == s.flights && w.b.inFlight == s.b.inFlight && w.g == v.g)
  {
    hide G.Step, G.InitRefused, G.PostEnd, G.JobDispatch, G.JobRefused;
    var u := Next(s, Admission(Init(token)));
    assert u.flights - multiset{Init(token)} == s.flights;
  }
}

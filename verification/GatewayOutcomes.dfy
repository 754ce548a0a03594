/**
 What the managed gateway achieves: who gets a session, what requests and streams do to it,
 and that cleanup, expiry and quarantine come to their end.
*/
module GatewayOutcomes {
  import opened Wrappers
  import opened LeaseTable
  import opened GatewayMachine
  import opened GatewayProofs

  lemma ReachedIs(b: Bounds, run: seq<Action>)
    ensures var s := Reached(b, run); Inv(s) && s.t.b == b
  {
    ReachedKeeps(b, run);
    ReachedKeeps(b, []);
    OldInitializes(Init(b), run, 0);
  }

  lemma OneMore(s: State, run: seq<Action>, a: Action)
    ensures Run(s, run + [a]) == Step(Run(s, run), a)
  {
    RunConcat(s, run, [a]);
    assert Run(Run(s, run), [a]) == Step(Run(s, run), a);
  }

  lemma RunTwo(s: State, a: Action, c: Action)
    ensures Run(s, [a, c]) == Step(Step(s, a), c)
  {
    hide Step;
    OneMore(s, [a], c);
    assert [a] + [c] == [a, c];
  }

  lemma RunThree(s: State, a: Action, c: Action, d: Action)
    ensures Run(s, [a, c, d]) == Step(Step(Step(s, a), c), d)
  {
    hide Step;
    RunTwo(s, a, c);
    OneMore(s, [a, c], d);
    assert [a, c] + [d] == [a, c, d];
  }

  // ----- who gets a session

  // An initialize is admitted exactly while the maximum, if there is one, is not used up by
  // leases and reservations; it then holds a reservation that nobody else has.
  lemma AdmittedExactlyWhen(b: Bounds, run: seq<Action>)
    ensures var s := Reached(b, run);
            var u := Step(s, AInitReserve);
            if b.maxSessions <= 0 || |s.t.reservations| + |s.t.leases| < b.maxSessions then
              exists token: nat ::
                && token !in s.t.reservations && u.t.reservations == s.t.reservations + {token}
                && token !in s.inits && u.inits == s.inits[token := Initialize(s.epoch, false)]
                && u.t.leases == s.t.leases && u.gauge == s.gauge
            else u == s
  {
    ReachedIs(b, run);
    var s := Reached(b, run);
    TokenIsFresh(s);
    hide Reached, Inv;
    if b.maxSessions <= 0 || |s.t.reservations| + |s.t.leases| < b.maxSessions {
      ReservationIsMade(s);
    }
  }

  lemma TokenIsFresh(s: State)
    requires Inv(s)
    ensures s.t.nextToken + 1 !in s.inits && s.t.nextToken + 1 !in s.t.reservations
  {
  }

  lemma ReservationIsMade(s: State)
    requires s.t.b.maxSessions <= 0 || |s.t.reservations| + |s.t.leases| < s.t.b.maxSessions
    ensures var u := Step(s, AInitReserve);
            var token := s.t.nextToken + 1;
            && u.t.reservations == s.t.reservations + {token} && u.inits == s.inits[token := Initialize(s.epoch, false)]
            && u.t.leases == s.t.leases && u.gauge == s.gauge
  {
    StepReserves(s);
    hide Step;
  }

  lemma StepReserves(s: State)
    ensures Step(s, AInitReserve) == InitReserve(s)
  {
    hide InitReserve;
  }

  // A good answer with a new identifier opens a session: the lease is there, active and
  // unused, the reservation is spent, gauge and commits count it, and the other leases are
  // as before. The client's next POST is then admitted.
  lemma AnswerOpensSession(b: Bounds, run: seq<Action>, token: nat, id: string, activity: bool)
    requires var s := Reached(b, run);
             token in s.inits && s.inits[token] == Initialize(s.epoch, false) && id != "" && id !in s.everIds
    ensures var s := Reached(b, run);
            var u := Reached(b, run + [AInitAnswered(token, id)]);
            var v := Reached(b, run + [AInitAnswered(token, id)] + [APostBegin(id, activity)]);
            && id !in s.t.leases && token in s.t.reservations
            && u.t.leases == s.t.leases[id := Lease(Active, s.clock, s.clock, 0, 0, false, None, None, "initialized")]
            && u.t.reservations == s.t.reservations - {token} && u.inits == s.inits - {token}
            && u.gauge == s.gauge + 1 && u.t.commits == s.t.commits + 1
            && u.posts == s.posts && u.streams == s.streams && u.jobs == s.jobs && u.t.closed == s.t.closed
            && v.posts == s.posts + multiset{Guard(id, activity)}
            && id in v.t.leases && v.t.leases[id].state == Active && v.t.leases[id].inFlight == 1
            && v.gauge == u.gauge
  {
    var s := Reached(b, run);
    OneMore(Init(b), run, AInitAnswered(token, id));
    OneMore(Init(b), run + [AInitAnswered(token, id)], APostBegin(id, activity));
    ReachedIs(b, run);
    NewIdentifier(s, token, id);
    hide Reached, Inv, Run;
    var u := Step(s, AInitAnswered(token, id));
    AnswerCommits(s, token, id);
    ActivePostEnters(u, id, activity);
  }

  lemma NewIdentifier(s: State, token: nat, id: string)
    requires Inv(s) && token in s.inits && id !in s.everIds
    ensures id !in s.t.leases && (s.inits[token].epoch == s.epoch <==> token in s.t.reservations)
  {
  }

  lemma AnswerCommits(s: State, token: nat, id: string)
    requires token in s.inits && !s.inits[token].ambiguous && token in s.t.reservations
    requires id != "" && id !in s.t.leases && id !in s.everIds
    ensures var u := Step(s, AInitAnswered(token, id));
            && u.t.leases == s.t.leases[id := Lease(Active, s.clock, s.clock, 0, 0, false, None, None, "initialized")]
            && u.t.reservations == s.t.reservations - {token} && u.inits == s.inits - {token}
            && u.gauge == s.gauge + 1 && u.t.commits == s.t.commits + 1
            && u.posts == s.posts && u.streams == s.streams && u.jobs == s.jobs && u.t.closed == s.t.closed
  {
  }

  lemma ActivePostEnters(s: State, id: string, activity: bool)
    requires id in s.t.leases && s.t.leases[id].state == Active
    ensures var u := Step(s, APostBegin(id, activity));
            && u.posts == s.posts + multiset{Guard(id, activity)} && u.gauge == s.gauge
            && id in u.t.leases && u.t.leases[id].state == Active && u.t.leases[id].inFlight == s.t.leases[id].inFlight + 1
  {
  }

  // No other answer opens one: without a header, for an initialize from before an
  // InvalidateAll, or for an identifier that is still leased, the initialize becomes
  // ambiguous and table and gauge stay as they are.
  lemma OtherAnswersOpenNothing(b: Bounds, run: seq<Action>, token: nat, id: string)
    requires var s := Reached(b, run);
             && token in s.inits && !s.inits[token].ambiguous && (id in s.everIds ==> id in s.t.leases)
             && (id == "" || s.inits[token].epoch != s.epoch || id in s.t.leases)
    ensures var s := Reached(b, run);
            Step(s, AInitAnswered(token, id)) == s.(inits := s.inits[token := s.inits[token].(ambiguous := true)])
  {
    ReachedIs(b, run);
    var s := Reached(b, run);
    assert s.inits[token].epoch == s.epoch <==> token in s.t.reservations;
    hide Reached, Inv;
  }

  // A refused initialize gives its reservation back.
  lemma RefusalFreesTheSlot(s: State, token: nat)
    requires token in s.inits && !s.inits[token].ambiguous
    ensures var u := Step(s, AInitRefused(token));
            u == s.(t := s.t.(reservations := s.t.reservations - {token}), inits := s.inits - {token})
  {
  }

  // An initialize whose outcome nobody knows holds its slot until InvalidateAll, whatever
  // else happens.
  lemma {:induction false} AmbiguousInitializeHoldsItsSlot(b: Bounds, run: seq<Action>, token: nat, more: seq<Action>)
    requires var s := Reached(b, run); token in s.inits && s.inits[token].epoch == s.epoch
    requires forall a <- more :: !a.AInvalidate?
    ensures var s := Reached(b, run + [AInitAmbiguous(token)] + more);
            token in s.t.reservations && token in s.inits && s.inits[token].ambiguous
  {
    ReachedIs(b, run);
    var s := Reached(b, run);
    OneMore(Init(b), run, AInitAmbiguous(token));
    RunConcat(Init(b), run + [AInitAmbiguous(token)], more);
    StepKeeps(s, AInitAmbiguous(token));
    hide Reached, Inv, Run, Step;
    AmbiguityIsNoted(s, token);
    AmbiguousStays(Step(s, AInitAmbiguous(token)), token, more);
  }

  lemma AmbiguityIsNoted(s: State, token: nat)
    requires token in s.inits && s.inits[token].epoch == s.epoch
    ensures var u := Step(s, AInitAmbiguous(token)); token in u.inits && u.inits[token] == Initialize(u.epoch, true)
  {
  }

  lemma {:induction false} AmbiguousStays(s: State, token: nat, run: seq<Action>)
    requires Inv(s) && token in s.inits && s.inits[token] == Initialize(s.epoch, true)
    requires forall a <- run :: !a.AInvalidate?
    ensures var u := Run(s, run); token in u.inits && u.inits[token] == Initialize(u.epoch, true) && token in u.t.reservations
    decreases |run|
  {
    hide Step;
    if run != [] {
      AmbiguousStep(s, run[0], token);
      StepKeeps(s, run[0]);
      AmbiguousStays(Step(s, run[0]), token, run[1..]);
    }
  }

  lemma AmbiguousStep(s: State, a: Action, token: nat)
    requires Inv(s) && token in s.inits && s.inits[token] == Initialize(s.epoch, true) && !a.AInvalidate?
    ensures var u := Step(s, a); token in u.inits && u.inits[token] == Initialize(u.epoch, true)
  {
    assert token <= s.t.nextToken;
    hide Inv, Step;
    if a.AInitReserve? || a.AInitRefused? || a.AInitAmbiguous? || a.AInitAnswered? {
      AmbiguousInitStep(s, a, token);
    } else if a.AQuarantineClose? {
      QuarantineStep(s, a);
    } else if a.APostBegin? || a.APostEnd? || a.ATick? {
      PostStep(s, a);
    } else if a.AStreamBegin? || a.AStreamEnd? || a.AQuarantineSettle? {
      StreamStep(s, a);
    } else {
      CleanupStep(s, a);
    }
  }

  lemma AmbiguousInitStep(s: State, a: Action, token: nat)
    requires token in s.inits && s.inits[token] == Initialize(s.epoch, true) && token <= s.t.nextToken
    requires a.AInitReserve? || a.AInitRefused? || a.AInitAmbiguous? || a.AInitAnswered?
    ensures var u := Step(s, a); token in u.inits && u.inits[token] == Initialize(u.epoch, true)
  {
  }

  lemma QuarantineStep(s: State, a: Action)
    requires a.AQuarantineClose?
    ensures Step(s, a).inits == s.inits && Step(s, a).epoch == s.epoch
  {
  }

  // ----- requests and streams

  // A POST is admitted exactly on an active lease; one that is application activity starts
  // the idle time anew and moves a running disconnect deadline to a full grace period.
  lemma PostAdmittedExactlyWhen(b: Bounds, run: seq<Action>, id: string, activity: bool)
    ensures var s := Reached(b, run);
            var u := Step(s, APostBegin(id, activity));
            if id in s.t.leases && s.t.leases[id].state == Active then
              var l := s.t.leases[id];
              && u.posts == s.posts + multiset{Guard(id, activity)} && u.t.leases.Keys == s.t.leases.Keys
              && u.t.leases[id].inFlight == l.inFlight + 1 && u.t.leases[id].sse == l.sse && u.t.leases[id].state == Active
              && u.t.leases[id].lastActivity == (if activity then s.clock else l.lastActivity)
              && u.t.leases[id].everActive == (l.everActive || activity)
              && u.t.leases[id].disconnect
                 == (if activity && l.disconnect.Some? then Some(s.clock + b.disconnectGrace) else l.disconnect)
              && u.t.leases - {id} == s.t.leases - {id}
            else u == s
  {
    ReachedIs(b, run);
    hide Inv, Reached;
  }

  // A POST that ends takes its own count back and is activity again if it was before.
  lemma PostEnds(b: Bounds, run: seq<Action>, g: Guard)
    requires g in Reached(b, run).posts && g.id in Reached(b, run).t.leases
    ensures var s := Reached(b, run);
            var u := Step(s, APostEnd(g));
            var l := s.t.leases[g.id];
            && u.posts == s.posts - multiset{g} && u.t.leases.Keys == s.t.leases.Keys
            && l.inFlight >= 1 && u.t.leases[g.id].inFlight == l.inFlight - 1
            && u.t.leases[g.id].lastActivity == (if g.activity then s.clock else l.lastActivity)
            && u.t.leases[g.id].disconnect
               == (if g.activity && l.disconnect.Some? then Some(s.clock + b.disconnectGrace) else l.disconnect)
            && u.t.leases[g.id].state == l.state && u.t.leases - {g.id} == s.t.leases - {g.id}
  {
    ReachedIs(b, run);
    var s := Reached(b, run);
    OpenAt(s.t.leases, s.posts, s.streams, s.busyIds, g.id);
    assert g == Guard(g.id, true) || g == Guard(g.id, false);
    hide Inv, Reached, Step;
    GuardEnds(s, g);
  }

  lemma GuardEnds(s: State, g: Guard)
    requires g in s.posts && g.id in s.t.leases && s.t.leases[g.id].inFlight >= 1
    ensures var u := Step(s, APostEnd(g));
            var l := s.t.leases[g.id];
            && u.posts == s.posts - multiset{g} && u.t.leases.Keys == s.t.leases.Keys
            && u.t.leases[g.id].inFlight == l.inFlight - 1
            && u.t.leases[g.id].lastActivity == (if g.activity then s.clock else l.lastActivity)
            && u.t.leases[g.id].disconnect
               == (if g.activity && l.disconnect.Some? then Some(s.clock + s.t.b.disconnectGrace) else l.disconnect)
            && u.t.leases[g.id].state == l.state && u.t.leases - {g.id} == s.t.leases - {g.id}
  {
    var u := Step(s, APostEnd(g));
    assert u.t.leases == s.t.leases[g.id := u.t.leases[g.id]];
  }

  // A stream opens exactly on an active lease and cancels a running deadline ...
  lemma StreamCancelsTheDeadline(b: Bounds, run: seq<Action>, id: string)
    requires id in Reached(b, run).t.leases
    ensures var s := Reached(b, run);
            var l := s.t.leases[id];
            var u := Step(s, AStreamBegin(id));
            if l.state == Active then
              && u.streams == s.streams + multiset{id}
              && u.t.leases == s.t.leases[id := l.(sse := s.streams[id] + 1, disconnect := None)]
            else u == s
  {
    hide Inv, Reached, Step;
    ReachedIs(b, run);
    CountedAt(Reached(b, run), id);
    StreamOpens(Reached(b, run), id);
  }

  // ... and the end of the last stream, and of no other, starts the grace period if there is one.
  lemma LastStreamStartsTheDeadline(b: Bounds, run: seq<Action>, id: string)
    requires id in Reached(b, run).t.leases
    ensures var s := Reached(b, run);
            var l := s.t.leases[id];
            var u := Step(s, AStreamEnd(id));
            if id in s.streams then
              && u.streams == s.streams - multiset{id}
              && u.t.leases == s.t.leases[id := l.(sse := s.streams[id] - 1, disconnect :=
                   if s.streams[id] == 1 && b.disconnectGrace > 0 then Some(s.clock + b.disconnectGrace) else l.disconnect)]
            else u == s
  {
    hide Inv, Reached, Step;
    ReachedIs(b, run);
    CountedAt(Reached(b, run), id);
    StreamCloses(Reached(b, run), id);
  }

  lemma CountedAt(s: State, id: string)
    requires Inv(s) && id in s.t.leases
    ensures s.t.leases[id].sse == s.streams[id]
  {
  }

  lemma StreamOpens(s: State, id: string)
    requires id in s.t.leases && s.t.leases[id].sse == s.streams[id]
    ensures var l := s.t.leases[id];
            var u := Step(s, AStreamBegin(id));
            if l.state == Active then
              u.streams == s.streams + multiset{id} && u.t.leases == s.t.leases[id := l.(sse := s.streams[id] + 1, disconnect := None)]
            else u == s
  {
  }

  lemma StreamCloses(s: State, id: string)
    requires id in s.t.leases && s.t.leases[id].sse == s.streams[id]
    ensures var l := s.t.leases[id];
            var u := Step(s, AStreamEnd(id));
            if id in s.streams then
              && u.streams == s.streams - multiset{id}
              && u.t.leases == s.t.leases[id := l.(sse := s.streams[id] - 1, disconnect :=
                   if s.streams[id] == 1 && s.t.b.disconnectGrace > 0 then Some(s.clock + s.t.b.disconnectGrace) else l.disconnect)]
            else u == s
  {
  }

  // ----- cleanup

  // Nobody uses the lease, and nothing has been sent for it.
  predicate Quiet(s: State, id: string) {
    id in s.t.leases && s.t.leases[id].state == Active && s.posts[Guard(id, true)] == s.posts[Guard(id, false)] == 0
  }

  lemma QuietIsUnused(s: State, id: string)
    requires Inv(s) && Quiet(s, id)
    ensures s.t.leases[id].inFlight == 0 && id !in s.jobs && s.t.leases[id].sse == s.streams[id] && s.owed + |s.t.leases| == s.gauge
  {
    OpenAt(s.t.leases, s.posts, s.streams, s.busyIds, id);
    JobAt(s.t.leases, s.jobs, s.dispatched, id);
  }

  // A client's DELETE claims exactly a lease without requests.
  lemma DeleteClaimsExactly(b: Bounds, run: seq<Action>, id: string)
    ensures var s := Reached(b, run);
            var u := Step(s, AClientDelete(id));
            if Quiet(s, id) then
              u == s.(t := s.t.(leases := s.t.leases[id := s.t.leases[id].(state := Expiring, reason := "client_delete")]),
                      jobs := s.jobs[id := Claimed])
            else u == s
  {
    hide Inv, Reached, Step;
    ReachedIs(b, run);
    var s := Reached(b, run);
    if id in s.t.leases {
      QuietExactlyWhen(s, id);
    }
    ClaimStep(s, id);
  }

  lemma QuietExactlyWhen(s: State, id: string)
    requires Inv(s) && id in s.t.leases
    ensures Quiet(s, id) <==> s.t.leases[id].state == Active && s.t.leases[id].inFlight == 0
  {
    OpenAt(s.t.leases, s.posts, s.streams, s.busyIds, id);
  }

  lemma ClaimStep(s: State, id: string)
    ensures Step(s, AClientDelete(id)) == ClientDelete(s, id)
  {
    hide ClientDelete;
  }

  lemma TickStep(s: State, d: nat)
    ensures Step(s, ATick(d)) == s.(clock := s.clock + d)
  {
  }

  // The row a closed lease leaves behind.
  function Closed(s: State, id: string, reason: string): Row
    requires id in s.t.leases
  {
    var l := s.t.leases[id];
    Row(id, s.clock - l.createdAt, s.clock - l.lastActivity, 0, s.streams[id], reason)
  }

  // A claimed lease whose cleanup DELETE is answered goes, with its row and its count.
  lemma ProvedCleanupCloses(s: State, id: string)
    requires Inv(s) && id in s.t.leases && HasJob(s, id, Claimed) && s.t.leases[id].reason != ""
    ensures var u := Run(s, [AJobDispatch(id), AJobProved(id)]);
            && u.dispatched == s.dispatched + multiset{id}
            && u.t.leases == s.t.leases - {id} && u.gauge == s.gauge - 1 && u.jobs == s.jobs - {id}
            && u.t.history == s.t.history + [Closed(s, id, s.t.leases[id].reason)]
  {
    OpenAt(s.t.leases, s.posts, s.streams, s.busyIds, id);
    JobAt(s.t.leases, s.jobs, s.dispatched, id);
    RunTwo(s, AJobDispatch(id), AJobProved(id));
    CleanupIsSent(s, id);
    hide Inv, Run, Step, TableInv, OpenInv, JobInv;
    var t := s.(jobs := s.jobs[id := Dispatched], dispatched := s.dispatched + multiset{id});
    AnsweredCleanupCloses(t, id);
    SameRow(s, t, id);
    hide Closed;
    ReplacedAndRemoved(s.jobs, id, Dispatched);
  }

  lemma CleanupIsSent(s: State, id: string)
    requires HasJob(s, id, Claimed)
    ensures Step(s, AJobDispatch(id)) == s.(jobs := s.jobs[id := Dispatched], dispatched := s.dispatched + multiset{id})
  {
  }

  lemma AnsweredCleanupCloses(s: State, id: string)
    requires HasJob(s, id, Dispatched) && id in s.t.leases && s.t.leases[id].reason != ""
    requires s.t.leases[id].inFlight == 0 && s.t.leases[id].sse == s.streams[id]
    ensures var u := Step(s, AJobProved(id));
            && u.dispatched == s.dispatched && u.t.leases == s.t.leases - {id} && u.gauge == s.gauge - 1
            && u.jobs == s.jobs - {id} && u.t.history == s.t.history + [Closed(s, id, s.t.leases[id].reason)]
  {
  }

  lemma ClientDeleteCloses(b: Bounds, run: seq<Action>, id: string)
    requires Quiet(Reached(b, run), id)
    ensures var s := Reached(b, run);
            var u := Run(s, [AClientDelete(id)] + [AJobDispatch(id), AJobProved(id)]);
            && u.dispatched == s.dispatched + multiset{id}
            && u.t.leases == s.t.leases - {id} && u.gauge == s.gauge - 1 && u.jobs == s.jobs
            && u.t.history == s.t.history + [Closed(s, id, "client_delete")]
  {
    hide Reached, Inv, Step, Run;
    var s := Reached(b, run);
    ReachedIs(b, run);
    QuietIsUnused(s, id);
    DeleteClaimsExactly(b, run, id);
    StepKeeps(s, AClientDelete(id));
    RunThenTwo(s, AClientDelete(id), AJobDispatch(id), AJobProved(id));
    var u := Step(s, AClientDelete(id));
    assert "client_delete"[0] == 'c';
    ProvedCleanupCloses(u, id);
    hide HasJob, Quiet, Closed;
    ReplacedAndRemoved(s.t.leases, id, u.t.leases[id]);
    ReplacedAndRemoved(s.jobs, id, Claimed);
    assert s.jobs - {id} == s.jobs;
    SameRow(s, u, id);
  }

  lemma RunThenTwo(s: State, a: Action, c: Action, d: Action)
    ensures Run(s, [a] + [c, d]) == Run(Step(s, a), [c, d])
  {
    RunConcat(s, [a], [c, d]);
    assert Run(s, [a]) == Step(s, a);
  }

  lemma SameRow(s: State, u: State, id: string)
    requires id in s.t.leases && id in u.t.leases && u.clock == s.clock && u.streams == s.streams
    requires u.t.leases[id].createdAt == s.t.leases[id].createdAt && u.t.leases[id].lastActivity == s.t.leases[id].lastActivity
    ensures forall reason :: Closed(u, id, reason) == Closed(s, id, reason)
  {
  }

  lemma ReplacedAndRemoved<V>(m: map<string, V>, id: string, v: V)
    ensures m[id := v] - {id} == m - {id}
  {
  }

  // A cleanup the backend gate refuses leaves a lease that works as before.
  lemma RefusedCleanupRestores(b: Bounds, run: seq<Action>, id: string)
    requires Quiet(Reached(b, run), id)
    ensures var s := Reached(b, run);
            var u := Run(s, [AClientDelete(id), AJobRefused(id)]);
            u == s.(t := s.t.(leases := s.t.leases[id := s.t.leases[id].(reason := "")]))
  {
    hide Inv, Reached, Run, Step;
    var s := Reached(b, run);
    ReachedIs(b, run);
    QuietIsUnused(s, id);
    DeleteClaimsExactly(b, run, id);
    RunTwo(s, AClientDelete(id), AJobRefused(id));
    var u := Step(s, AClientDelete(id));
    RefusalRestores(u, id);
    hide HasJob, Quiet;
    ReplacedAndRemoved(s.jobs, id, Claimed);
    assert s.jobs - {id} == s.jobs;
    ReplacedTwice(s.t.leases, id, u.t.leases[id], s.t.leases[id].(reason := ""));
  }

  lemma ReplacedTwice<V>(m: map<string, V>, id: string, v: V, w: V)
    ensures m[id := v][id := w] == m[id := w]
  {
  }

  lemma RefusalRestores(s: State, id: string)
    requires id in s.t.leases && s.t.leases[id].state == Expiring && HasJob(s, id, Claimed)
    ensures Step(s, AJobRefused(id))
         == s.(t := s.t.(leases := s.t.leases[id := s.t.leases[id].(state := Active, reason := "")]), jobs := s.jobs - {id})
  {
  }

  // A cleanup nobody can tell the outcome of quarantines the lease for the bound.
  lemma UncertainCleanupQuarantines(s: State, id: string, reason: string)
    requires id in s.t.leases && HasJob(s, id, Claimed)
    ensures var u := Run(s, [AJobDispatch(id), AJobUncertain(id, reason)]);
            && id in u.t.leases && u.t.leases[id] == s.t.leases[id].(
                 state := CleanupUncertain, reason := reason, cleanup := Some(s.clock + s.t.b.cleanupUncertain))
            && u.jobs == s.jobs - {id} && u.gauge == s.gauge && u.t.leases - {id} == s.t.leases - {id}
  {
    RunTwo(s, AJobDispatch(id), AJobUncertain(id, reason));
    CleanupIsSent(s, id);
    hide Run, Step;
    UnknownOutcomeQuarantines(Step(s, AJobDispatch(id)), id, reason);
    ReplacedAndRemoved(s.jobs, id, Dispatched);
    ReplacedAndRemoved(s.t.leases, id, Run(s, [AJobDispatch(id), AJobUncertain(id, reason)]).t.leases[id]);
  }

  lemma UnknownOutcomeQuarantines(s: State, id: string, reason: string)
    requires id in s.t.leases && HasJob(s, id, Dispatched)
    ensures var u := Step(s, AJobUncertain(id, reason));
            && u.t.leases == s.t.leases[id := s.t.leases[id].(state := CleanupUncertain, reason := reason,
                                                              cleanup := Some(s.clock + s.t.b.cleanupUncertain))]
            && u.jobs == s.jobs - {id} && u.gauge == s.gauge
  {
  }

  // So does one that cannot even be sent.
  lemma InvalidCleanupQuarantines(s: State, id: string)
    requires id in s.t.leases && HasJob(s, id, Claimed)
    ensures var u := Step(s, AJobInvalid(id));
            && u.t.leases == s.t.leases[id := s.t.leases[id].(state := CleanupUncertain, reason := "cleanup_request_invalid",
                                                              cleanup := Some(s.clock + s.t.b.cleanupUncertain))]
            && u.jobs == s.jobs - {id} && u.gauge == s.gauge && u.dispatched == s.dispatched
  {
  }

  // A quarantine ends exactly when its bound has passed.
  lemma QuarantineEndsExactlyWhen(b: Bounds, run: seq<Action>, id: string, d: nat, order: seq<string>)
    requires var s := Reached(b, run); id in s.t.leases && Lists(order, Overdue(s.t, s.clock + d))
    ensures var s := Reached(b, run);
            var u := Run(s, [ATick(d), AQuarantineClose(order)]);
            && (id !in u.t.leases <==>
                  && s.t.leases[id].state == CleanupUncertain && s.t.leases[id].cleanup.Some?
                  && s.clock + d >= s.t.leases[id].cleanup.value)
            && (id in u.t.leases ==> u.t.leases[id] == s.t.leases[id])
            && u.owed == s.owed + |order| && u.gauge == s.gauge
  {
    hide Inv, Reached, Run, Step, FinalizeEach, Overdue;
    var s := Reached(b, run);
    ReachedIs(b, run);
    TableKept(s);
    TrackedKept(s.t, id, s.clock);
    TickThenClose(s, d, order);
    OverdueClosed(s.t, id, s.clock, d, order);
  }

  lemma TickThenClose(s: State, d: nat, order: seq<string>)
    requires Lists(order, Overdue(s.t, s.clock + d))
    ensures Run(s, [ATick(d), AQuarantineClose(order)])
         == s.(clock := s.clock + d, t := FinalizeEach(s.t, order, s.clock + d), owed := s.owed + |order|)
  {
    hide Run, Step, FinalizeEach, Overdue, Lists;
    RunTwo(s, ATick(d), AQuarantineClose(order));
    TickStep(s, d);
    QuarantinesClose(s.(clock := s.clock + d), order);
  }

  lemma OverdueClosed(t: Table, id: string, clock: int, d: nat, order: seq<string>)
    requires TableInv(t, clock) && id in t.leases && Lists(order, Overdue(t, clock + d))
    ensures var u := FinalizeEach(t, order, clock + d);
            && (id !in u.leases <==> QuarantineOver(t.leases[id], clock + d))
            && (id in u.leases ==> u.leases[id] == t.leases[id])
  {
    ClockKeeps(t, clock, clock + d);
    hide TableInv, FinalizeEach, QuarantineOver;
    FinalizeEachKeeps(t, order, clock + d);
    OverdueAt(t, id, clock + d);
  }

  lemma OverdueAt(t: Table, id: string, now: int)
    requires id in t.leases
    ensures id in Overdue(t, now) <==> QuarantineOver(t.leases[id], now)
  {
  }

  lemma QuarantinesClose(s: State, order: seq<string>)
    requires Lists(order, Overdue(s.t, s.clock))
    ensures Step(s, AQuarantineClose(order)) == s.(t := FinalizeEach(s.t, order, s.clock), owed := s.owed + |order|)
  {
    hide FinalizeEach, Overdue, Lists;
  }

  function Settlements(n: nat): seq<Action> {
    if n == 0 then [] else Settlements(n - 1) + [AQuarantineSettle]
  }

  // The decrements owed for released quarantines bring the gauge down to the number of leases.
  lemma SettledGaugeIsTheLeases(b: Bounds, run: seq<Action>)
    ensures var s := Reached(b, run);
            Run(s, Settlements(s.owed)) == s.(owed := 0, gauge := |s.t.leases|)
  {
    GaugeCountsLeases(b, run);
    hide Reached;
    SettlementsCount(Reached(b, run), Reached(b, run).owed);
  }

  lemma {:induction false} SettlementsCount(s: State, n: nat)
    requires n <= s.owed
    ensures Run(s, Settlements(n)) == s.(owed := s.owed - n, gauge := s.gauge - n)
  {
    if n > 0 {
      SettlementsCount(s, n - 1);
      OneMore(s, Settlements(n - 1), AQuarantineSettle);
    }
  }

  // ----- the pruner

  // A lease nobody uses whose last stream has ended is reclaimed once the grace period is over.
  lemma DisconnectedLeaseIsReclaimed(b: Bounds, run: seq<Action>, id: string, d: nat)
    requires var s := Reached(b, run); Quiet(s, id) && s.streams[id] == 1 && 0 < b.disconnectGrace <= d
    ensures var s := Reached(b, run);
            var u := Run(s, [AStreamEnd(id), ATick(d), APruneClaim]);
            && id in u.t.leases && u.t.leases[id].state == Expiring && u.t.leases[id].reason == "client_disconnected"
            && id in u.jobs && u.jobs[id] == Claimed
  {
    hide Inv, Reached, Run, Step;
    var s := Reached(b, run);
    ReachedIs(b, run);
    QuietIsUnused(s, id);
    RunThree(s, AStreamEnd(id), ATick(d), APruneClaim);
    StreamCloses(s, id);
    BoundsStay(s, id);
    TickStep(Step(s, AStreamEnd(id)), d);
    PruneClaims(Step(Step(s, AStreamEnd(id)), ATick(d)), id);
  }

  lemma BoundsStay(s: State, id: string)
    ensures var u := Step(s, AStreamEnd(id)); u.clock == s.clock && u.t.b == s.t.b
  {
  }

  lemma PruneClaims(s: State, id: string)
    requires id in s.t.leases
    ensures var reason := ExpiryReason(s.t.b, s.t.leases[id], s.clock);
            var u := Step(s, APruneClaim);
            && id in u.t.leases
            && (reason != "" ==> id in u.jobs && u.jobs[id] == Claimed && u.t.leases[id] == s.t.leases[id].(state := Expiring, reason := reason))
            && (reason == "" ==> u.t.leases[id] == s.t.leases[id] && (id in u.jobs <==> id in s.jobs))
  {
    hide ExpiryReason;
  }

  // A lease nobody touches and no stream keeps is reclaimed as idle exactly when the idle
  // timeout has passed, unless it has never seen application activity and the shorter bound
  // of such leases has.
  lemma IdleLeaseIsReclaimedExactlyWhen(b: Bounds, run: seq<Action>, id: string, d: nat)
    requires var s := Reached(b, run); Quiet(s, id) && s.t.leases[id].disconnect.None?
    ensures var s := Reached(b, run);
            var l := s.t.leases[id];
            var u := Run(s, [ATick(d), APruneClaim]);
            var idle := s.clock + d - l.lastActivity;
            var never := id !in s.busyIds && 0 < b.neverActive <= idle;
            && id in u.t.leases
            && (u.t.leases[id].state == Expiring <==> never || 0 < b.idleTimeout <= idle)
            && (never ==> u.t.leases[id].reason == "never_streamed")
            && (!never && 0 < b.idleTimeout <= idle ==> u.t.leases[id].reason == "idle_timeout")
  {
    hide Inv, Reached, Run, Step;
    var s := Reached(b, run);
    ReachedIs(b, run);
    QuietIsUnused(s, id);
    BusyAt(s, id);
    RunTwo(s, ATick(d), APruneClaim);
    TickStep(s, d);
    PruneClaims(Step(s, ATick(d)), id);
  }

  lemma BusyAt(s: State, id: string)
    requires Inv(s) && id in s.t.leases
    ensures s.t.leases[id].everActive <==> id in s.busyIds
  {
    OpenAt(s.t.leases, s.posts, s.streams, s.busyIds, id);
  }

  // ----- the backend is replaced

  // InvalidateAll closes every lease with a row of its own, in the order given, and forgets
  // every reservation.
  lemma InvalidationClosesEverything(b: Bounds, run: seq<Action>, order: seq<string>, reason: string)
    requires Lists(order, Reached(b, run).t.leases.Keys)
    ensures var s := Reached(b, run);
            var u := Step(s, AInvalidate(order, reason));
            && u.t.leases == map[] && u.t.reservations == {} && u.epoch == s.epoch + 1
            && u.gauge == s.gauge - |s.t.leases| && |u.t.history| == |s.t.history| + |order| && |order| == |s.t.leases|
            && u.t.history[..|s.t.history|] == s.t.history
            && forall i :: 0 <= i < |order| ==>
                 var l := s.t.leases[order[i]];
                 u.t.history[|s.t.history| + i]
                 == Row(order[i], s.clock - l.createdAt, s.clock - l.lastActivity, l.inFlight, l.sse,
                        if reason == "" then "closed" else reason)
  {
    hide Inv, Reached, RecordEach;
    ReachedIs(b, run);
    var s := Reached(b, run);
    ListsSize(order, s.t.leases.Keys);
    RowsRecorded(s.t, order, reason, s.clock);
  }

  lemma {:induction false} RowsRecorded(t: Table, order: seq<string>, reason: string, now: int)
    requires forall id <- order :: id in t.leases
    ensures var u := RecordEach(t, order, reason, now);
            && |u.history| == |t.history| + |order| && u.history[..|t.history|] == t.history
            && (forall i :: 0 <= i < |order| ==>
                  u.history[|t.history| + i] == RowOf(order[i], t.leases[order[i]], reason, now))
    decreases |order|
  {
    if order != [] {
      var v := RecordRow(t, RowOf(order[0], t.leases[order[0]], reason, now));
      RowsRecorded(v, order[1..], reason, now);
      var u := RecordEach(t, order, reason, now);
      assert v.history == t.history + [RowOf(order[0], t.leases[order[0]], reason, now)];
      assert u.history[..|t.history|] == u.history[..|v.history|][..|t.history|];
      forall i | 0 <= i < |order|
        ensures u.history[|t.history| + i] == RowOf(order[i], t.leases[order[i]], reason, now)
      {
        if i == 0 {
          assert u.history[|t.history|] == u.history[..|v.history|][|t.history|];
        } else {
          assert u.history[|v.history| + (i - 1)] == RowOf(order[1..][i - 1], t.leases[order[1..][i - 1]], reason, now);
        }
      }
    }
  }
}

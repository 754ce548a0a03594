/**
 The managed HTTP gateway (internal/mcp/managed_gateway.go) around its lease table, as a state
 machine. One action is what happens while one lock is held, or one answer of the backend.
 `Step` is total: an action whose guard fails changes nothing.

 The backend never hands out a retired session identifier again; handing out one that is
 still leased is modelled, and refused as in the code.
*/
module GatewayMachine {
  import opened Wrappers
  import opened LeaseTable

  // An initialize request that holds a reservation: made in `epoch`, that is after so many
  // InvalidateAll calls; ambiguous once its outcome cannot be known.
  datatype Initialize = Initialize(epoch: nat, ambiguous: bool)

  // The completion guard of one POST.
  datatype Guard = Guard(id: string, activity: bool)

  // The owner of a lease's cleanup: the DELETE handler or the pruner.
  datatype Job = Claimed | Dispatched

  datatype State = State(
    clock: int, t: Table,
    gauge: int, owed: nat,       // active-session gauge; decrements of released quarantines not yet made
    epoch: nat, inits: map<nat, Initialize>,
    posts: multiset<Guard>, streams: multiset<string>, jobs: map<string, Job>,
    dispatched: multiset<string>, everIds: set<string>,
    busyIds: set<string>)        // history: cleanups sent, leases committed, leases that ever saw application activity

  function Init(b: Bounds): State {
    State(0, Empty(b), 0, 0, 0, map[], multiset{}, multiset{}, map[], multiset{}, {}, {})
  }

  function Tick(s: State, d: nat): State { s.(clock := s.clock + d) }

  // ----- initialize

  function InitReserve(s: State): State {
    if Full(s.t) then s
    else s.(t := Reserve(s.t), inits := s.inits[s.t.nextToken + 1 := Initialize(s.epoch, false)])
  }

  predicate Undecided(s: State, token: nat) { token in s.inits && !s.inits[token].ambiguous }

  // The backend gate refused the request, or the backend answered with an error status.
  function InitRefused(s: State, token: nat): State {
    if !Undecided(s, token) then s else s.(t := Release(s.t, token), inits := s.inits - {token})
  }

  // Transport error: nobody knows whether the backend opened a session.
  function InitAmbiguous(s: State, token: nat): State {
    if !Undecided(s, token) then s else s.(inits := s.inits[token := s.inits[token].(ambiguous := true)])
  }

  predicate Retired(s: State, id: string) { id in s.everIds && id !in s.t.leases }

  // A successful answer naming session id, "" when the header is missing. A refused commit
  // ends in the proxy's error handler, which leaves the reservation quarantined.
  function InitAnswered(s: State, token: nat, id: string): State {
    if !Undecided(s, token) || Retired(s, id) then s
    else if CommitOutcome(s.t, token, id) != NoError then InitAmbiguous(s, token)
    else s.(t := Commit(s.t, token, id, s.clock), gauge := s.gauge + 1,
            inits := s.inits - {token}, everIds := s.everIds + {id})
  }

  // ----- requests and streams

  function PostBegin(s: State, id: string, activity: bool): State {
    if !IsActive(s.t, id) then s
    else s.(t := BeginRequest(s.t, id, activity, s.clock), posts := s.posts + multiset{Guard(id, activity)},
            busyIds := if activity then s.busyIds + {id} else s.busyIds)
  }

  // The guard runs once; later calls of it do nothing.
  function PostEnd(s: State, g: Guard): State {
    if g !in s.posts then s
    else s.(t := EndRequest(s.t, g.id, g.activity, s.clock), posts := s.posts - multiset{g})
  }

  function StreamBegin(s: State, id: string): State {
    if !IsActive(s.t, id) then s else s.(t := BeginSSE(s.t, id), streams := s.streams + multiset{id})
  }

  function StreamEnd(s: State, id: string): State {
    if id !in s.streams then s else s.(t := EndSSE(s.t, id, s.clock), streams := s.streams - multiset{id})
  }

  // ----- cleanup

  function ClientDelete(s: State, id: string): State {
    if !Claimable(s.t, id) then s
    else s.(t := TryBeginExpiry(s.t, id, "client_delete"), jobs := s.jobs[id := Claimed])
  }

  function Eligible(t: Table, now: int): set<string> {
    set id | id in t.leases && ExpiryReason(t.b, t.leases[id], now) != ""
  }

  function PruneClaim(s: State): State {
    s.(t := ExpireEligible(s.t, s.clock), jobs := s.jobs + map id | id in Eligible(s.t, s.clock) :: Claimed)
  }

  predicate HasJob(s: State, id: string, job: Job) { id in s.jobs && s.jobs[id] == job }

  // The backend gate refused the cleanup request.
  function JobRefused(s: State, id: string): State {
    if !HasJob(s, id, Claimed) then s else s.(t := RestoreActive(s.t, id), jobs := s.jobs - {id})
  }

  // The cleanup request could not be built.
  function JobInvalid(s: State, id: string): State {
    if !HasJob(s, id, Claimed) then s
    else s.(t := MarkCleanupUncertain(s.t, id, "cleanup_request_invalid", s.clock), jobs := s.jobs - {id})
  }

  function JobDispatch(s: State, id: string): State {
    if !HasJob(s, id, Claimed) then s
    else s.(jobs := s.jobs[id := Dispatched], dispatched := s.dispatched + multiset{id})
  }

  // Success or 404: finalizeClose.
  function JobProved(s: State, id: string): State {
    if !HasJob(s, id, Dispatched) then s
    else s.(t := FinalizeClose(s.t, id, s.clock), gauge := if id in s.t.leases then s.gauge - 1 else s.gauge,
            jobs := s.jobs - {id})
  }

  // Transport error or any other status.
  function JobUncertain(s: State, id: string, reason: string): State {
    if !HasJob(s, id, Dispatched) then s
    else s.(t := MarkCleanupUncertain(s.t, id, reason, s.clock), jobs := s.jobs - {id})
  }

  // closeExpiredQuarantines: the leases close inside the locks, the gauge follows outside.
  ghost function QuarantineClose(s: State, order: seq<string>): State {
    if !Lists(order, Overdue(s.t, s.clock)) then s
    else s.(t := FinalizeEach(s.t, order, s.clock), owed := s.owed + |order|)
  }

  function QuarantineSettle(s: State): State {
    if s.owed == 0 then s else s.(owed := s.owed - 1, gauge := s.gauge - 1)
  }

  ghost function Invalidate(s: State, order: seq<string>, reason: string): State {
    if !Lists(order, s.t.leases.Keys) then s
    else s.(t := InvalidateAll(s.t, order, reason, s.clock), gauge := s.gauge - |s.t.leases|, epoch := s.epoch + 1)
  }

  // ----- runs

  datatype Action =
    | ATick(d: nat)
    | AInitReserve | AInitRefused(token: nat) | AInitAmbiguous(token: nat) | AInitAnswered(token: nat, id: string)
    | APostBegin(id: string, activity: bool) | APostEnd(g: Guard) | AStreamBegin(id: string) | AStreamEnd(id: string)
    | AClientDelete(id: string) | APruneClaim
    | AJobRefused(id: string) | AJobInvalid(id: string) | AJobDispatch(id: string) | AJobProved(id: string)
    | AJobUncertain(id: string, reason: string)
    | AQuarantineClose(order: seq<string>) | AQuarantineSettle | AInvalidate(order: seq<string>, reason: string)

  ghost function Step(s: State, a: Action): State {
    match a
    case ATick(d) => Tick(s, d)
    case AInitReserve => InitReserve(s)
    case AInitRefused(token) => InitRefused(s, token)
    case AInitAmbiguous(token) => InitAmbiguous(s, token)
    case AInitAnswered(token, id) => InitAnswered(s, token, id)
    case APostBegin(id, activity) => PostBegin(s, id, activity)
    case APostEnd(g) => PostEnd(s, g)
    case AStreamBegin(id) => StreamBegin(s, id)
    case AStreamEnd(id) => StreamEnd(s, id)
    case AClientDelete(id) => ClientDelete(s, id)
    case APruneClaim => PruneClaim(s)
    case AJobRefused(id) => JobRefused(s, id)
    case AJobInvalid(id) => JobInvalid(s, id)
    case AJobDispatch(id) => JobDispatch(s, id)
    case AJobProved(id) => JobProved(s, id)
    case AJobUncertain(id, reason) => JobUncertain(s, id, reason)
    case AQuarantineClose(order) => QuarantineClose(s, order)
    case AQuarantineSettle => QuarantineSettle(s)
    case AInvalidate(order, reason) => Invalidate(s, order, reason)
  }

  ghost function Run(s: State, run: seq<Action>): State
    decreases |run|
  {
    if run == [] then s else Run(Step(s, run[0]), run[1..])
  }

  ghost function Reached(b: Bounds, run: seq<Action>): State { Run(Init(b), run) }

  // ----- invariants

  // Reservations are exactly the undecided and ambiguous initializes of this epoch.
  ghost predicate InitInv(reservations: set<nat>, nextToken: nat, inits: map<nat, Initialize>, epoch: nat) {
    && (forall token <- inits :: 1 <= token <= nextToken && inits[token].epoch <= epoch)
    && (forall token :: token in reservations <==> token in inits && inits[token].epoch == epoch)
  }

  // A lease counts the requests and streams that are open on it, and remembers whether it ever
  // saw application activity.
  ghost predicate OpenInv(leases: map<string, Lease>, posts: multiset<Guard>, streams: multiset<string>, busy: set<string>) {
    && (forall id <- leases :: leases[id].everActive <==> id in busy)
    && (forall id <- leases :: leases[id].inFlight == posts[Guard(id, true)] + posts[Guard(id, false)])
    && (forall id <- leases :: leases[id].sse == streams[id])
  }

  // Everything that names a session names one that was committed.
  ghost predicate NamedInv(s: State) {
    && (forall id <- s.t.leases :: id in s.everIds)
    && (forall g <- s.posts :: g.id in s.everIds)
    && (forall id <- s.streams :: id in s.everIds)
    && (forall id <- s.jobs :: id in s.everIds)
    && (forall id <- s.dispatched :: id in s.everIds)
    && s.busyIds <= s.everIds
  }

  // The cleanup of a lease: who owns it and what it has sent.
  ghost predicate JobInv(leases: map<string, Lease>, jobs: map<string, Job>, dispatched: multiset<string>) {
    && (forall id: string :: dispatched[id] <= 1)
    && (forall id <- jobs :: dispatched[id] == if jobs[id] == Claimed then 0 else 1)
    && (forall id <- leases :: leases[id].state == Expiring <==> id in jobs)
    && (forall id <- leases :: leases[id].state != Active ==> leases[id].inFlight == 0)
    && (forall id <- leases :: leases[id].state == Active ==> dispatched[id] == 0)
  }

  ghost predicate Inv(s: State) {
    && TableInv(s.t, s.clock)
    && s.gauge == |s.t.leases| + s.owed
    && InitInv(s.t.reservations, s.t.nextToken, s.inits, s.epoch)
    && OpenInv(s.t.leases, s.posts, s.streams, s.busyIds)
    && NamedInv(s)
    && JobInv(s.t.leases, s.jobs, s.dispatched)
  }
}

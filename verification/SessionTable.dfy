/**
 The session table of internal/session/manager.go: a slot is reserved before the subprocess
 is connected and filled afterwards, while removals, the reaper and CloseAll run. Connections
 are numbered. Identifiers may be used again, also while an earlier SpawnSession for the same
 identifier still runs, its slot forgotten by CloseAll.
*/
module SessionTable {
  import opened Wrappers

  datatype Tracked = Tracked(conn: nat, createdAt: int, lastActivity: int)

  // `spawning` holds the reservations whose SpawnSession has not returned; `owner` says for
  // which identifier a connection was made, `taken` how often it was handed out to be closed,
  // `lost` how often it was overwritten or deleted by the end of another SpawnSession; `late`
  // counts the sessions stored after their reservation was forgotten; `crashed` says that
  // RemoveSession dereferenced a slot that was only reserved.
  datatype State = State(
    max: int, sessions: map<string, Option<Tracked>>, spawning: multiset<string>,
    nextConn: nat, owner: map<nat, string>, taken: multiset<nat>, lost: multiset<nat>, late: nat, crashed: bool)

  function Init(max: int): State { State(max, map[], multiset{}, 0, map[], multiset{}, multiset{}, 0, false) }

  predicate Full(s: State) { s.max > 0 && |s.sessions| >= s.max }

  function Reserve(s: State, id: string): State {
    if id in s.sessions || Full(s) then s
    else s.(sessions := s.sessions[id := None], spawning := s.spawning + multiset{id})
  }

  // The connection that leaves the table when slot id is overwritten or deleted.
  function Held(sessions: map<string, Option<Tracked>>, id: string): multiset<nat> {
    if id in sessions && sessions[id].Some? then multiset{sessions[id].value.conn} else multiset{}
  }

  function Abandon(s: State, id: string): State {
    if id !in s.spawning then s
    else s.(sessions := s.sessions - {id}, spawning := s.spawning - multiset{id}, lost := s.lost + Held(s.sessions, id))
  }

  function Store(s: State, id: string, now: int): State {
    if id !in s.spawning then s
    else s.(sessions := s.sessions[id := Some(Tracked(s.nextConn, now, now))], spawning := s.spawning - multiset{id},
            nextConn := s.nextConn + 1, owner := s.owner[s.nextConn := id], lost := s.lost + Held(s.sessions, id),
            late := if id in s.sessions then s.late else s.late + 1)
  }

  function Touch(s: State, id: string, now: int): State {
    if id !in s.sessions || s.sessions[id].None? then s
    else s.(sessions := s.sessions[id := Some(s.sessions[id].value.(lastActivity := now))])
  }

  // What RemoveSession, one round of the reaper and CloseAll take out.
  function Remove(s: State, id: string): State {
    if id !in s.sessions then s
    else s.(sessions := s.sessions - {id}, taken := s.taken + Held(s.sessions, id), crashed := s.crashed || s.sessions[id].None?)
  }

  predicate Expired(t: Tracked, idle: int, ttl: int, now: int) {
    (idle > 0 && now - t.lastActivity > idle) || (ttl > 0 && now - t.createdAt > ttl)
  }

  function Stale(sessions: map<string, Option<Tracked>>, idle: int, ttl: int, now: int): set<string> {
    set id | id in sessions && sessions[id].Some? && Expired(sessions[id].value, idle, ttl, now)
  }

  function Live(sessions: map<string, Option<Tracked>>): set<string> { set id | id in sessions && sessions[id].Some? }

  // The connections of the sessions named by `ids`, of which no two share one.
  function Conns(sessions: map<string, Option<Tracked>>, ids: set<string>): set<nat> {
    set id | id in ids && id in sessions && sessions[id].Some? :: sessions[id].value.conn
  }

  function Reap(s: State, idle: int, ttl: int, now: int): State {
    var gone := Stale(s.sessions, idle, ttl, now);
    s.(sessions := s.sessions - gone, taken := s.taken + multiset(Conns(s.sessions, gone)))
  }

  function CloseAll(s: State): State {
    s.(sessions := map[], taken := s.taken + multiset(Conns(s.sessions, Live(s.sessions))))
  }

  datatype Action =
    | AReserve(id: string) | AAbandon(id: string) | AStore(id: string, now: int) | ATouch(id: string, now: int)
    | ARemove(id: string) | AReap(idle: int, ttl: int, now: int) | ACloseAll

  function Step(s: State, a: Action): State {
    match a
    case AReserve(id) => Reserve(s, id)
    case AAbandon(id) => Abandon(s, id)
    case AStore(id, now) => Store(s, id, now)
    case ATouch(id, now) => Touch(s, id, now)
    case ARemove(id) => Remove(s, id)
    case AReap(idle, ttl, now) => Reap(s, idle, ttl, now)
    case ACloseAll => CloseAll(s)
  }

  function Run(s: State, run: seq<Action>): State
    decreases |run|
  {
    if run == [] then s else Run(Step(s, run[0]), run[1..])
  }

  // ----- invariants

  ghost predicate SlotInv(s: State) { forall id <- s.sessions :: s.sessions[id].None? ==> id in s.spawning }

  predicate Holds(sessions: map<string, Option<Tracked>>, id: string, conn: nat) {
    id in sessions && sessions[id].Some? && sessions[id].value.conn == conn
  }

  // Every connection ever made is in the table under its owner, or went away once; never both
  // and never neither.
  ghost predicate ConnInv(sessions: map<string, Option<Tracked>>, nextConn: nat, owner: map<nat, string>, away: multiset<nat>) {
    && (forall conn: nat :: conn in owner <==> conn < nextConn)
    && (forall id <- sessions :: sessions[id].Some? ==>
          sessions[id].value.conn in owner && owner[sessions[id].value.conn] == id)
    && (forall conn: nat :: away[conn] == if conn in owner && !Holds(sessions, owner[conn], conn) then 1 else 0)
  }

  predicate LimitInv(s: State) { s.max > 0 ==> |s.sessions| <= s.max + s.late }

  ghost predicate Inv(s: State) { SlotInv(s) && ConnInv(s.sessions, s.nextConn, s.owner, s.taken + s.lost) && LimitInv(s) }

  // Taking live sessions out of the table.
  lemma TakeKeeps(sessions: map<string, Option<Tracked>>, nextConn: nat, owner: map<nat, string>, away: multiset<nat>,
                  gone: set<string>, after: map<string, Option<Tracked>>)
    requires ConnInv(sessions, nextConn, owner, away)
    requires forall id <- sessions :: sessions[id].Some? ==> (id in after <==> id !in gone)
    requires forall id <- after :: id in sessions && after[id] == sessions[id]
    ensures ConnInv(after, nextConn, owner, away + multiset(Conns(sessions, gone)))
  {
    forall conn: nat | conn in owner
      ensures conn in Conns(sessions, gone) <==> Holds(sessions, owner[conn], conn) && owner[conn] in gone
    {
      if Holds(sessions, owner[conn], conn) && owner[conn] in gone {
        assert sessions[owner[conn]].value.conn == conn;
      }
    }
  }

  lemma Fewer(sessions: map<string, Option<Tracked>>, after: map<string, Option<Tracked>>)
    requires forall id <- after :: id in sessions
    ensures |after| <= |sessions|
  {
    assert after.Keys <= sessions.Keys;
    SubsetSize(after.Keys, sessions.Keys);
  }

  lemma {:induction false} SubsetSize(a: set<string>, b: set<string>)
    requires a <= b
    ensures |a| <= |b|
  {
    if a != {} {
      var x :| x in a;
      SubsetSize(a - {x}, b - {x});
    }
  }

  lemma ReserveKeeps(s: State, id: string)
    requires Inv(s)
    ensures Inv(Reserve(s, id))
  {
  }

  // One slot deleted.
  lemma DropKeeps(s: State, id: string)
    requires Inv(s) && id in s.sessions
    ensures ConnInv(s.sessions - {id}, s.nextConn, s.owner, s.taken + s.lost + Held(s.sessions, id))
    ensures |s.sessions - {id}| < |s.sessions|
  {
    TakeKeeps(s.sessions, s.nextConn, s.owner, s.taken + s.lost, {id}, s.sessions - {id});
    assert multiset(Conns(s.sessions, {id})) == Held(s.sessions, id) by {
      assert Conns(s.sessions, {id}) == if s.sessions[id].Some? then {s.sessions[id].value.conn} else {};
    }
    assert s.sessions.Keys == (s.sessions - {id}).Keys + {id};
  }

  lemma AbandonKeeps(s: State, id: string)
    requires Inv(s)
    ensures Inv(Abandon(s, id))
  {
    hide ConnInv, Held;
    if id in s.spawning {
      if id in s.sessions {
        DropKeeps(s, id);
        LostAway(s, id);
      } else {
        NothingHeld(s, id);
      }
    }
  }

  lemma NothingHeld(s: State, id: string)
    requires id !in s.sessions
    ensures s.lost + Held(s.sessions, id) == s.lost && s.sessions - {id} == s.sessions
  {
  }

  lemma LostAway(s: State, id: string)
    ensures s.taken + (s.lost + Held(s.sessions, id)) == s.taken + s.lost + Held(s.sessions, id)
    ensures s.taken + Held(s.sessions, id) + s.lost == s.taken + s.lost + Held(s.sessions, id)
  {
    hide Held;
  }

  lemma StoreKeeps(s: State, id: string, now: int)
    requires Inv(s)
    ensures Inv(Store(s, id, now))
  {
    hide ConnInv;
    if id in s.spawning {
      StoreKeepsConns(s, id, now);
      SlotRefilled(s.sessions, id, Some(Tracked(s.nextConn, now, now)));
    }
  }

  lemma StoreKeepsConns(s: State, id: string, now: int)
    requires Inv(s) && id in s.spawning
    ensures var u := Store(s, id, now); ConnInv(u.sessions, u.nextConn, u.owner, u.taken + u.lost)
  {
    hide ConnInv, Held;
    if id in s.sessions {
      DropKeeps(s, id);
      LostAway(s, id);
      StoreFills(s.sessions - {id}, s.nextConn, s.owner, s.taken + s.lost + Held(s.sessions, id), id, now);
      SlotRefilled(s.sessions, id, Some(Tracked(s.nextConn, now, now)));
    } else {
      NothingHeld(s, id);
      StoreFills(s.sessions, s.nextConn, s.owner, s.taken + s.lost, id, now);
    }
  }

  lemma SlotRefilled(sessions: map<string, Option<Tracked>>, id: string, filled: Option<Tracked>)
    ensures (sessions - {id})[id := filled] == sessions[id := filled]
    ensures |sessions[id := filled]| == |sessions| + if id in sessions then 0 else 1
  {
    assert sessions[id := filled].Keys == sessions.Keys + {id};
  }

  lemma StoreFills(sessions: map<string, Option<Tracked>>, nextConn: nat, owner: map<nat, string>, away: multiset<nat>,
                   id: string, now: int)
    requires ConnInv(sessions, nextConn, owner, away) && id !in sessions
    ensures ConnInv(sessions[id := Some(Tracked(nextConn, now, now))], nextConn + 1, owner[nextConn := id], away)
  {
    assert nextConn !in owner;
  }

  lemma TouchKeeps(s: State, id: string, now: int)
    requires Inv(s)
    ensures Inv(Touch(s, id, now))
  {
    if id in s.sessions && s.sessions[id].Some? {
      assert Touch(s, id, now).sessions.Keys == s.sessions.Keys;
    }
  }

  lemma RemoveKeeps(s: State, id: string)
    requires Inv(s)
    ensures Inv(Remove(s, id))
  {
    if id in s.sessions {
      DropKeeps(s, id);
      LostAway(s, id);
    }
  }

  lemma ReapKeeps(s: State, idle: int, ttl: int, now: int)
    requires Inv(s)
    ensures Inv(Reap(s, idle, ttl, now)) && Inv(CloseAll(s))
  {
    hide Inv, Stale, Conns;
    var gone := Stale(s.sessions, idle, ttl, now);
    TakeMany(s, gone, s.sessions - gone);
    TakeMany(s, Live(s.sessions), map[]);
  }

  lemma TakeMany(s: State, gone: set<string>, after: map<string, Option<Tracked>>)
    requires Inv(s)
    requires forall id <- s.sessions :: s.sessions[id].Some? ==> (id in after <==> id !in gone)
    requires forall id <- after :: id in s.sessions && after[id] == s.sessions[id]
    ensures Inv(s.(sessions := after, taken := s.taken + multiset(Conns(s.sessions, gone))))
  {
    var conns := multiset(Conns(s.sessions, gone));
    TakeKeeps(s.sessions, s.nextConn, s.owner, s.taken + s.lost, gone, after);
    assert s.taken + conns + s.lost == s.taken + s.lost + conns;
    Fewer(s.sessions, after);
  }

  lemma StepKeeps(s: State, a: Action)
    requires Inv(s)
    ensures Inv(Step(s, a))
  {
    hide Inv;
    match a
    case AReserve(id) => ReserveKeeps(s, id);
    case AAbandon(id) => AbandonKeeps(s, id);
    case AStore(id, now) => StoreKeeps(s, id, now);
    case ATouch(id, now) => TouchKeeps(s, id, now);
    case ARemove(id) => RemoveKeeps(s, id);
    case AReap(idle, ttl, now) => ReapKeeps(s, idle, ttl, now);
    case ACloseAll => ReapKeeps(s, 0, 0, 0);
  }

  lemma {:induction false} RunKeeps(s: State, run: seq<Action>)
    requires Inv(s)
    ensures Inv(Run(s, run)) && Run(s, run).max == s.max
    decreases |run|
  {
    hide Inv;
    if run != [] {
      StepKeeps(s, run[0]);
      RunKeeps(Step(s, run[0]), run[1..]);
    }
  }

  // Every connection ever stored is still in the table, under the identifier it was made for,
  // or was handed out to be closed exactly once, or was lost exactly once.
  lemma ConnectionsAreConserved(max: int, run: seq<Action>, conn: nat)
    requires conn < Run(Init(max), run).nextConn
    ensures var s := Run(Init(max), run);
            && conn in s.owner
            && s.taken[conn] + s.lost[conn] == if Holds(s.sessions, s.owner[conn], conn) then 0 else 1
  {
    RunKeeps(Init(max), run);
  }

  lemma {:induction false} RunConcat(s: State, first: seq<Action>, second: seq<Action>)
    ensures Run(s, first + second) == Run(Run(s, first), second)
    decreases |first|
  {
    if first == [] {
      assert first + second == second;
    } else {
      assert (first + second)[1..] == first[1..] + second;
      RunConcat(Step(s, first[0]), first[1..], second);
    }
  }

  lemma RunSplits(s: State, run: seq<Action>)
    requires run != []
    ensures Run(s, run) == Step(Run(s, run[..|run| - 1]), run[|run| - 1])
  {
    var last := run[|run| - 1];
    assert run == run[..|run| - 1] + [last];
    RunConcat(s, run[..|run| - 1], [last]);
    assert Run(Run(s, run[..|run| - 1]), [last]) == Step(Run(s, run[..|run| - 1]), last);
  }

  // ----- connections that are lost

  // Two SpawnSession calls for one identifier run at once.
  ghost predicate Doubled(s: State) { exists id: string :: s.spawning[id] > 1 }

  // Nothing is lost as long as that never happens, in particular when identifiers are fresh.
  lemma {:induction false} NothingIsLost(max: int, run: seq<Action>)
    requires forall k :: 0 <= k <= |run| ==> !Doubled(Run(Init(max), run[..k]))
    ensures var s := Run(Init(max), run);
            s.lost == multiset{} && forall id <- s.spawning :: id in s.sessions ==> s.sessions[id].None?
    decreases |run|
  {
    assert run[..|run|] == run;
    if run != [] {
      var shorter := run[..|run| - 1];
      forall k | 0 <= k <= |shorter| ensures !Doubled(Run(Init(max), shorter[..k])) {
        assert shorter[..k] == run[..k];
      }
      NothingIsLost(max, shorter);
      RunSplits(Init(max), run);
      NothingIsLostStep(Run(Init(max), shorter), run[|run| - 1]);
    }
  }

  lemma NothingIsLostStep(s: State, a: Action)
    requires s.lost == multiset{} && !Doubled(s) && !Doubled(Step(s, a))
    requires forall id <- s.spawning :: id in s.sessions ==> s.sessions[id].None?
    ensures var u := Step(s, a);
            u.lost == multiset{} && forall id <- u.spawning :: id in u.sessions ==> u.sessions[id].None?
  {
    assert forall id: string :: s.spawning[id] <= 1 && Step(s, a).spawning[id] <= 1;
  }

  // From every state in which it has happened, some continuation loses a connection: both
  // calls store, and the second overwrites the first.
  lemma DoubledSpawnLosesAConnection(max: int, run: seq<Action>)
    requires Doubled(Run(Init(max), run))
    ensures exists more :: Run(Init(max), run + more).lost != multiset{}
  {
    var s := Run(Init(max), run);
    var id: string :| s.spawning[id] > 1;
    var more := [AStore(id, 0), AStore(id, 0)];
    RunConcat(Init(max), run, more);
    hide Store, Doubled;
    RunTwo(s, AStore(id, 0), AStore(id, 0));
    SecondStoreOverwrites(s, id);
  }

  lemma RunTwo(s: State, a: Action, b: Action)
    ensures Run(s, [a, b]) == Step(Step(s, a), b)
  {
    hide Step;
    assert [a, b][1..] == [b];
    assert Run(Step(s, a), [b]) == Step(Step(s, a), b);
  }

  lemma SecondStoreOverwrites(s: State, id: string)
    requires s.spawning[id] > 1
    ensures s.nextConn in Store(Store(s, id, 0), id, 0).lost
  {
  }

  // ----- the limit

  // The reservation of a SpawnSession that still runs is gone.
  ghost predicate Forgotten(s: State) { exists id <- s.spawning :: id !in s.sessions }

  // The table exceeds its limit by no more sessions than were stored after their reservation
  // was forgotten; as long as no reservation is forgotten, by none.
  lemma LimitIsKept(max: int, run: seq<Action>)
    requires max > 0
    ensures |Run(Init(max), run).sessions| <= max + Run(Init(max), run).late
    ensures (forall k :: 0 <= k <= |run| ==> !Forgotten(Run(Init(max), run[..k]))) ==> |Run(Init(max), run).sessions| <= max
  {
    RunKeeps(Init(max), run);
    if forall k :: 0 <= k <= |run| ==> !Forgotten(Run(Init(max), run[..k])) {
      NothingIsLate(max, run);
    }
  }

  lemma {:induction false} NothingIsLate(max: int, run: seq<Action>)
    requires forall k :: 0 <= k <= |run| ==> !Forgotten(Run(Init(max), run[..k]))
    ensures Run(Init(max), run).late == 0
    decreases |run|
  {
    hide Forgotten, Step;
    if run != [] {
      var shorter := run[..|run| - 1];
      forall k | 0 <= k <= |shorter| ensures !Forgotten(Run(Init(max), shorter[..k])) {
        assert shorter[..k] == run[..k];
      }
      NothingIsLate(max, shorter);
      RunSplits(Init(max), run);
      assert !Forgotten(Run(Init(max), run[..|shorter|]));
      NothingIsLateStep(Run(Init(max), shorter), run[|run| - 1]);
    }
  }

  lemma NothingIsLateStep(s: State, a: Action)
    requires !Forgotten(s)
    ensures Step(s, a).late == s.late
  {
  }

  // The condition is exact: from every reachable state in which a reservation is forgotten,
  // some continuation ends above the limit.
  lemma ForgottenSpawnBreaksTheLimit(max: int, run: seq<Action>)
    requires max > 0 && Forgotten(Run(Init(max), run))
    ensures exists more :: |Run(Init(max), run + more).sessions| > max
  {
    var s := Run(Init(max), run);
    RunKeeps(Init(max), run);
    var id :| id in s.spawning && id !in s.sessions;
    var more := FillUp(s, id);
    RunConcat(Init(max), run, more);
  }

  lemma {:induction false} FillUp(s: State, id: string) returns (run: seq<Action>)
    requires s.max > 0 && id in s.spawning && id !in s.sessions
    ensures |Run(s, run).sessions| > s.max
    decreases s.max - |s.sessions|
  {
    if Full(s) {
      run := [AStore(id, 0)];
      assert Run(s, run) == Store(s, id, 0);
      assert Store(s, id, 0).sessions.Keys == s.sessions.Keys + {id};
    } else {
      var name := FreshName(s.sessions.Keys + {id});
      var u := Reserve(s, name);
      assert u.sessions.Keys == s.sessions.Keys + {name};
      var rest := FillUp(u, id);
      run := [AReserve(name)] + rest;
      assert run[1..] == rest;
    }
  }

  lemma FreshName(used: set<string>) returns (name: string)
    ensures name !in used
  {
    var n := LongerThanAll(used);
    name := seq(n, _ => 'x');
  }

  lemma {:induction false} LongerThanAll(used: set<string>) returns (n: nat)
    ensures forall name <- used :: |name| < n
  {
    if used == {} {
      n := 0;
    } else {
      var name :| name in used;
      n := LongerThanAll(used - {name});
      n := if |name| < n then n else |name| + 1;
    }
  }

  // It happens when CloseAll runs during a spawn.
  lemma LimitCanBeExceeded()
    ensures exists run :: |Run(Init(1), run).sessions| > 1
  {
    var run := [AReserve("a"), ACloseAll];
    assert run[1..] == [ACloseAll] && run[1..][1..] == [];
    var s := CloseAll(Reserve(Init(1), "a"));
    assert Run(Init(1), run) == s;
    assert "a" in s.spawning && "a" !in s.sessions;
    ForgottenSpawnBreaksTheLimit(1, run);
  }

  // ----- what each operation leads to

  // A session is spawned exactly if its identifier is free and the limit, if there is one, is
  // not reached; it then has a connection of its own, and the other sessions are as before.
  lemma SpawnedExactlyWhen(s: State, id: string, now: int)
    requires id !in s.spawning
    ensures var u := Run(s, [AReserve(id), AStore(id, now)]);
            if id !in s.sessions && (s.max <= 0 || |s.sessions| < s.max) then
              && u.sessions == s.sessions[id := Some(Tracked(s.nextConn, now, now))]
              && u.nextConn == s.nextConn + 1 && u.owner == s.owner[s.nextConn := id] && u.spawning == s.spawning
              && u.taken == s.taken && u.lost == s.lost && u.late == s.late
            else u == s
  {
    RunTwo(s, AReserve(id), AStore(id, now));
    if id !in s.sessions && (s.max <= 0 || |s.sessions| < s.max) {
      assert s.sessions[id := None][id := Some(Tracked(s.nextConn, now, now))] == s.sessions[id := Some(Tracked(s.nextConn, now, now))];
      assert s.spawning + multiset{id} - multiset{id} == s.spawning;
    }
  }

  // A connection that cannot be had leaves the table as it was.
  lemma FailedSpawnChangesNothing(s: State, id: string)
    requires id !in s.spawning
    ensures Run(s, [AReserve(id), AAbandon(id)]) == s
  {
    RunTwo(s, AReserve(id), AAbandon(id));
    hide Run;
    if id !in s.sessions && !Full(s) {
      SlotIsGivenBack(s, id);
    }
  }

  lemma SlotIsGivenBack(s: State, id: string)
    requires id !in s.sessions
    ensures Abandon(s.(sessions := s.sessions[id := None], spawning := s.spawning + multiset{id}), id) == s
  {
    assert s.sessions[id := None] - {id} == s.sessions;
    assert s.spawning + multiset{id} - multiset{id} == s.spawning;
    assert s.lost + Held(s.sessions[id := None], id) == s.lost;
  }

  // The reaper takes a session exactly if it has been idle longer than the one limit or has
  // lived longer than the other; a touch starts the idle time anew, but not the lifetime.
  lemma ReapedExactlyWhen(s: State, id: string, touched: int, idle: int, ttl: int, now: int)
    requires id in s.sessions && s.sessions[id].Some?
    ensures var u := Step(s, AReap(idle, ttl, now));
            && (id !in u.sessions <==>
                  (idle > 0 && now - s.sessions[id].value.lastActivity > idle) || (ttl > 0 && now - s.sessions[id].value.createdAt > ttl))
            && (id in u.sessions ==> u.sessions[id] == s.sessions[id])
            && (id !in u.sessions ==> u.taken[s.sessions[id].value.conn] == s.taken[s.sessions[id].value.conn] + 1)
    ensures var u := Run(s, [ATouch(id, touched), AReap(idle, ttl, now)]);
            id !in u.sessions <==> (idle > 0 && now - touched > idle) || (ttl > 0 && now - s.sessions[id].value.createdAt > ttl)
  {
    RunTwo(s, ATouch(id, touched), AReap(idle, ttl, now));
    ReapTakes(s, id, idle, ttl, now);
    ReapTakes(Touch(s, id, touched), id, idle, ttl, now);
  }

  lemma ReapTakes(s: State, id: string, idle: int, ttl: int, now: int)
    requires id in s.sessions && s.sessions[id].Some?
    ensures var u := Reap(s, idle, ttl, now);
            && (id !in u.sessions <==>
                  (idle > 0 && now - s.sessions[id].value.lastActivity > idle) || (ttl > 0 && now - s.sessions[id].value.createdAt > ttl))
            && (id in u.sessions ==> u.sessions[id] == s.sessions[id])
            && (id !in u.sessions ==> u.taken[s.sessions[id].value.conn] == s.taken[s.sessions[id].value.conn] + 1)
  {
    var gone := Stale(s.sessions, idle, ttl, now);
    if id in gone {
      assert s.sessions[id].value.conn in Conns(s.sessions, gone);
    }
  }

  // Removing a session hands its connection out and leaves the others.
  lemma RemovedIsHandedOut(s: State, id: string)
    requires id in s.sessions && s.sessions[id].Some?
    ensures var u := Step(s, ARemove(id));
            u == s.(sessions := s.sessions - {id}, taken := s.taken + multiset{s.sessions[id].value.conn})
  {
  }

  // CloseAll empties the table and hands every connection in it out.
  lemma CloseAllHandsOutEverything(s: State, id: string)
    requires id in s.sessions && s.sessions[id].Some?
    ensures var u := Step(s, ACloseAll);
            u.sessions == map[] && u.taken[s.sessions[id].value.conn] == s.taken[s.sessions[id].value.conn] + 1
  {
    assert s.sessions[id].value.conn in Conns(s.sessions, Live(s.sessions));
  }

  // ----- the manager with its table

  lemma StoreFields(s: State, id: string, now: int)
    requires id in s.spawning
    ensures var u := Store(s, id, now);
            && u.sessions == s.sessions[id := Some(Tracked(s.nextConn, now, now))] && u.nextConn == s.nextConn + 1
            && u.max == s.max && u.taken == s.taken && u.crashed == s.crashed
  {
    hide Held;
  }

  datatype Removal = NotFound | NilDereference | Removed(conn: nat)

  class Manager {
    const max: int
    var sessions: map<string, Option<Tracked>>

    ghost var spawning: multiset<string>
    var nextConn: nat
    ghost var owner: map<nat, string>
    ghost var taken: multiset<nat>
    ghost var lost: multiset<nat>
    ghost var late: nat
    ghost var crashed: bool

    ghost function View(): State
      reads this
    {
      State(max, sessions, spawning, nextConn, owner, taken, lost, late, crashed)
    }

    ghost predicate Valid()
      reads this
    {
      Inv(View())
    }

    constructor (max: int)
      ensures Valid() && View() == Init(max)
    {
      this.max, sessions, spawning, nextConn := max, map[], multiset{}, 0;
      owner, taken, lost, late, crashed := map[], multiset{}, multiset{}, 0, false;
    }

    // SpawnSession up to the reservation.
    method ReserveSlot(id: string) returns (ok: bool)
      requires Valid()
      modifies this
      ensures Valid() && View() == Reserve(old(View()), id)
      ensures ok <==> id !in old(sessions) && !Full(old(View()))
    {
      hide Inv;
      ReserveKeeps(View(), id);
      if id in sessions {
        return false;
      }
      if max > 0 && |sessions| >= max {
        return false;
      }
      sessions := sessions[id := None];
      spawning := spawning + multiset{id};
      return true;
    }

    // Its end, with and without a connection.
    method StoreTracked(id: string, now: int)
      requires Valid() && id in spawning
      modifies this
      ensures Valid() && View() == Store(old(View()), id, now)
    {
      hide Inv, Store;
      StoreKeeps(View(), id, now);
      StoreFields(View(), id, now);
      ghost var after := Store(View(), id, now);
      var tracked := Tracked(nextConn, now, now);
      sessions := sessions[id := Some(tracked)];
      nextConn := nextConn + 1;
      spawning, owner, lost, late := after.spawning, after.owner, after.lost, after.late;
    }

    method AbandonSlot(id: string)
      requires Valid() && id in spawning
      modifies this
      ensures Valid() && View() == Abandon(old(View()), id)
    {
      hide Inv;
      AbandonKeeps(View(), id);
      lost := lost + Held(sessions, id);
      sessions := sessions - {id};
      spawning := spawning - multiset{id};
    }

    // What GetSession answers is the session made for this identifier, and nobody has been
    // told to close its connection; it answers nil for a slot that is only reserved.
    method GetSession(id: string) returns (tracked: Option<Tracked>)
      requires Valid()
      ensures tracked.Some? <==> id in Live(sessions)
      ensures tracked.Some? ==>
                var conn := tracked.value.conn;
                conn in owner && owner[conn] == id && taken[conn] == 0 && lost[conn] == 0
    {
      tracked := if id in sessions then sessions[id] else None;
      assert tracked.Some? ==> Holds(sessions, id, tracked.value.conn) && (taken + lost)[tracked.value.conn] == 0;
    }

    // RemoveSession: the connection it returns is closed outside the lock. A slot that is
    // only reserved is deleted all the same, and then the nil in it is dereferenced.
    method RemoveSession(id: string) returns (outcome: Removal)
      requires Valid()
      modifies this
      ensures Valid() && View() == Remove(old(View()), id)
      ensures outcome == if id !in old(sessions) then NotFound
                         else if old(sessions)[id].None? then NilDereference
                         else Removed(old(sessions)[id].value.conn)
      ensures crashed <==> old(crashed) || outcome == NilDereference
    {
      hide Inv;
      RemoveKeeps(View(), id);
      if id !in sessions {
        return NotFound;
      }
      var tracked := sessions[id];
      taken := taken + Held(sessions, id);
      sessions := sessions - {id};
      crashed := crashed || tracked.None?;
      return if tracked.None? then NilDereference else Removed(tracked.value.conn);
    }

    // Exactly the expired sessions leave the table; slots that are only reserved stay.
    method ReapExpiredSessions(idle: int, ttl: int, now: int) returns (toRemove: set<nat>)
      requires Valid()
      modifies this
      ensures Valid() && View() == Reap(old(View()), idle, ttl, now)
      ensures toRemove == Conns(old(sessions), Stale(old(sessions), idle, ttl, now))
    {
      hide Inv;
      ReapKeeps(View(), idle, ttl, now);
      ghost var before := sessions;
      toRemove, sessions := ReapLoop(sessions, idle, ttl, now);
      assert toRemove == Conns(before, Stale(before, idle, ttl, now));
      taken := taken + multiset(toRemove);
    }

    method CloseEverything() returns (toClose: set<nat>)
      requires Valid()
      modifies this
      ensures Valid() && View() == CloseAll(old(View())) && toClose == Conns(old(sessions), Live(old(sessions)))
    {
      hide Inv;
      ReapKeeps(View(), 0, 0, 0);
      toClose := LiveConns(sessions);
      sessions := map[];
      taken := taken + multiset(toClose);
    }
  }

  method ReapLoop(sessions: map<string, Option<Tracked>>, idle: int, ttl: int, now: int)
    returns (toRemove: set<nat>, left: map<string, Option<Tracked>>)
    ensures left == sessions - Stale(sessions, idle, ttl, now)
    ensures toRemove == Conns(sessions, Stale(sessions, idle, ttl, now))
  {
    toRemove, left := {}, sessions;
    var todo := sessions.Keys;
    ghost var gone: set<string> := {};
    while todo != {}
      invariant todo <= sessions.Keys
      invariant forall id :: id in gone <==> id in Stale(sessions, idle, ttl, now) && id !in todo
      invariant forall id :: id in left <==> id in sessions && id !in gone
      invariant forall id <- left :: left[id] == sessions[id]
      invariant toRemove == Conns(sessions, gone)
      decreases |todo|
    {
      var id :| id in todo;
      todo := todo - {id};
      var tracked := sessions[id];
      if tracked.Some? {
        var expired := false;
        if idle > 0 && now - tracked.value.lastActivity > idle {
          expired := true;
        }
        if ttl > 0 && now - tracked.value.createdAt > ttl {
          expired := true;
        }
        if expired {
          toRemove := toRemove + {tracked.value.conn};
          left := left - {id};
          assert Conns(sessions, gone + {id}) == Conns(sessions, gone) + {tracked.value.conn};
          gone := gone + {id};
        }
      }
    }
    assert gone == Stale(sessions, idle, ttl, now);
  }

  method LiveConns(sessions: map<string, Option<Tracked>>) returns (conns: set<nat>)
    ensures conns == Conns(sessions, Live(sessions))
  {
    conns := {};
    var todo := sessions.Keys;
    ghost var done: set<string> := {};
    while todo != {}
      invariant todo <= sessions.Keys
      invariant forall id :: id in done <==> id in Live(sessions) && id !in todo
      invariant conns == Conns(sessions, done)
      decreases |todo|
    {
      var id :| id in todo;
      todo := todo - {id};
      if sessions[id].Some? {
        conns := conns + {sessions[id].value.conn};
        assert Conns(sessions, done + {id}) == Conns(sessions, done) + {sessions[id].value.conn};
        done := done + {id};
      }
    }
    assert done == Live(sessions);
  }
}

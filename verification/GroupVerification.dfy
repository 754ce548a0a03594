/**
 VerifyGroup of internal/ownership/proc.go: what the process table must answer for a process
 group to count as owned, dead, somebody else's, or unknown. It acts on nothing. Hash values
 stand for what is hashed; what the reader answers is a parameter.
*/
module GroupVerification {
  import opened Wrappers

  const SCHEMA_VERSION := 1

  datatype Answer<+T> = Ok(value: T) | Failed

  datatype ProcStat = ProcStat(pid: int, pgrp: int, startTime: int)

  datatype Lease = Lease(
    version: int, generation: nat, daemonID: string, tokenHash: string, configHash: string,
    leaderPID: int, leaderPGID: int, leaderStart: int, bootID: string, executable: string)

  // One member of the group: its stat, and the hash of the owner token in its environment,
  // None if the variable is missing or empty.
  datatype Member = Member(pid: int, stat: Answer<ProcStat>, token: Answer<Option<string>>)

  // Everything one verification reads. The leader's stat is read again when the leader is
  // met among the members, and may have changed.
  datatype Answers = Answers(
    boot: Answer<string>, leader: Answer<ProcStat>, exe: Answer<string>, members: Answer<seq<Member>>)

  datatype GroupStatus = Owned | Dead | Conflict | Unknown

  predicate Complete(lease: Lease) { lease.version == SCHEMA_VERSION && lease.tokenHash != "" && lease.configHash != "" }

  predicate IsLeader(lease: Lease, s: ProcStat) {
    s.pid == lease.leaderPID && s.pgrp == lease.leaderPGID && s.startTime == lease.leaderStart
  }

  predicate SameExecutable(lease: Lease, exe: string) { lease.executable == "" || exe == lease.executable }

  // A member that proves it belongs to the lease's generation of the group.
  predicate Proven(lease: Lease, m: Member) {
    && m.stat.Ok? && m.stat.value.pid == m.pid && m.stat.value.pgrp == lease.leaderPGID
    && m.stat.value.startTime >= lease.leaderStart
    && m.token == Ok(Some(lease.tokenHash))
  }

  // Why a member does not prove it: Unknown if something could not be read, Conflict if what
  // was read belongs to somebody else.
  function Objection(lease: Lease, m: Member): Option<GroupStatus> {
    if m.stat.Failed? then Some(Unknown)
    else if m.stat.value.pid != m.pid || m.stat.value.pgrp != lease.leaderPGID then Some(Conflict)
    else if m.stat.value.startTime < lease.leaderStart then Some(Conflict)
    else if m.token.Failed? then Some(Unknown)
    else if m.token.value != Some(lease.tokenHash) then Some(Conflict)
    else None
  }

  lemma ProvenUnlessObjection(lease: Lease, m: Member)
    ensures Proven(lease, m) <==> Objection(lease, m).None?
  {
  }

  // The first objection among the members decides.
  function FirstObjection(lease: Lease, members: seq<Member>): Option<GroupStatus> {
    if members == [] then None
    else if Objection(lease, members[0]).Some? then Objection(lease, members[0])
    else FirstObjection(lease, members[1..])
  }

  predicate HasPID(members: seq<Member>, pid: int) { exists i :: 0 <= i < |members| && members[i].pid == pid }

  // Some(status) if the live leader already decides.
  function LeaderObjection(lease: Lease, a: Answers): Option<GroupStatus> {
    if a.leader.Failed? then None
    else if !IsLeader(lease, a.leader.value) then Some(Conflict)
    else if a.exe.Failed? then Some(Unknown)
    else if !SameExecutable(lease, a.exe.value) then Some(Conflict)
    else None
  }

  function MembersVerdict(lease: Lease, a: Answers): GroupStatus {
    if a.members.Failed? then Unknown
    else if a.members.value == [] then (if a.leader.Ok? then Unknown else Dead)
    else if FirstObjection(lease, a.members.value).Some? then FirstObjection(lease, a.members.value).value
    else if a.leader.Ok? && !HasPID(a.members.value, lease.leaderPID) then Conflict
    else Owned
  }

  function Verdict(a: Answers, lease: Lease, configHash: string): GroupStatus {
    if !Complete(lease) || a.boot != Ok(lease.bootID) then Unknown
    else if configHash != lease.configHash then Conflict
    else if LeaderObjection(lease, a).Some? then LeaderObjection(lease, a).value
    else MembersVerdict(lease, a)
  }

  lemma {:induction false} NoObjectionMeansProven(lease: Lease, members: seq<Member>)
    ensures FirstObjection(lease, members).None? <==> forall i :: 0 <= i < |members| ==> Proven(lease, members[i])
    ensures FirstObjection(lease, members) in {None, Some(Unknown), Some(Conflict)}
  {
    if members != [] {
      ProvenUnlessObjection(lease, members[0]);
      NoObjectionMeansProven(lease, members[1..]);
      assert forall i :: 1 <= i < |members| ==> members[i] == members[1..][i - 1];
    }
  }

  // The group is owned exactly when everything could be read and everything agrees: boot,
  // configuration, the leader if it is alive, and every member down to its token; and a live
  // leader is one of the members.
  lemma OwnedExactlyWhen(a: Answers, lease: Lease, configHash: string)
    ensures Verdict(a, lease, configHash) == Owned <==>
              && lease.version == 1 && lease.tokenHash != "" && lease.configHash != ""
              && a.boot == Ok(lease.bootID) && configHash == lease.configHash
              && (a.leader.Ok? ==> IsLeader(lease, a.leader.value) && a.exe.Ok? && SameExecutable(lease, a.exe.value))
              && a.members.Ok? && a.members.value != []
              && (forall i :: 0 <= i < |a.members.value| ==> Proven(lease, a.members.value[i]))
              && (a.leader.Ok? ==> HasPID(a.members.value, lease.leaderPID))
  {
    if a.members.Ok? {
      NoObjectionMeansProven(lease, a.members.value);
    }
  }

  // The group is dead exactly when this boot's process table has neither leader nor members.
  lemma DeadExactlyWhen(a: Answers, lease: Lease, configHash: string)
    ensures Verdict(a, lease, configHash) == Dead <==>
              && lease.version == 1 && lease.tokenHash != "" && lease.configHash != ""
              && a.boot == Ok(lease.bootID) && configHash == lease.configHash
              && a.leader.Failed? && a.members == Ok([])
  {
    if a.members.Ok? {
      NoObjectionMeansProven(lease, a.members.value);
    }
  }

  // A member that could be read and belongs to somebody else.
  predicate Foreign(lease: Lease, m: Member) {
    m.stat.Ok? &&
    (|| m.stat.value.pid != m.pid || m.stat.value.pgrp != lease.leaderPGID
     || m.stat.value.startTime < lease.leaderStart
     || (m.token.Ok? && m.token.value != Some(lease.tokenHash)))
  }

  // The first member that does not prove itself is foreign.
  ghost predicate ForeignFirst(lease: Lease, members: seq<Member>) {
    exists i :: 0 <= i < |members| && Foreign(lease, members[i]) && forall j :: 0 <= j < i ==> Proven(lease, members[j])
  }

  lemma {:induction false} ConflictMeansForeignFirst(lease: Lease, members: seq<Member>)
    ensures FirstObjection(lease, members) == Some(Conflict) <==> ForeignFirst(lease, members)
  {
    if members != [] {
      var rest := members[1..];
      ProvenUnlessObjection(lease, members[0]);
      ConflictMeansForeignFirst(lease, rest);
      if FirstObjection(lease, members) == Some(Conflict) {
        if Proven(lease, members[0]) {
          var i :| 0 <= i < |rest| && Foreign(lease, rest[i]) && forall j :: 0 <= j < i ==> Proven(lease, rest[j]);
          assert members[i + 1] == rest[i];
          forall j | 0 <= j < i + 1 ensures Proven(lease, members[j]) {
            assert j > 0 ==> members[j] == rest[j - 1];
          }
        } else {
          assert Foreign(lease, members[0]);
        }
      }
      if ForeignFirst(lease, members) {
        var i :| 0 <= i < |members| && Foreign(lease, members[i]) && forall j :: 0 <= j < i ==> Proven(lease, members[j]);
        if i > 0 {
          assert rest[i - 1] == members[i];
          forall j | 0 <= j < i - 1 ensures Proven(lease, rest[j]) {
            assert rest[j] == members[j + 1];
          }
        }
      }
    }
  }

  // The group is somebody else's exactly when this boot shows another configuration, another
  // leader or executable, a foreign member before any that could not be read, or a live leader
  // outside its own group. Everything else that is neither owned nor dead is unknown.
  lemma ConflictExactlyWhen(a: Answers, lease: Lease, configHash: string)
    ensures var leader := a.leader.Ok? ==> IsLeader(lease, a.leader.value);
            var executable := a.leader.Ok? ==> a.exe.Ok? && SameExecutable(lease, a.exe.value);
            Verdict(a, lease, configHash) == Conflict <==>
              && lease.version == 1 && lease.tokenHash != "" && lease.configHash != "" && a.boot == Ok(lease.bootID)
              && (|| configHash != lease.configHash
                  || !leader
                  || (a.leader.Ok? && a.exe.Ok? && !SameExecutable(lease, a.exe.value))
                  || (executable && a.members.Ok? && ForeignFirst(lease, a.members.value))
                  || (executable && a.leader.Ok? && a.members.Ok? && a.members.value != []
                      && (forall i :: 0 <= i < |a.members.value| ==> Proven(lease, a.members.value[i]))
                      && !HasPID(a.members.value, lease.leaderPID)))
  {
    hide ForeignFirst, Foreign, Proven, HasPID;
    if a.members.Ok? {
      NoObjectionMeansProven(lease, a.members.value);
      ConflictMeansForeignFirst(lease, a.members.value);
    }
  }

  // A group one of whose members does not prove itself is neither owned nor dead, whatever
  // else holds: it is not signalled and its lease is not removed.
  lemma ForeignMemberIsNeverOwned(a: Answers, lease: Lease, configHash: string, i: nat)
    requires a.members.Ok? && i < |a.members.value| && !Proven(lease, a.members.value[i])
    ensures Verdict(a, lease, configHash) == Conflict || Verdict(a, lease, configHash) == Unknown
  {
    NoObjectionMeansProven(lease, a.members.value);
  }

  // VerifyGroup; a nil reader is None. Its error result is nil on every path.
  method VerifyGroup(reader: Option<Answers>, lease: Lease, configHash: string) returns (status: GroupStatus)
    ensures status == if reader.None? then Unknown else Verdict(reader.value, lease, configHash)
  {
    if reader.None? {
      return Unknown;
    }
    var a := reader.value;
    if lease.version != SCHEMA_VERSION || lease.tokenHash == "" || lease.configHash == "" {
      return Unknown;
    }
    if a.boot.Failed? {
      return Unknown;
    }
    if a.boot.value != lease.bootID {
      return Unknown;
    }
    if configHash != lease.configHash {
      return Conflict;
    }
    var leaderLive := a.leader.Ok?;
    if leaderLive {
      var leader := a.leader.value;
      if leader.pid != lease.leaderPID || leader.pgrp != lease.leaderPGID || leader.startTime != lease.leaderStart {
        return Conflict;
      }
      if a.exe.Failed? {
        return Unknown;
      }
      if lease.executable != "" && a.exe.value != lease.executable {
        return Conflict;
      }
    }
    if a.members.Failed? {
      return Unknown;
    }
    var members := a.members.value;
    if |members| == 0 {
      if leaderLive {
        return Unknown;
      }
      return Dead;
    }
    var seenLeader := false;
    var i := 0;
    while i < |members|
      invariant 0 <= i <= |members|
      invariant FirstObjection(lease, members) == FirstObjection(lease, members[i..])
      invariant seenLeader <==> exists k :: 0 <= k < i && members[k].pid == lease.leaderPID
    {
      var m := members[i];
      assert members[i..][0] == m && members[i..][1..] == members[i + 1..];
      if m.stat.Failed? {
        return Unknown;
      }
      if m.stat.value.pid != m.pid || m.stat.value.pgrp != lease.leaderPGID {
        return Conflict;
      }
      if m.stat.value.startTime < lease.leaderStart {
        return Conflict;
      }
      if m.token.Failed? {
        return Unknown;
      }
      if m.token.value != Some(lease.tokenHash) {
        return Conflict;
      }
      if m.pid == lease.leaderPID {
        seenLeader := true;
      }
      i := i + 1;
    }
    if leaderLive && !seenLeader {
      return Conflict;
    }
    return Owned;
  }
}

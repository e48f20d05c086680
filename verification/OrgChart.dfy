/** The seeded org chart of shared/seed_config.py, for an arbitrary roster. */
module OrgChart {
  import opened Domain
  import opened Sequences

  datatype Role = Employee | Manager

  datatype SeedUser = SeedUser(userId: string, role: Role, managerId: Option<string>)

  const MANAGER1_ID := "00000000-0000-0000-0000-000000000001"
  const EMP1_ID := "00000000-0000-0000-0000-000000000002"
  const EMP2_ID := "00000000-0000-0000-0000-000000000003"

  /** The roster that ships with the platform. */
  const SEED_USERS: seq<SeedUser> := [
    SeedUser(MANAGER1_ID, Manager, None),
    SeedUser(EMP1_ID, Employee, Some(MANAGER1_ID)),
    SeedUser(EMP2_ID, Employee, Some(MANAGER1_ID))
  ]

  ghost predicate DistinctIds(users: seq<SeedUser>) {
    forall i, j :: 0 <= i < j < |users| ==> users[i].userId != users[j].userId
  }

  /** The id index. As in a dict comprehension, a later entry overwrites an earlier one. */
  function UsersById(roster: seq<SeedUser>): map<string, SeedUser> {
    if roster == [] then map[]
    else
      var last := roster[|roster| - 1];
      UsersById(roster[..|roster| - 1])[last.userId := last]
  }

  function GetManagerId(roster: seq<SeedUser>, employee: string): Option<string> {
    var users := UsersById(roster);
    if employee in users then users[employee].managerId else None
  }

  predicate IsTeamMember(roster: seq<SeedUser>, manager: string, employee: string) {
    var users := UsersById(roster);
    employee in users && users[employee].managerId == Some(manager)
  }

  function ReportsTo(manager: string): SeedUser -> bool {
    (u: SeedUser) => u.managerId == Some(manager)
  }

  function GetTeamMemberIds(roster: seq<SeedUser>, manager: string): seq<string> {
    var team := Filter(roster, ReportsTo(manager));
    seq(|team|, i requires 0 <= i < |team| => team[i].userId)
  }

  function IsEmployee(): SeedUser -> bool {
    (u: SeedUser) => u.role == Employee
  }

  function GetSeedEmployees(roster: seq<SeedUser>): seq<SeedUser> {
    Filter(roster, IsEmployee())
  }

  /** The id index agrees with every roster row on who reports to whom. */
  ghost predicate ManagersConsistent(roster: seq<SeedUser>) {
    forall u :: u in roster && u.managerId.Some? ==> GetManagerId(roster, u.userId) == u.managerId
  }

  lemma {:induction false} UsersByIdRange(roster: seq<SeedUser>)
    ensures forall id :: id in UsersById(roster) ==>
      UsersById(roster)[id] in roster && UsersById(roster)[id].userId == id
    ensures forall u :: u in roster ==> u.userId in UsersById(roster)
    ensures DistinctIds(roster) ==> forall u :: u in roster ==> UsersById(roster)[u.userId] == u
  {
    if roster != [] {
      UsersByIdRange(roster[..|roster| - 1]);
      assert roster == roster[..|roster| - 1] + [roster[|roster| - 1]];
    }
  }

  lemma TeamMemberIdsContain(roster: seq<SeedUser>, manager: string, employee: string)
    ensures employee in GetTeamMemberIds(roster, manager) <==>
      exists u :: u in roster && u.userId == employee && u.managerId == Some(manager)
  {
    FilterMembers(roster, ReportsTo(manager));
    var team := Filter(roster, ReportsTo(manager));
    if u :| u in roster && u.userId == employee && u.managerId == Some(manager) {
      var i :| 0 <= i < |team| && team[i] == u;
      assert GetTeamMemberIds(roster, manager)[i] == employee;
    }
    if employee in GetTeamMemberIds(roster, manager) {
      var i :| 0 <= i < |team| && team[i].userId == employee;
      assert team[i] in team;
    }
  }

  /** The two ways of asking "does e report to m" agree on every pair exactly when the
      index agrees with every row: a duplicated id with two managers breaks them apart. */
  lemma TeamQueriesAgreeIff(roster: seq<SeedUser>)
    ensures (forall m, e :: IsTeamMember(roster, m, e) <==> e in GetTeamMemberIds(roster, m))
       <==> ManagersConsistent(roster)
  {
    UsersByIdRange(roster);
    forall m, e
      ensures e in GetTeamMemberIds(roster, m) <==>
        exists u :: u in roster && u.userId == e && u.managerId == Some(m)
    {
      TeamMemberIdsContain(roster, m, e);
    }
    if forall m, e :: IsTeamMember(roster, m, e) <==> e in GetTeamMemberIds(roster, m) {
      forall u | u in roster && u.managerId.Some?
        ensures GetManagerId(roster, u.userId) == u.managerId
      {
        assert IsTeamMember(roster, u.managerId.value, u.userId);
      }
    }
  }

  lemma TeamQueriesAgree(roster: seq<SeedUser>, manager: string, employee: string)
    requires DistinctIds(roster)
    ensures IsTeamMember(roster, manager, employee) <==> employee in GetTeamMemberIds(roster, manager)
  {
    UsersByIdRange(roster);
    TeamMemberIdsContain(roster, manager, employee);
  }

  /** A duplicated id is answered by its last row. */
  lemma {:induction false} LastRowWins(roster: seq<SeedUser>, i: nat)
    requires i < |roster| && forall j :: i < j < |roster| ==> roster[j].userId != roster[i].userId
    ensures var id := roster[i].userId; id in UsersById(roster) && UsersById(roster)[id] == roster[i]
  {
    var rest := roster[..|roster| - 1];
    if i < |rest| {
      assert rest[i] == roster[i] && roster[|roster| - 1].userId != roster[i].userId;
      LastRowWins(rest, i);
    }
  }

  /** The manager of an employee is the one in their row. */
  lemma ManagerOfRow(roster: seq<SeedUser>, u: SeedUser)
    requires DistinctIds(roster) && u in roster
    ensures GetManagerId(roster, u.userId) == u.managerId
  {
    UsersByIdRange(roster);
  }

  lemma ShippedRosterHasDistinctIds()
    ensures DistinctIds(SEED_USERS)
  {
    assert forall i :: 0 <= i < |SEED_USERS| ==> SEED_USERS[i].userId[35] == (['1', '2', '3'][i]);
  }

  /** A roster of one manager and two of their employees. */
  lemma TeamOfTwo(m: SeedUser, a: SeedUser, b: SeedUser)
    requires m.managerId == None && a.managerId == b.managerId == Some(m.userId)
    ensures GetTeamMemberIds([m, a, b], m.userId) == [a.userId, b.userId]
  {
    var p, none: seq<SeedUser> := ReportsTo(m.userId), [];
    FilterAppend(none, m, p);
    FilterAppend([m], a, p);
    FilterAppend([m, a], b, p);
    assert none + [m] == [m] && [m] + [a] == [m, a] && [m, a] + [b] == [m, a, b];
  }

  /** As shipped, the two employees report to the one manager, who reports to nobody. */
  lemma ShippedTeam()
    ensures GetTeamMemberIds(SEED_USERS, MANAGER1_ID) == [EMP1_ID, EMP2_ID]
    ensures GetManagerId(SEED_USERS, EMP1_ID) == GetManagerId(SEED_USERS, EMP2_ID) == Some(MANAGER1_ID)
    ensures GetManagerId(SEED_USERS, MANAGER1_ID) == None
  {
    TeamOfTwo(SEED_USERS[0], SEED_USERS[1], SEED_USERS[2]);
    ShippedRosterHasDistinctIds();
    ManagerOfRow(SEED_USERS, SEED_USERS[0]);
    ManagerOfRow(SEED_USERS, SEED_USERS[1]);
    ManagerOfRow(SEED_USERS, SEED_USERS[2]);
  }
}

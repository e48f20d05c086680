/** What the Leave Balance Service computes, as functions of the account per employee and
    leave type (leave_balance_service/store.py, seed.py). */
module Balances {
  import opened Domain
  import opened Sequences
  import opened OrgChart

  type Accounts = map<Key, Account>

  /** `apply_deduction`, with the HTTP status its endpoint maps each error to. */
  function Deduct(a: Accounts, key: Key, days: int): Result<Accounts> {
    if key !in a then Err(NOT_FOUND)
    else if days <= 0 then Err(CONFLICT)
    else if days > a[key].Remaining() then Err(CONFLICT)
    else Ok(a[key := a[key].(used := a[key].used + days)])
  }

  /** The accounts after the days of r were deducted. */
  function Charged(a: Accounts, r: Req): Accounts
    requires r.Key() in a
  {
    a[r.Key() := Account(a[r.Key()].total, a[r.Key()].used + r.days)]
  }

  /** The balance as the leave request service reads it: 0 when there is no record. */
  function Remaining(a: Accounts, key: Key): int {
    if key in a then a[key].Remaining() else 0
  }

  /** A deduction is made exactly when it is positive and the days used do not come to exceed
      the allocation; without a record it is a 404, and what does not fit is a 409. One
      account changes, by exactly the days. */
  lemma DeductOutcome(a: Accounts, key: Key, days: int)
    ensures var r := Deduct(a, key, days);
      && (r.Ok? <==> key in a && 0 < days && a[key].used + days <= a[key].total)
      && (r == Err(404) <==> key !in a)
      && (r == Err(409) <==> key in a && !(0 < days && a[key].used + days <= a[key].total))
      && (r.Ok? ==> r.value == a[key := Account(a[key].total, a[key].used + days)])
  {
  }

  function Used(a: Accounts, key: Key): int {
    if key in a then a[key].used else 0
  }

  function Allocated(a: Accounts, key: Key): int {
    if key in a then a[key].total else 0
  }

  /** The leave types and days every employee starts with, in dictionary order. */
  type Allocations = al: seq<(LeaveType, nat)> | DistinctTypes(al) witness []

  predicate DistinctTypes(al: seq<(LeaveType, nat)>) {
    forall i, j :: 0 <= i < j < |al| ==> al[i].0 != al[j].0
  }

  const DEFAULT_LEAVE_ALLOCATIONS: Allocations := [(Casual, 12), (Sick, 10), (Privilege, 15)]

  function NthKey(employee: string, al: seq<(LeaveType, nat)>, n: nat): Key
    requires n < |al|
  {
    (employee, al[n].0)
  }

  /** `a` with one unused account added for each of the first n leave types. */
  function WithAccounts(a: Accounts, employee: string, al: seq<(LeaveType, nat)>, n: nat): Accounts
    requires n <= |al|
  {
    if n == 0 then a
    else WithAccounts(a, employee, al, n - 1)[NthKey(employee, al, n - 1) := Account(al[n - 1].1, 0)]
  }

  /** The accounts of the first n employees. */
  function SeededAccounts(employees: seq<SeedUser>, al: seq<(LeaveType, nat)>, n: nat): Accounts
    requires n <= |employees|
  {
    if n == 0 then map[]
    else WithAccounts(SeededAccounts(employees, al, n - 1), employees[n - 1].userId, al, |al|)
  }

  /** What seeding makes of the accounts: those that exist are left alone. */
  function Seeded(a: Accounts, employees: seq<SeedUser>, al: seq<(LeaveType, nat)>): Accounts {
    if a != map[] then a else SeededAccounts(employees, al, |employees|)
  }

  ghost predicate HasId(employees: seq<SeedUser>, n: nat, id: string)
    requires n <= |employees|
  {
    exists i :: 0 <= i < n && employees[i].userId == id
  }

  ghost predicate IsAllocation(al: seq<(LeaveType, nat)>, t: LeaveType, days: int) {
    exists i :: 0 <= i < |al| && al[i].0 == t && al[i].1 == days
  }

  lemma {:induction false} WithAccountsExact(a: Accounts, employee: string, al: seq<(LeaveType, nat)>, n: nat, k: Key)
    requires DistinctTypes(al) && n <= |al|
    ensures var a' := WithAccounts(a, employee, al, n);
      var added := k.0 == employee && exists i :: 0 <= i < n && al[i].0 == k.1;
      && (k in a' <==> k in a || added)
      && (added ==> a'[k].used == 0 && IsAllocation(al, k.1, a'[k].total))
      && (!added && k in a ==> a'[k] == a[k])
  {
    if n > 0 {
      WithAccountsExact(a, employee, al, n - 1, k);
    }
  }

  /** Seeding leaves exactly one account per employee of the roster and leave type; it
      holds that type's allocation, and nothing is used. */
  lemma {:induction false} SeededAccountsExact(employees: seq<SeedUser>, al: seq<(LeaveType, nat)>, n: nat, k: Key)
    requires DistinctTypes(al) && n <= |employees|
    ensures k in SeededAccounts(employees, al, n) <==>
      HasId(employees, n, k.0) && exists i :: 0 <= i < |al| && al[i].0 == k.1
    ensures k in SeededAccounts(employees, al, n) ==>
      SeededAccounts(employees, al, n)[k].used == 0
      && IsAllocation(al, k.1, SeededAccounts(employees, al, n)[k].total)
  {
    if n > 0 {
      SeededAccountsExact(employees, al, n - 1, k);
      WithAccountsExact(SeededAccounts(employees, al, n - 1), employees[n - 1].userId, al, |al|, k);
      assert HasId(employees, n, k.0) <==> HasId(employees, n - 1, k.0) || employees[n - 1].userId == k.0;
    }
  }

  /** The next leave type's account is new unless it was there at the start. */
  lemma NextAccountIsNew(a: Accounts, employee: string, al: seq<(LeaveType, nat)>, j: nat)
    requires DistinctTypes(al) && j < |al|
    ensures NthKey(employee, al, j) in WithAccounts(a, employee, al, j) <==> NthKey(employee, al, j) in a
  {
    WithAccountsExact(a, employee, al, j, (employee, al[j].0));
  }

  /** None of the first n accounts to be added exists yet. */
  ghost predicate NoneExist(a: Accounts, employee: string, al: seq<(LeaveType, nat)>, n: nat)
    requires n <= |al|
  {
    forall i :: 0 <= i < n ==> NthKey(employee, al, i) !in a
  }

  ghost predicate DistinctUpTo(employees: seq<SeedUser>, n: nat)
    requires n <= |employees|
  {
    forall i, j :: 0 <= i < j < n ==> employees[i].userId != employees[j].userId
  }

  /** Seeding the next employee meets no existing account iff its id is new. */
  lemma NextEmployeeIsNew(employees: seq<SeedUser>, al: seq<(LeaveType, nat)>, i: nat)
    requires DistinctTypes(al) && i < |employees|
    ensures NoneExist(SeededAccounts(employees, al, i), employees[i].userId, al, |al|)
       <==> al == [] || !HasId(employees, i, employees[i].userId)
    ensures DistinctUpTo(employees, i + 1) <==>
      DistinctUpTo(employees, i) && !HasId(employees, i, employees[i].userId)
  {
    var e := employees[i].userId;
    forall j | 0 <= j < |al|
      ensures NthKey(e, al, j) in SeededAccounts(employees, al, i) <==> HasId(employees, i, e)
    {
      SeededAccountsExact(employees, al, i, (e, al[j].0));
    }
    if al != [] {
      assert NthKey(e, al, 0) in SeededAccounts(employees, al, i) <==> HasId(employees, i, e);
    }
  }

  /** Seeding a roster gives an account to each of its employees, for every leave type and
      with the days allocated to it, and to nobody else. */
  lemma SeededForEmployees(roster: seq<SeedUser>, al: seq<(LeaveType, nat)>, employee: string, i: nat)
    requires DistinctTypes(al) && i < |al|
    ensures var employees, k := GetSeedEmployees(roster), (employee, al[i].0);
      var a := SeededAccounts(employees, al, |employees|);
      && (k in a <==> exists u :: u in roster && u.role == Employee && u.userId == employee)
      && (k in a ==> a[k] == Account(al[i].1, 0))
  {
    var employees := GetSeedEmployees(roster);
    FilterMembers(roster, IsEmployee());
    SeededAccountsExact(employees, al, |employees|, (employee, al[i].0));
    if u :| u in roster && u.role == Employee && u.userId == employee {
      assert u in employees;
    }
  }

  /** As shipped, each of the two employees starts with 12 casual, 10 sick and 15 privilege
      days, and nobody else has an account. */
  lemma ShippedAccounts(employee: string)
    ensures var employees := GetSeedEmployees(SEED_USERS);
      var a := SeededAccounts(employees, DEFAULT_LEAVE_ALLOCATIONS, |employees|);
      var casual, sick, privilege := (employee, Casual), (employee, Sick), (employee, Privilege);
      if employee == EMP1_ID || employee == EMP2_ID
      then casual in a && sick in a && privilege in a
           && a[casual] == Account(12, 0) && a[sick] == Account(10, 0) && a[privilege] == Account(15, 0)
      else casual !in a && sick !in a && privilege !in a
  {
    SeededForEmployees(SEED_USERS, DEFAULT_LEAVE_ALLOCATIONS, employee, 0);
    SeededForEmployees(SEED_USERS, DEFAULT_LEAVE_ALLOCATIONS, employee, 1);
    SeededForEmployees(SEED_USERS, DEFAULT_LEAVE_ALLOCATIONS, employee, 2);
    assert SEED_USERS[1] in SEED_USERS && SEED_USERS[2] in SEED_USERS;
  }

  /** With distinct ids a manager of the roster gets no account at all. */
  lemma ManagersHaveNoAccount(roster: seq<SeedUser>, al: seq<(LeaveType, nat)>, manager: SeedUser, t: LeaveType)
    requires DistinctIds(roster) && DistinctTypes(al)
    requires manager in roster && manager.role == Manager
    ensures var employees := GetSeedEmployees(roster);
      (manager.userId, t) !in SeededAccounts(employees, al, |employees|)
  {
    FilterMembers(roster, IsEmployee());
    var employees := GetSeedEmployees(roster);
    SeededAccountsExact(employees, al, |employees|, (manager.userId, t));
    assert forall u :: u in roster && u.userId == manager.userId ==> u == manager;
  }
}

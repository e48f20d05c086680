/** The in-memory store of the Leave Balance Service (leave_balance_service/store.py), the
    read that crosses services (leave_request_service/balance_client.py) and the seeding. */
module BalanceStore {
  import opened Domain
  import opened Sequences
  import opened OrgChart
  import opened Balances

  class LeaveBalance {
    const balanceId: string
    const employeeId: string
    const leaveType: LeaveType
    const totalAllocated: int
    var used: int

    constructor (balanceId: string, employeeId: string, leaveType: LeaveType, totalAllocated: int)
      ensures this.balanceId == balanceId && Key() == (employeeId, leaveType)
      ensures AsAccount() == Account(totalAllocated, 0)
    {
      this.balanceId, this.employeeId, this.leaveType := balanceId, employeeId, leaveType;
      this.totalAllocated, used := totalAllocated, 0;
    }

    function Key(): Key {
      (employeeId, leaveType)
    }

    function AsAccount(): Account
      reads this
    {
      Account(totalAllocated, used)
    }
  }

  function BelongsTo(employee: string): LeaveBalance -> bool {
    (b: LeaveBalance) => b.employeeId == employee
  }

  /** The dictionary holds exactly the records of `order`, each under its own id. */
  ghost predicate PrimaryAgrees(records: map<string, LeaveBalance>, order: seq<LeaveBalance>) {
    && (forall b :: b in order ==> b.balanceId in records && records[b.balanceId] == b)
    && (forall id :: id in records ==> records[id] in order && records[id].balanceId == id)
  }

  /** One record per key: the composite index and the stored records determine each other. */
  ghost predicate IndexAgrees(
    index: map<Key, string>, records: map<string, LeaveBalance>, order: seq<LeaveBalance>)
  {
    && (forall k :: k in index ==> index[k] in records && records[index[k]].Key() == k)
    && (forall b :: b in order ==> b.Key() in index && index[b.Key()] == b.balanceId)
  }

  lemma AgreementGrows(
    index: map<Key, string>, records: map<string, LeaveBalance>, order: seq<LeaveBalance>, b: LeaveBalance)
    requires PrimaryAgrees(records, order) && IndexAgrees(index, records, order)
    requires b.balanceId !in records && b.Key() !in index
    ensures PrimaryAgrees(records[b.balanceId := b], order + [b])
    ensures IndexAgrees(index[b.Key() := b.balanceId], records[b.balanceId := b], order + [b])
  {
    var records', order' := records[b.balanceId := b], order + [b];
    forall id | id in records' ensures records'[id] in order' && records'[id].balanceId == id {
      assert order'[|order|] == b;
    }
  }

  class Store {
    var balancesStore: map<string, LeaveBalance>
    /** The values of `balancesStore` in the dictionary's insertion order. */
    var insertionOrder: seq<LeaveBalance>
    var leaveTypeIndex: map<Key, string>
    /** What the store stands for: the account under each key of the composite index. */
    ghost var accounts: Accounts

    ghost predicate Valid()
      reads this, insertionOrder
    {
      && PrimaryAgrees(balancesStore, insertionOrder)
      && IndexAgrees(leaveTypeIndex, balancesStore, insertionOrder)
      && accounts.Keys == leaveTypeIndex.Keys
      && AccountsAgree(accounts, insertionOrder)
    }

    constructor ()
      ensures Valid() && insertionOrder == [] && accounts == map[]
    {
      balancesStore, insertionOrder, leaveTypeIndex := map[], [], map[];
      accounts := map[];
    }

    /** The accounts are those of the records in `order`. */
    static ghost predicate AccountsAgree(accounts: Accounts, order: seq<LeaveBalance>)
      reads order
    {
      forall b :: b in order ==> b.Key() in accounts && accounts[b.Key()] == b.AsAccount()
    }

    lemma GrowsValid(b: LeaveBalance)
      requires Valid() && b.balanceId !in balancesStore && b.Key() !in leaveTypeIndex
      ensures PrimaryAgrees(balancesStore[b.balanceId := b], insertionOrder + [b])
      ensures IndexAgrees(
        leaveTypeIndex[b.Key() := b.balanceId], balancesStore[b.balanceId := b], insertionOrder + [b])
      ensures AccountsAgree(accounts[b.Key() := b.AsAccount()], insertionOrder + [b])
    {
      AgreementGrows(leaveTypeIndex, balancesStore, insertionOrder, b);
    }

    /** Refuses a second record for the same employee and leave type. */
    method AddBalance(balance: LeaveBalance) returns (added: bool)
      requires Valid()
      requires balance.balanceId !in balancesStore
      modifies this
      ensures Valid()
      ensures added <==> balance.Key() !in old(accounts)
      ensures added ==> insertionOrder == old(insertionOrder) + [balance]
      ensures added ==> balancesStore == old(balancesStore)[balance.balanceId := balance]
      ensures added ==> accounts == old(accounts)[balance.Key() := balance.AsAccount()]
      ensures !added ==> unchanged(this)
    {
      if balance.Key() in leaveTypeIndex {
        return false;
      }
      GrowsValid(balance);
      balancesStore, insertionOrder := balancesStore[balance.balanceId := balance], insertionOrder + [balance];
      leaveTypeIndex := leaveTypeIndex[balance.Key() := balance.balanceId];
      accounts := accounts[balance.Key() := balance.AsAccount()];
      assert AccountsAgree(accounts, insertionOrder);
      return true;
    }

    function GetBalance(employee: string, leaveType: LeaveType): (b: Option<LeaveBalance>)
      requires Valid()
      reads this, insertionOrder
      ensures b.Some? <==> (employee, leaveType) in accounts
      ensures b.Some? ==> b.value in insertionOrder && b.value.Key() == (employee, leaveType)
      ensures b.Some? ==> accounts[(employee, leaveType)] == b.value.AsAccount()
    {
      if (employee, leaveType) in leaveTypeIndex
      then Some(balancesStore[leaveTypeIndex[(employee, leaveType)]])
      else None
    }

    function GetBalancesForEmployee(employee: string): (bs: seq<LeaveBalance>)
      reads this
    {
      Filter(insertionOrder, BelongsTo(employee))
    }

    /** Adds to `used` in place, and only when the whole deduction fits. */
    method ApplyDeduction(employee: string, leaveType: LeaveType, days: int) returns (r: Result<Account>)
      requires Valid()
      modifies this`accounts, insertionOrder
      ensures Valid()
      ensures match Deduct(old(accounts), (employee, leaveType), days)
        case Ok(a) => accounts == a && r == Ok(a[(employee, leaveType)])
        case Err(status) => accounts == old(accounts) && r == Err(status)
      ensures var before, k := old(accounts), (employee, leaveType);
        && (r.Ok? <==> k in before && 0 < days && before[k].used + days <= before[k].total)
        && (r.Ok? ==> r.value == Account(before[k].total, before[k].used + days) && accounts == before[k := r.value])
        && (r.Err? ==> accounts == before && r == if k in before then Err(409) else Err(404))
    {
      DeductOutcome(accounts, (employee, leaveType), days);
      var balance := GetBalance(employee, leaveType);
      if balance.None? {
        return Err(NOT_FOUND);
      }
      if days <= 0 {
        return Err(CONFLICT);
      }
      var b := balance.value;
      if days > b.totalAllocated - b.used {
        return Err(CONFLICT);
      }
      b.used := b.used + days;
      accounts := accounts[b.Key() := b.AsAccount()];
      return Ok(b.AsAccount());
    }
  }

  /** The first row of the employee's listing with the wanted type, else 0. It always
      agrees with the composite index that the deduction uses. */
  method FetchRemaining(store: Store, employee: string, leaveType: LeaveType) returns (remaining: int)
    requires store.Valid()
    ensures remaining == Remaining(store.accounts, (employee, leaveType))
    ensures remaining == var k := (employee, leaveType);
      if k in store.accounts then store.accounts[k].total - store.accounts[k].used else 0
  {
    var items := store.GetBalancesForEmployee(employee);
    FilterMembers(store.insertionOrder, BelongsTo(employee));
    for i := 0 to |items|
      invariant forall j :: 0 <= j < i ==> items[j].leaveType != leaveType
    {
      if items[i].leaveType == leaveType {
        assert items[i].Key() == (employee, leaveType);
        return items[i].totalAllocated - items[i].used;
      }
    }
    assert forall b :: b in items ==> b.leaveType != leaveType;
    return 0;
  }

  lemma {:induction false} LongestString(s: set<string>) returns (n: nat)
    ensures forall x :: x in s ==> |x| <= n
  {
    if s == {} {
      n := 0;
    } else {
      var x :| x in s;
      n := LongestString(s - {x});
      n := if n < |x| then |x| else n;
    }
  }

  /** There is always an unused id for a new record. */
  lemma FreshIdExists(used: set<string>)
    ensures exists id: string :: id !in used
  {
    var n := LongestString(used);
    assert seq(n + 1, i => '0') !in used;
  }

  /** Adds a new, unused record under a new id (`uuid4` in the source). */
  method AddNewBalance(store: Store, key: Key, allocation: nat) returns (added: bool)
    requires store.Valid()
    modifies store
    ensures store.Valid()
    ensures added <==> key !in old(store.accounts)
    ensures added ==> store.accounts == old(store.accounts)[key := Account(allocation, 0)]
    ensures !added ==> store.accounts == old(store.accounts)
  {
    FreshIdExists(store.balancesStore.Keys);
    var id: string :| id !in store.balancesStore.Keys;
    var balance := new LeaveBalance(id, key.0, key.1, allocation);
    added := store.AddBalance(balance);
  }

  /** The accounts now are those before, with the first n new ones added. */
  ghost predicate Added(now: Accounts, before: Accounts, employee: string, al: Allocations, n: nat)
    requires n <= |al|
  {
    now == WithAccounts(before, employee, al, n)
  }

  /** One round of the inner loop. */
  method SeedNext(store: Store, ghost before: Accounts, employee: string, al: Allocations, j: nat) returns (ok: bool)
    requires j < |al|
    requires store.Valid() && Added(store.accounts, before, employee, al, j)
    modifies store
    ensures store.Valid()
    ensures ok <==> NthKey(employee, al, j) !in before
    ensures ok ==> Added(store.accounts, before, employee, al, j + 1)
    ensures !ok ==> store.accounts != map[]
  {
    NextAccountIsNew(before, employee, al, j);
    ok := AddNewBalance(store, NthKey(employee, al, j), al[j].1);
  }

  /** The inner loop of the seeding: one record per leave type for one employee. It fails
      exactly when one of those accounts exists already. */
  method SeedEmployee(store: Store, employee: string, al: Allocations) returns (ok: bool)
    requires store.Valid()
    modifies store
    ensures store.Valid()
    ensures ok <==> NoneExist(old(store.accounts), employee, al, |al|)
    ensures ok ==> Added(store.accounts, old(store.accounts), employee, al, |al|)
    ensures !ok ==> store.accounts != map[]
  {
    ghost var before := store.accounts;
    for j := 0 to |al|
      invariant store.Valid()
      invariant NoneExist(before, employee, al, j)
      invariant Added(store.accounts, before, employee, al, j)
    {
      ok := SeedNext(store, before, employee, al, j);
      if !ok {
        return;
      }
    }
    ok := true;
  }

  /** The outer loop, from an empty store. */
  method SeedAll(store: Store, employees: seq<SeedUser>, al: Allocations) returns (ok: bool)
    requires store.Valid() && store.accounts == map[]
    modifies store
    ensures store.Valid()
    ensures ok <==> DistinctIds(employees) || al == []
    ensures ok ==> store.accounts == SeededAccounts(employees, al, |employees|)
    ensures !ok ==> store.accounts != map[]
  {
    for i := 0 to |employees|
      invariant store.Valid()
      invariant al == [] || DistinctUpTo(employees, i)
      invariant store.accounts == SeededAccounts(employees, al, i)
    {
      NextEmployeeIsNew(employees, al, i);
      ok := SeedEmployee(store, employees[i].userId, al);
      if !ok {
        return;
      }
    }
    ok := true;
  }

  /** There are records exactly when there are accounts. */
  lemma EmptyIffNoAccounts(store: Store)
    requires store.Valid()
    ensures store.balancesStore == map[] <==> store.accounts == map[]
  {
    if store.balancesStore != map[] {
      var id :| id in store.balancesStore;
      assert store.balancesStore[id].Key() in store.accounts;
    }
    if store.accounts != map[] {
      var k :| k in store.accounts;
      assert store.leaveTypeIndex[k] in store.balancesStore;
    }
  }

  /** Seeds every employee of the roster, unless the store already holds records. From an
      empty store it succeeds exactly when no two employees share an id (a clash makes
      `add_balance` raise) or there is no leave type to seed. */
  method SeedBalances(store: Store, roster: seq<SeedUser>, al: Allocations) returns (ok: bool)
    requires store.Valid()
    modifies store
    ensures store.Valid()
    ensures ok <==> old(store.accounts) != map[] || DistinctIds(GetSeedEmployees(roster)) || al == []
    ensures ok ==> store.accounts == Seeded(old(store.accounts), GetSeedEmployees(roster), al)
    ensures !ok ==> store.accounts != map[]
    ensures old(store.accounts) != map[] ==> unchanged(store)
  {
    EmptyIffNoAccounts(store);
    if store.balancesStore != map[] {
      return true;
    }
    ok := SeedAll(store, GetSeedEmployees(roster), al);
  }

  /** Two starts of the service on one store: the second seeding never fails, and leaves the
      accounts as the first one left them. */
  method SeedTwice(store: Store, roster: seq<SeedUser>, al: Allocations)
    returns (ok: bool, again: bool, ghost once: Accounts)
    requires store.Valid()
    modifies store
    ensures store.Valid()
    ensures ok <==> old(store.accounts) != map[] || DistinctIds(GetSeedEmployees(roster)) || al == []
    ensures ok ==> once == Seeded(old(store.accounts), GetSeedEmployees(roster), al)
    ensures again && store.accounts == once
  {
    ok := SeedBalances(store, roster, al);
    once := store.accounts;
    again := SeedBalances(store, roster, al);
  }
}

/** The endpoints of the Leave Request Service as methods on its store. Each is proved to
    compute the function of RequestLog that LeaveSystem uses as its atomic step. */
module RequestService {
  import opened Domain
  import opened Sequences
  import opened OrgChart
  import opened RequestStore
  import RequestLog
  import Pagination

  method CheckOverlap(store: Store, employee: string, start: int, end: int) returns (r: Result<()>)
    requires store.Valid()
    ensures r == RequestLog.CheckOverlap(store.View(), employee, start, end)
  {
    var own := store.GetRequestsForEmployee(employee);
    ghost var rows := Snapshots(own);
    for i := 0 to |own|
      invariant RequestLog.OverlapScan(rows[i..], start, end) == RequestLog.OverlapScan(rows, start, end)
    {
      var existing := own[i];
      assert rows[i..][0] == existing.Snapshot() && rows[i..][1..] == rows[i + 1..];
      if existing.status != Pending && existing.status != Approved {
        continue;
      }
      if existing.startDate <= end && start <= existing.endDate {
        return Err(CONFLICT);
      }
    }
    return Ok(());
  }

  /** `apply_leave` before the `await`. */
  method BeginApply(store: Store, roster: seq<SeedUser>, employee: string, p: RequestLog.Payload, today: int)
    returns (r: Result<string>)
    requires store.Valid()
    ensures r == RequestLog.ApplyCheck(store.View(), roster, employee, p, today)
  {
    var dates := RequestLog.ValidateDates(p.start, p.end, p.days, today);
    if dates.Err? {
      return Err(dates.status);
    }
    var manager := RequestLog.ResolveManager(roster, employee, p.provided);
    if manager.Err? {
      return manager;
    }
    var overlap := CheckOverlap(store, employee, p.start, p.end);
    if overlap.Err? {
      return Err(overlap.status);
    }
    return manager;
  }

  /** `apply_leave` after the `await`, with the balance that was read. `id` stands for the
      new UUID. */
  method FinishApply(store: Store, id: string, employee: string, p: RequestLog.Payload, manager: string,
                     remaining: int) returns (r: Result<Req>)
    requires store.Valid()
    requires id !in store.requestsStore
    modifies store
    ensures store.Valid()
    ensures r == RequestLog.ApplyResume(id, employee, p, manager, remaining)
    ensures store.View() == old(store.View()) + (if r.Ok? then [r.value] else [])
  {
    if p.days > remaining {
      return Err(CONFLICT);
    }
    var leave := new LeaveRequest(id, employee, p.leaveType, p.start, p.end, p.days, p.reason, manager);
    store.AddRequest(leave);
    return Ok(leave.Snapshot());
  }

  method CancelLeave(store: Store, id: string, caller: string) returns (r: Result<Req>)
    requires store.Valid()
    modifies store.insertionOrder
    ensures store.Valid()
    ensures RequestLog.Answers(
      RequestLog.Cancel(old(store.View()), id, caller), old(store.View()), store.View(), id, r)
    ensures
      var before := old(store.View());
      var found := RequestLog.Find(before, id);
      && (r.Ok? <==> found.Some? && found.value.employee == caller && found.value.status == Pending)
      && (r.Ok? ==> r.value == found.value.(status := Cancelled, rejection := None)
                    && store.View() == before[RequestLog.Position(before, id) := r.value])
      && (r.Err? ==> store.View() == before)
      && (r == Err(404) <==> found.None?)
      && (r == Err(403) <==> found.Some? && found.value.employee != caller)
  {
    RequestLog.CancelOutcome(store.View(), id, caller);
    store.GetRequestFinds(id);
    var found := store.GetRequest(id);
    if found.None? {
      return Err(NOT_FOUND);
    }
    if found.value.employeeId != caller {
      return Err(FORBIDDEN);
    }
    if found.value.status != Pending {
      return Err(CONFLICT);
    }
    store.SetStatus(found.value, Cancelled, None);
    store.GetRequestFinds(id);
    return Ok(found.value.Snapshot());
  }

  method UpdateRequestStatus(store: Store, id: string, manager: string, newStatus: LeaveStatus,
                             reason: Option<string>) returns (r: Result<Req>)
    requires store.Valid()
    modifies store.insertionOrder
    ensures store.Valid()
    ensures RequestLog.Answers(
      RequestLog.UpdateStatus(old(store.View()), id, manager, newStatus, reason),
      old(store.View()), store.View(), id, r)
    ensures
      var before := old(store.View());
      var found := RequestLog.Find(before, id);
      var allowed := newStatus == Approved || (newStatus == Rejected && reason.Some? && !IsBlank(reason.value));
      && (r.Ok? <==> found.Some? && found.value.manager == manager && found.value.status == Pending && allowed)
      && (r.Ok? ==> r.value == found.value.(status := newStatus,
                                            rejection := if newStatus == Rejected then reason else None)
                    && store.View() == before[RequestLog.Position(before, id) := r.value])
      && (r.Err? ==> store.View() == before)
      && (r == Err(404) <==> found.None?)
      && (r == Err(403) <==> found.Some? && found.value.manager != manager)
      && (r == Err(409) <==> found.Some? && found.value.manager == manager && found.value.status != Pending)
  {
    RequestLog.UpdateOutcome(store.View(), id, manager, newStatus, reason);
    if reason.Some? { BlankIffStripEmpty(reason.value); }
    store.GetRequestFinds(id);
    var found := store.GetRequest(id);
    if found.None? {
      return Err(NOT_FOUND);
    }
    if found.value.reportingManagerId != manager {
      return Err(FORBIDDEN);
    }
    if found.value.status != Pending {
      return Err(CONFLICT);
    }
    if newStatus != Approved && newStatus != Rejected {
      return Err(BAD_REQUEST);
    }
    if newStatus == Rejected && (reason.None? || Strip(reason.value) == []) {
      return Err(BAD_REQUEST);
    }
    store.SetStatus(found.value, newStatus, reason);
    store.GetRequestFinds(id);
    return Ok(found.value.Snapshot());
  }

  /** The conditional filters, one after the other. */
  method ApplyFilters(candidates: seq<Req>, q: RequestLog.Query) returns (rows: seq<Req>)
    ensures rows == RequestLog.Narrow(candidates, q)
  {
    rows := candidates;
    if q.employee.Some? {
      rows := Filter(rows, RequestLog.WithEmployee(q));
    } else {
      FilterKeepsAll(rows, RequestLog.WithEmployee(q));
    }
    if q.status.Some? {
      rows := Filter(rows, RequestLog.WithStatusOf(q));
    } else {
      FilterKeepsAll(rows, RequestLog.WithStatusOf(q));
    }
    if q.from.Some? {
      rows := Filter(rows, RequestLog.EndsFrom(q));
    } else {
      FilterKeepsAll(rows, RequestLog.EndsFrom(q));
    }
    if q.to.Some? {
      rows := Filter(rows, RequestLog.StartsTo(q));
    } else {
      FilterKeepsAll(rows, RequestLog.StartsTo(q));
    }
  }

  /** Starts from the primary dictionary, from one of the indexes, or from every request. */
  method PickCandidates(store: Store, q: RequestLog.Query) returns (candidates: seq<Req>)
    requires store.Valid()
    ensures candidates == RequestLog.Candidates(store.View(), q)
  {
    if q.id.Some? {
      store.GetRequestFinds(q.id.value);
      var found := store.GetRequest(q.id.value);
      return if found.Some? then [found.value.Snapshot()] else [];
    } else if q.manager.Some? {
      return Snapshots(store.GetRequestsForManager(q.manager.value));
    } else if q.employee.Some? {
      return Snapshots(store.GetRequestsForEmployee(q.employee.value));
    } else {
      return store.View();
    }
  }

  method PickAndFilter(store: Store, q: RequestLog.Query) returns (rows: seq<Req>)
    requires store.Valid()
    ensures rows == RequestLog.Listed(store.View(), q)
  {
    var candidates := PickCandidates(store, q);
    rows := ApplyFilters(candidates, q);
  }

  method ListRequests(store: Store, q: RequestLog.Query) returns (rows: seq<Req>)
    requires store.Valid()
    ensures rows == RequestLog.Listed(store.View(), q)
    ensures q.id.None? || q.manager.None? ==> rows == Filter(store.View(), RequestLog.Matches(q))
    ensures forall r :: r in rows <==>
      && r in store.View()
      && (q.id.Some? ==> r.id == q.id.value)
      && (q.manager.Some? && q.id.None? ==> r.manager == q.manager.value)
      && (q.employee.Some? ==> r.employee == q.employee.value)
      && (q.status.Some? ==> r.status == q.status.value)
      && (q.from.Some? ==> q.from.value <= r.end)
      && (q.to.Some? ==> r.start <= q.to.value)
  {
    rows := PickAndFilter(store, q);
    store.ViewHasUniqueIds();
    RequestLog.ListedMembers(store.View(), q);
    RequestLog.ListedUnlessBoth(store.View(), q);
  }

  /** The decoded `status` parameter of the history. */
  datatype StatusFilter = All | Only(status: LeaveStatus) | Invalid

  datatype HistoryPage = HistoryPage(items: seq<Req>, page: nat, size: nat, total: nat, totalPages: nat)

  function HasStatus(f: StatusFilter): Req -> bool {
    (r: Req) => f.Only? ==> r.status == f.status
  }

  /** The caller's requests in the wanted status, in insertion order. */
  function Own(rs: seq<Req>, caller: string, filter: StatusFilter): seq<Req> {
    Filter(Filter(rs, RequestLog.OfEmployee(caller)), HasStatus(filter))
  }

  /** Exactly the caller's requests, all of them or those in the one status asked for. */
  lemma OwnMembers(rs: seq<Req>, caller: string, filter: StatusFilter)
    ensures forall r :: r in Own(rs, caller, filter) <==>
      r in rs && r.employee == caller && (filter.Only? ==> r.status == filter.status)
  {
    FilterMembers(rs, RequestLog.OfEmployee(caller));
    FilterMembers(Filter(rs, RequestLog.OfEmployee(caller)), HasStatus(filter));
  }

  /** No request is listed twice, so the total counts them. */
  lemma OwnCount(rs: seq<Req>, caller: string, filter: StatusFilter)
    requires RequestLog.UniqueIds(rs)
    ensures |Own(rs, caller, filter)|
         == |set r | r in rs && r.employee == caller && (filter.Only? ==> r.status == filter.status)|
  {
    var own := Own(rs, caller, filter);
    FilterKeepsDistinct(rs, RequestLog.OfEmployee(caller));
    FilterKeepsDistinct(Filter(rs, RequestLog.OfEmployee(caller)), HasStatus(filter));
    OwnMembers(rs, caller, filter);
    DistinctCount(own);
    assert (set r | r in own)
        == set r | r in rs && r.employee == caller && (filter.Only? ==> r.status == filter.status);
  }

  method LeaveHistory(store: Store, caller: string, filter: StatusFilter, page: nat, size: nat)
    returns (r: Result<HistoryPage>)
    requires store.Valid()
    requires page >= 1 && size >= 1
    ensures r.Err? <==> filter == Invalid
    ensures r.Err? ==> r.status == 400
    ensures r.Ok? ==>
      var own := Own(store.View(), caller, filter);
      && r.value.items == Pagination.Page(own, page, size)
      && r.value.page == page && r.value.size == size && r.value.total == |own|
      && r.value.totalPages == Pagination.TotalPages(|own|, size)
    ensures r.Ok? ==>
      && (forall x :: x in Own(store.View(), caller, filter) <==>
            x in store.View() && x.employee == caller && (filter.Only? ==> x.status == filter.status))
      && r.value.total
         == |set x | x in store.View() && x.employee == caller && (filter.Only? ==> x.status == filter.status)|
    ensures r.Ok? ==> forall x :: x in r.value.items ==>
      x in store.View() && x.employee == caller && (filter.Only? ==> x.status == filter.status)
  {
    store.ViewHasUniqueIds();
    OwnMembers(store.View(), caller, filter);
    OwnCount(store.View(), caller, filter);
    Pagination.PageIsFromList(Own(store.View(), caller, filter), page, size);

    var requests := Snapshots(store.GetRequestsForEmployee(caller));
    match filter {
      case Invalid => return Err(BAD_REQUEST);
      case All => FilterKeepsAll(requests, HasStatus(filter));
      case Only(_) => requests := Filter(requests, HasStatus(filter));
    }
    var total := |requests|;
    var totalPages := Pagination.TotalPages(total, size);
    var items := Pagination.Page(requests, page, size);
    return Ok(HistoryPage(items, page, size, total, totalPages));
  }
}

/** The in-memory store of the Leave Request Service (leave_request_service/store.py):
    one dictionary of mutable records and two indexes of ids. */
module RequestStore {
  import opened Domain
  import opened Sequences
  import opened RequestLog

  class LeaveRequest {
    const requestId: string
    const employeeId: string
    const leaveType: LeaveType
    const startDate: int
    const endDate: int
    const numberOfDays: int
    const reason: string
    const reportingManagerId: string
    var status: LeaveStatus
    var rejectionReason: Option<string>

    /** A record is created PENDING and without a reason. */
    constructor (requestId: string, employeeId: string, leaveType: LeaveType, startDate: int, endDate: int,
                 numberOfDays: int, reason: string, reportingManagerId: string)
      ensures Snapshot() == Req(requestId, employeeId, leaveType, startDate, endDate, numberOfDays, reason,
                                reportingManagerId, Pending, None)
    {
      this.requestId, this.employeeId, this.leaveType := requestId, employeeId, leaveType;
      this.startDate, this.endDate, this.numberOfDays := startDate, endDate, numberOfDays;
      this.reason, this.reportingManagerId := reason, reportingManagerId;
      status, rejectionReason := Pending, None;
    }

    /** `LeaveRequestResponse.from_model`. */
    function Snapshot(): Req
      reads this
    {
      Req(requestId, employeeId, leaveType, startDate, endDate, numberOfDays, reason, reportingManagerId,
          status, rejectionReason)
    }
  }

  function Snapshots(rs: seq<LeaveRequest>): (s: seq<Req>)
    reads rs
    ensures |s| == |rs|
    ensures forall i :: 0 <= i < |rs| ==> s[i] == rs[i].Snapshot()
  {
    seq(|rs|, i requires 0 <= i < |rs| reads rs => rs[i].Snapshot())
  }

  lemma SnapshotsAppend(rs: seq<LeaveRequest>, r: LeaveRequest)
    ensures Snapshots(rs + [r]) == Snapshots(rs) + [r.Snapshot()]
  {
  }

  function Ids(rs: seq<LeaveRequest>): (ids: seq<string>)
    ensures |ids| == |rs|
    ensures forall i :: 0 <= i < |rs| ==> ids[i] == rs[i].requestId
  {
    seq(|rs|, i requires 0 <= i < |rs| => rs[i].requestId)
  }

  function HasEmployee(employee: string): LeaveRequest -> bool {
    (r: LeaveRequest) => r.employeeId == employee
  }

  function HasManager(manager: string): LeaveRequest -> bool {
    (r: LeaveRequest) => r.reportingManagerId == manager
  }

  /** `index.get(key, [])`. */
  function Entries(index: map<string, seq<string>>, key: string): seq<string> {
    if key in index then index[key] else []
  }

  /** `index.setdefault(key, []).append(id)`. */
  function Appended(index: map<string, seq<string>>, key: string, id: string): map<string, seq<string>> {
    index[key := Entries(index, key) + [id]]
  }

  lemma {:induction false} FilterOfSnapshots(rs: seq<LeaveRequest>, p: LeaveRequest -> bool, q: Req -> bool)
    requires forall r: LeaveRequest :: r in rs ==> p(r) == q(r.Snapshot())
    ensures Snapshots(Filter(rs, p)) == Filter(Snapshots(rs), q)
  {
    if rs != [] {
      var rest := rs[..|rs| - 1];
      FilterOfSnapshots(rest, p, q);
      assert Snapshots(rs)[..|rs| - 1] == Snapshots(rest);
    }
  }

  /** Each key of the index lists the ids of that employee's requests, in insertion order. */
  ghost predicate EmployeeIndexAgrees(index: map<string, seq<string>>, order: seq<LeaveRequest>) {
    forall e :: Entries(index, e) == Ids(Filter(order, HasEmployee(e)))
  }

  ghost predicate ManagerIndexAgrees(index: map<string, seq<string>>, order: seq<LeaveRequest>) {
    forall m :: Entries(index, m) == Ids(Filter(order, HasManager(m)))
  }

  /** The dictionary holds exactly the records of `order`, each under its own id. */
  ghost predicate PrimaryAgrees(records: map<string, LeaveRequest>, order: seq<LeaveRequest>) {
    && (forall i, j :: 0 <= i < j < |order| ==> order[i].requestId != order[j].requestId)
    && (forall r :: r in order ==> r.requestId in records && records[r.requestId] == r)
    && (forall id :: id in records ==> records[id] in order && records[id].requestId == id)
  }

  lemma PrimaryGrows(records: map<string, LeaveRequest>, order: seq<LeaveRequest>, r: LeaveRequest)
    requires PrimaryAgrees(records, order) && r.requestId !in records
    ensures PrimaryAgrees(records[r.requestId := r], order + [r])
  {
    var order', records' := order + [r], records[r.requestId := r];
    forall i, j | 0 <= i < j < |order'| ensures order'[i].requestId != order'[j].requestId {
      assert order[i] in order;
    }
    forall id | id in records' ensures records'[id] in order' && records'[id].requestId == id {
      assert order'[|order|] == r;
    }
  }

  lemma EmployeeIndexGrows(index: map<string, seq<string>>, order: seq<LeaveRequest>, r: LeaveRequest)
    requires EmployeeIndexAgrees(index, order)
    ensures EmployeeIndexAgrees(Appended(index, r.employeeId, r.requestId), order + [r])
  {
    var index' := Appended(index, r.employeeId, r.requestId);
    forall e ensures Entries(index', e) == Ids(Filter(order + [r], HasEmployee(e))) {
      FilterAppend(order, r, HasEmployee(e));
      assert Entries(index, e) == Ids(Filter(order, HasEmployee(e)));
    }
  }

  lemma ManagerIndexGrows(index: map<string, seq<string>>, order: seq<LeaveRequest>, r: LeaveRequest)
    requires ManagerIndexAgrees(index, order)
    ensures ManagerIndexAgrees(Appended(index, r.reportingManagerId, r.requestId), order + [r])
  {
    var index' := Appended(index, r.reportingManagerId, r.requestId);
    forall m ensures Entries(index', m) == Ids(Filter(order + [r], HasManager(m))) {
      FilterAppend(order, r, HasManager(m));
      assert Entries(index, m) == Ids(Filter(order, HasManager(m)));
    }
  }

  class Store {
    var requestsStore: map<string, LeaveRequest>
    /** The values of `requestsStore` in the dictionary's insertion order. */
    var insertionOrder: seq<LeaveRequest>
    var employeeIndex: map<string, seq<string>>
    var managerIndex: map<string, seq<string>>

    ghost predicate Valid()
      reads this
    {
      && PrimaryAgrees(requestsStore, insertionOrder)
      && EmployeeIndexAgrees(employeeIndex, insertionOrder)
      && ManagerIndexAgrees(managerIndex, insertionOrder)
    }

    /** The stored requests in insertion order. */
    function View(): seq<Req>
      reads this, insertionOrder
    {
      Snapshots(insertionOrder)
    }

    constructor ()
      ensures Valid() && View() == []
    {
      requestsStore, insertionOrder, employeeIndex, managerIndex := map[], [], map[], map[];
    }

    lemma GrowsValid(r: LeaveRequest)
      requires Valid() && r.requestId !in requestsStore
      ensures PrimaryAgrees(requestsStore[r.requestId := r], insertionOrder + [r])
      ensures EmployeeIndexAgrees(Appended(employeeIndex, r.employeeId, r.requestId), insertionOrder + [r])
      ensures ManagerIndexAgrees(Appended(managerIndex, r.reportingManagerId, r.requestId), insertionOrder + [r])
    {
      PrimaryGrows(requestsStore, insertionOrder, r);
      EmployeeIndexGrows(employeeIndex, insertionOrder, r);
      ManagerIndexGrows(managerIndex, insertionOrder, r);
    }

    method AddRequest(request: LeaveRequest)
      requires Valid()
      requires request.requestId !in requestsStore
      modifies this
      ensures Valid()
      ensures insertionOrder == old(insertionOrder) + [request]
      ensures View() == old(View()) + [request.Snapshot()]
    {
      SnapshotsAppend(insertionOrder, request);
      GrowsValid(request);
      requestsStore := requestsStore[request.requestId := request];
      insertionOrder := insertionOrder + [request];
      employeeIndex := Appended(employeeIndex, request.employeeId, request.requestId);
      managerIndex := Appended(managerIndex, request.reportingManagerId, request.requestId);
    }

    function GetRequest(id: string): (r: Option<LeaveRequest>)
      reads this
    {
      if id in requestsStore then Some(requestsStore[id]) else None
    }

    /** The primary dictionary answers as a scan of the stored requests would. */
    lemma GetRequestFinds(id: string)
      requires Valid()
      ensures GetRequest(id).Some? ==>
        && GetRequest(id).value in insertionOrder
        && Find(View(), id) == Some(GetRequest(id).value.Snapshot())
      ensures GetRequest(id).None? ==> Find(View(), id).None?
    {
      var i := Position(View(), id);
      if id in requestsStore {
        var k :| 0 <= k < |insertionOrder| && insertionOrder[k] == requestsStore[id];
        assert View()[k].id == id;
        assert insertionOrder[i].requestId == id;
      }
    }

    lemma ViewHasUniqueIds()
      requires Valid()
      ensures UniqueIds(View())
    {
    }

    /** The records behind a list of ids taken from an index. */
    function Resolve(ids: seq<string>): seq<LeaveRequest>
      reads this
      requires forall i :: 0 <= i < |ids| ==> ids[i] in requestsStore
    {
      seq(|ids|, i requires 0 <= i < |ids| && ids[i] in requestsStore reads this => requestsStore[ids[i]])
    }

    lemma IndexedIdsResolve(ids: seq<string>, p: LeaveRequest -> bool)
      requires Valid() && ids == Ids(Filter(insertionOrder, p))
      ensures forall i :: 0 <= i < |ids| ==> ids[i] in requestsStore
      ensures Resolve(ids) == Filter(insertionOrder, p)
    {
      FilterMembers(insertionOrder, p);
      var hits := Filter(insertionOrder, p);
      forall i | 0 <= i < |ids|
        ensures ids[i] in requestsStore && requestsStore[ids[i]] == hits[i]
      {
        assert hits[i] in hits;
      }
    }

    /** No id in the employee index is missing, repeated or dangling: what it resolves to
        is the insertion-ordered store, filtered. */
    function GetRequestsForEmployee(employee: string): (rs: seq<LeaveRequest>)
      requires Valid()
      reads this, insertionOrder
      ensures rs == Filter(insertionOrder, HasEmployee(employee))
      ensures Snapshots(rs) == Filter(View(), OfEmployee(employee))
    {
      IndexedIdsResolve(Entries(employeeIndex, employee), HasEmployee(employee));
      FilterOfSnapshots(insertionOrder, HasEmployee(employee), OfEmployee(employee));
      Resolve(Entries(employeeIndex, employee))
    }

    function GetRequestsForManager(manager: string): (rs: seq<LeaveRequest>)
      requires Valid()
      reads this, insertionOrder
      ensures rs == Filter(insertionOrder, HasManager(manager))
      ensures Snapshots(rs) == Filter(View(), OfManager(manager))
    {
      IndexedIdsResolve(Entries(managerIndex, manager), HasManager(manager));
      FilterOfSnapshots(insertionOrder, HasManager(manager), OfManager(manager));
      Resolve(Entries(managerIndex, manager))
    }

    /** Changes one record in place. The indexes hold ids, so they stay correct. */
    method SetStatus(request: LeaveRequest, newStatus: LeaveStatus, reason: Option<string>)
      requires Valid() && request in insertionOrder
      modifies request
      ensures Valid()
      ensures request.Snapshot() == old(request.Snapshot()).(
        status := newStatus, rejection := if newStatus == Rejected then reason else None)
      ensures var i := Position(old(View()), request.requestId);
        i >= 0 && View() == old(View())[i := old(View())[i].(
          status := newStatus, rejection := if newStatus == Rejected then reason else None)]
    {
      ghost var before := View();
      ghost var k :| 0 <= k < |insertionOrder| && insertionOrder[k] == request;
      assert Position(before, request.requestId) == k by {
        assert before[k].id == request.requestId;
        assert insertionOrder[Position(before, request.requestId)].requestId == request.requestId;
      }
      assert forall j :: 0 <= j < |insertionOrder| && j != k ==> insertionOrder[j] != request;
      request.status := newStatus;
      request.rejectionReason := if newStatus == Rejected then reason else None;
      ghost var after := before[k := WithStatus(before[k], newStatus, reason)];
      forall j | 0 <= j < |insertionOrder| ensures View()[j] == after[j] {
        assert j != k ==> insertionOrder[j].Snapshot() == before[j];
      }
    }
  }
}

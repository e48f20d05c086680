/** What the Leave Request Service computes, as functions of the sequence of requests in
    insertion order (leave_request_service/main.py, validators.py). */
module RequestLog {
  import opened Domain
  import opened Sequences
  import opened OrgChart

  // ---------------------------------------------------------------- lookups

  ghost predicate UniqueIds(rs: seq<Req>) {
    forall i, j :: 0 <= i < j < |rs| ==> rs[i].id != rs[j].id
  }

  /** The index of the request with this id, or -1. */
  function Position(rs: seq<Req>, id: string): (i: int)
    ensures -1 <= i < |rs|
    ensures 0 <= i ==> rs[i].id == id
    ensures i == -1 ==> forall k :: 0 <= k < |rs| ==> rs[k].id != id
  {
    if rs == [] then -1
    else if rs[|rs| - 1].id == id then |rs| - 1
    else Position(rs[..|rs| - 1], id)
  }

  function Find(rs: seq<Req>, id: string): (r: Option<Req>)
    ensures r.Some? ==> r.value in rs && r.value.id == id
    ensures r.None? ==> forall k :: 0 <= k < |rs| ==> rs[k].id != id
  {
    var i := Position(rs, id);
    if i < 0 then None else Some(rs[i])
  }

  function OfEmployee(employee: string): Req -> bool {
    (r: Req) => r.employee == employee
  }

  function OfManager(manager: string): Req -> bool {
    (r: Req) => r.manager == manager
  }

  // ------------------------------------------------------------- validators

  function ValidateDates(start: int, end: int, days: int, today: int): (r: Result<()>)
    ensures r.Ok? <==> start <= end && today <= start && days == |DaysOf(start, end)|
    ensures r.Err? ==> r.status == 400
  {
    if start > end then Err(BAD_REQUEST)
    else if start < today then Err(BAD_REQUEST)
    else if days != end - start + 1 then Err(BAD_REQUEST)
    else Ok(())
  }

  /** The loop of `check_overlap`, over the employee's own requests. */
  function OverlapScan(own: seq<Req>, start: int, end: int): Result<()> {
    if own == [] then Ok(())
    else if own[0].IsActive() && own[0].start <= end && start <= own[0].end then Err(CONFLICT)
    else OverlapScan(own[1..], start, end)
  }

  function CheckOverlap(rs: seq<Req>, employee: string, start: int, end: int): Result<()> {
    OverlapScan(Filter(rs, OfEmployee(employee)), start, end)
  }

  /** No pending or approved request of the employee shares a day with the range. */
  ghost predicate DaysFree(rs: seq<Req>, employee: string, start: int, end: int) {
    forall r :: r in rs && r.employee == employee && (r.status == Pending || r.status == Approved)
      ==> DaysOf(r.start, r.end) !! DaysOf(start, end)
  }

  lemma {:induction false} OverlapScanOk(own: seq<Req>, start: int, end: int)
    ensures OverlapScan(own, start, end).Ok? <==>
      forall r :: r in own && r.IsActive() ==> !(r.start <= end && start <= r.end)
    ensures OverlapScan(own, start, end).Err? ==> OverlapScan(own, start, end).status == 409
  {
    if own != [] {
      OverlapScanOk(own[1..], start, end);
      assert own == [own[0]] + own[1..];
    }
  }

  lemma RangesMeet(s1: int, e1: int, s2: int, e2: int)
    requires s1 <= e1 && s2 <= e2
    ensures s1 <= e2 && s2 <= e1 <==> !(DaysOf(s1, e1) !! DaysOf(s2, e2))
  {
    if s1 <= e2 && s2 <= e1 {
      var d := if s1 <= s2 then s2 else s1;
      assert d in DaysOf(s1, e1) && d in DaysOf(s2, e2);
    }
  }

  /** The comparison of end points decides exactly whether the days are free. */
  lemma CheckOverlapIffDaysFree(rs: seq<Req>, employee: string, start: int, end: int)
    requires start <= end
    requires forall r :: r in rs ==> r.start <= r.end
    ensures var check := CheckOverlap(rs, employee, start, end);
      (check.Ok? <==> DaysFree(rs, employee, start, end)) && (check.Err? ==> check.status == 409)
  {
    FilterMembers(rs, OfEmployee(employee));
    OverlapScanOk(Filter(rs, OfEmployee(employee)), start, end);
    forall r | r in rs
      ensures r.start <= end && start <= r.end <==> !(DaysOf(r.start, r.end) !! DaysOf(start, end))
    {
      RangesMeet(r.start, r.end, start, end);
    }
  }

  // ---------------------------------------------------------------- applying

  function ResolveManager(roster: seq<SeedUser>, employee: string, provided: Option<string>): (r: Result<string>)
    ensures r.Ok? <==>
      GetManagerId(roster, employee).Some? && (provided.Some? ==> provided == GetManagerId(roster, employee))
    ensures r.Ok? ==> GetManagerId(roster, employee) == Some(r.value)
    ensures r.Err? ==> r.status == 400
  {
    var resolved := GetManagerId(roster, employee);
    if resolved.None? then Err(BAD_REQUEST)
    else if provided.Some? && provided.value != resolved.value then Err(BAD_REQUEST)
    else Ok(resolved.value)
  }

  datatype Payload = Payload(
    leaveType: LeaveType, start: int, end: int, days: int, reason: string, provided: Option<string>)

  /** `apply_leave` up to its only `await`: the resolved manager, or the refusal. */
  function ApplyCheck(rs: seq<Req>, roster: seq<SeedUser>, employee: string, p: Payload, today: int): Result<string> {
    var dates := ValidateDates(p.start, p.end, p.days, today);
    if dates.Err? then Err(dates.status)
    else
      var manager := ResolveManager(roster, employee, p.provided);
      if manager.Err? then manager
      else
        var overlap := CheckOverlap(rs, employee, p.start, p.end);
        if overlap.Err? then Err(overlap.status) else manager
  }

  /** `apply_leave` after its `await`: the new request, or 409 when the balance is short. */
  function ApplyResume(id: string, employee: string, p: Payload, manager: string, remaining: int): Result<Req> {
    if p.days > remaining then Err(CONFLICT)
    else Ok(Req(id, employee, p.leaveType, p.start, p.end, p.days, p.reason, manager, Pending, None))
  }

  // ------------------------------------------------------------- transitions

  /** `set_status`: a reason survives only on a rejection. */
  function WithStatus(r: Req, status: LeaveStatus, reason: Option<string>): Req {
    r.(status := status, rejection := if status == Rejected then reason else None)
  }

  function Cancel(rs: seq<Req>, id: string, caller: string): Result<seq<Req>> {
    var i := Position(rs, id);
    if i < 0 then Err(NOT_FOUND)
    else if rs[i].employee != caller then Err(FORBIDDEN)
    else if rs[i].status != Pending then Err(CONFLICT)
    else Ok(rs[i := WithStatus(rs[i], Cancelled, None)])
  }

  function UpdateStatus(
    rs: seq<Req>, id: string, manager: string, status: LeaveStatus, reason: Option<string>): Result<seq<Req>>
  {
    var i := Position(rs, id);
    if i < 0 then Err(NOT_FOUND)
    else if rs[i].manager != manager then Err(FORBIDDEN)
    else if rs[i].status != Pending then Err(CONFLICT)
    else if status != Approved && status != Rejected then Err(BAD_REQUEST)
    else if status == Rejected && (reason.None? || IsBlank(reason.value)) then Err(BAD_REQUEST)
    else Ok(rs[i := WithStatus(rs[i], status, reason)])
  }

  /** The applicant can cancel exactly while the request is pending; an unknown request, one
      of another employee, and one that is settled are told apart. Only that request changes. */
  lemma CancelOutcome(rs: seq<Req>, id: string, caller: string)
    ensures var r, found, i := Cancel(rs, id, caller), Find(rs, id), Position(rs, id);
      && (r.Ok? <==> found.Some? && found.value.employee == caller && found.value.status == Pending)
      && (r == Err(404) <==> found.None?)
      && (r == Err(403) <==> found.Some? && found.value.employee != caller)
      && (r == Err(409) <==> found.Some? && found.value.employee == caller && found.value.status != Pending)
      && (r.Ok? ==> r.value == rs[i := rs[i].(status := Cancelled, rejection := None)])
  {
  }

  /** The manager a request is routed to can approve it exactly while it is pending, and
      reject it with a reason that is not blank; every refusal is told apart. Only that
      request changes, and only a rejection records the reason. */
  lemma UpdateOutcome(rs: seq<Req>, id: string, manager: string, status: LeaveStatus, reason: Option<string>)
    ensures var r, found, i := UpdateStatus(rs, id, manager, status, reason), Find(rs, id), Position(rs, id);
      var own := found.Some? && found.value.manager == manager;
      var allowed := status == Approved || (status == Rejected && reason.Some? && !IsBlank(reason.value));
      && (r.Ok? <==> own && found.value.status == Pending && allowed)
      && (r == Err(404) <==> found.None?)
      && (r == Err(403) <==> found.Some? && !own)
      && (r == Err(409) <==> own && found.value.status != Pending)
      && (r == Err(400) <==> own && found.value.status == Pending && !allowed)
      && (r.Ok? ==> r.value == rs[i := rs[i].(
            status := status, rejection := if status == Rejected then reason else None)])
  {
  }

  /** What an endpoint that attempted `change` leaves behind and answers: the new requests
      and the changed one, or everything as before and the error. */
  ghost predicate Answers(change: Result<seq<Req>>, before: seq<Req>, after: seq<Req>, id: string, reply: Result<Req>) {
    match change
    case Ok(rs) => after == rs && reply.Ok? && Find(rs, id) == Some(reply.value)
    case Err(status) => after == before && reply == Err(status)
  }

  // ---------------------------------------------------------------- queries

  /** The optional filters of the internal listing. */
  datatype Query = Query(
    manager: Option<string>, employee: Option<string>, id: Option<string>,
    status: Option<LeaveStatus>, from: Option<int>, to: Option<int>)

  function WithEmployee(q: Query): Req -> bool {
    (r: Req) => q.employee.Some? ==> r.employee == q.employee.value
  }

  function WithStatusOf(q: Query): Req -> bool {
    (r: Req) => q.status.Some? ==> r.status == q.status.value
  }

  function EndsFrom(q: Query): Req -> bool {
    (r: Req) => q.from.Some? ==> r.end >= q.from.value
  }

  function StartsTo(q: Query): Req -> bool {
    (r: Req) => q.to.Some? ==> r.start <= q.to.value
  }

  /** Every supplied filter holds of the request. */
  function Matches(q: Query): Req -> bool {
    (r: Req) =>
      && (q.id.Some? ==> r.id == q.id.value)
      && (q.manager.Some? ==> r.manager == q.manager.value)
      && (q.employee.Some? ==> r.employee == q.employee.value)
      && (q.status.Some? ==> r.status == q.status.value)
      && (q.from.Some? ==> r.end >= q.from.value)
      && (q.to.Some? ==> r.start <= q.to.value)
  }

  /** The candidates, taken from the narrowest index the code has for the query. */
  function Candidates(rs: seq<Req>, q: Query): seq<Req> {
    if q.id.Some? then
      var found := Find(rs, q.id.value);
      if found.Some? then [found.value] else []
    else if q.manager.Some? then Filter(rs, OfManager(q.manager.value))
    else if q.employee.Some? then Filter(rs, OfEmployee(q.employee.value))
    else rs
  }

  /** The filters `list_requests` applies after picking its candidates. */
  function Narrow(rs: seq<Req>, q: Query): seq<Req> {
    Filter(Filter(Filter(Filter(rs, WithEmployee(q)), WithStatusOf(q)), EndsFrom(q)), StartsTo(q))
  }

  function Listed(rs: seq<Req>, q: Query): seq<Req> {
    Narrow(Candidates(rs, q), q)
  }

  function Rest(q: Query): Req -> bool {
    And(And(And(WithEmployee(q), WithStatusOf(q)), EndsFrom(q)), StartsTo(q))
  }

  function WithId(id: string): Req -> bool {
    (r: Req) => r.id == id
  }

  lemma NarrowIsFilter(rs: seq<Req>, q: Query)
    ensures Narrow(rs, q) == Filter(rs, Rest(q))
  {
    FilterTwice(rs, WithEmployee(q), WithStatusOf(q));
    FilterTwice(rs, And(WithEmployee(q), WithStatusOf(q)), EndsFrom(q));
    FilterTwice(rs, And(And(WithEmployee(q), WithStatusOf(q)), EndsFrom(q)), StartsTo(q));
  }

  /** With distinct ids, the primary index finds what a scan by id would keep. */
  lemma {:induction false} FindIsFilter(rs: seq<Req>, id: string)
    requires UniqueIds(rs)
    ensures Filter(rs, WithId(id)) == (if Find(rs, id).Some? then [Find(rs, id).value] else [])
  {
    if rs != [] {
      var rest, last := rs[..|rs| - 1], rs[|rs| - 1];
      FindIsFilter(rest, id);
    }
  }

  /** The filter that the chosen index answers. */
  function Indexed(q: Query): Req -> bool {
    (r: Req) =>
      if q.id.Some? then r.id == q.id.value
      else if q.manager.Some? then r.manager == q.manager.value
      else if q.employee.Some? then r.employee == q.employee.value
      else true
  }

  lemma CandidatesAreFilter(rs: seq<Req>, q: Query)
    requires UniqueIds(rs)
    ensures Candidates(rs, q) == Filter(rs, Indexed(q))
  {
    if q.id.Some? {
      FindIsFilter(rs, q.id.value);
      FilterCongruence(rs, WithId(q.id.value), Indexed(q));
    } else if q.manager.Some? {
      FilterCongruence(rs, OfManager(q.manager.value), Indexed(q));
    } else if q.employee.Some? {
      FilterCongruence(rs, OfEmployee(q.employee.value), Indexed(q));
    } else {
      FilterKeepsAll(rs, Indexed(q));
    }
  }

  lemma MatchesSplits(q: Query, r: Req)
    requires q.id.None? || q.manager.None?
    ensures And(Indexed(q), Rest(q))(r) == Matches(q)(r)
  {
    RestSplits(q, r);
  }

  /** Without the manager filter on a lookup by id, the listing equals the naive filter of
      the whole store, in the same order. */
  lemma ListedIsNaiveFilter(rs: seq<Req>, q: Query)
    requires UniqueIds(rs)
    requires q.id.None? || q.manager.None?
    ensures Listed(rs, q) == Filter(rs, Matches(q))
  {
    CandidatesAreFilter(rs, q);
    NarrowIsFilter(Candidates(rs, q), q);
    FilterTwice(rs, Indexed(q), Rest(q));
    forall r | r in rs ensures And(Indexed(q), Rest(q))(r) == Matches(q)(r) {
      MatchesSplits(q, r);
    }
    FilterCongruence(rs, And(Indexed(q), Rest(q)), Matches(q));
  }

  lemma ListedUnlessBoth(rs: seq<Req>, q: Query)
    requires UniqueIds(rs)
    ensures q.id.None? || q.manager.None? ==> Listed(rs, q) == Filter(rs, Matches(q))
  {
    if q.id.None? || q.manager.None? {
      ListedIsNaiveFilter(rs, q);
    }
  }

  /** What is listed: the requests every supplied filter holds of, except that a manager is
      ignored beside an id. */
  lemma ListedMembers(rs: seq<Req>, q: Query)
    requires UniqueIds(rs)
    ensures forall r :: r in Listed(rs, q) <==>
      && r in rs
      && (q.id.Some? ==> r.id == q.id.value)
      && (q.manager.Some? && q.id.None? ==> r.manager == q.manager.value)
      && (q.employee.Some? ==> r.employee == q.employee.value)
      && (q.status.Some? ==> r.status == q.status.value)
      && (q.from.Some? ==> q.from.value <= r.end)
      && (q.to.Some? ==> r.start <= q.to.value)
  {
    CandidatesAreFilter(rs, q);
    NarrowIsFilter(Candidates(rs, q), q);
    forall r ensures r in Listed(rs, q) <==> r in rs && Indexed(q)(r) && Rest(q)(r) {
      FilterMembers(rs, Indexed(q));
      FilterMembers(Candidates(rs, q), Rest(q));
    }
    forall r: Req ensures Indexed(q)(r) && Rest(q)(r) <==>
      && (q.id.Some? ==> r.id == q.id.value)
      && (q.manager.Some? && q.id.None? ==> r.manager == q.manager.value)
      && (q.employee.Some? ==> r.employee == q.employee.value)
      && (q.status.Some? ==> r.status == q.status.value)
      && (q.from.Some? ==> q.from.value <= r.end)
      && (q.to.Some? ==> r.start <= q.to.value)
    {
      RestSplits(q, r);
    }
  }

  lemma RestSplits(q: Query, r: Req)
    ensures Rest(q)(r) <==> WithEmployee(q)(r) && WithStatusOf(q)(r) && EndsFrom(q)(r) && StartsTo(q)(r)
  {
    var both := And(And(WithEmployee(q), WithStatusOf(q)), EndsFrom(q));
    assert Rest(q)(r) == (both(r) && StartsTo(q)(r));
    assert both(r) == (And(WithEmployee(q), WithStatusOf(q))(r) && EndsFrom(q)(r));
  }

  /** With both a request id and a manager the code ignores the manager. The answer is
      still the naive one exactly when the request found by id belongs to that manager, or
      another filter removes it, or there is none. */
  lemma ListedByIdAndManagerIff(rs: seq<Req>, q: Query)
    requires UniqueIds(rs)
    requires q.id.Some? && q.manager.Some?
    ensures Listed(rs, q) == Filter(rs, Matches(q)) <==>
      var found := Find(rs, q.id.value);
      found.None? || found.value.manager == q.manager.value || !Matches(q.(manager := None))(found.value)
  {
    var q' := q.(manager := None);
    ListedIsNaiveFilter(rs, q');
    NarrowIsFilter(Candidates(rs, q), q);
    NarrowIsFilter(Candidates(rs, q'), q');
    FilterCongruence(Candidates(rs, q), Rest(q), Rest(q'));
    FilterMembers(rs, Matches(q));
    FilterMembers(rs, Matches(q'));
    var found := Find(rs, q.id.value);
    if found.None? || found.value.manager == q.manager.value || !Matches(q')(found.value) {
      forall r | r in rs ensures Matches(q)(r) == Matches(q')(r) {
        if r.id == q.id.value {
          var k :| 0 <= k < |rs| && rs[k] == r;
          assert k == Position(rs, r.id);
        }
      }
      FilterCongruence(rs, Matches(q), Matches(q'));
    } else {
      assert found.value in Filter(rs, Matches(q'));
      assert found.value !in Filter(rs, Matches(q));
    }
  }
}

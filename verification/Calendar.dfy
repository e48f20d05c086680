/** Calendar days: when the overlap check of `apply_leave` still holds at the insertion that
    follows its `await`, and what an employee's approved days then add up to. */
module Calendar {
  import opened Domain
  import opened Sequences
  import opened OrgChart
  import opened RequestLog
  import opened Balances
  import opened LeaveSystem
  import opened SystemInvariant
  import opened Conservation

  function Days(r: Req): set<int> {
    DaysOf(r.start, r.end)
  }

  /** The employee has asked for these days, or got them. */
  predicate Booked(r: Req) {
    r.status == Pending || r.status == Approved
  }

  /** No employee holds two pending or approved requests that share a day. */
  ghost predicate NoDoubleBooking(rs: seq<Req>) {
    forall i, j :: 0 <= i < j < |rs| && rs[i].employee == rs[j].employee && Booked(rs[i]) && Booked(rs[j])
      ==> Days(rs[i]) !! Days(rs[j])
  }

  /** The application asks for days of this employee and range. */
  predicate AsksFor(t: ApplyTask, employee: string, start: int, end: int) {
    t.employee == employee && !(DaysOf(t.payload.start, t.payload.end) !! DaysOf(start, end))
  }

  /** No two applications in flight ask for a common day of one employee, and the days they
      ask for are still free. */
  ghost predicate AppliesFree(rs: seq<Req>, applies: map<nat, ApplyTask>) {
    && (forall t, u :: t in applies && u in applies && t != u ==>
          !AsksFor(applies[t], applies[u].employee, applies[u].payload.start, applies[u].payload.end))
    && (forall t :: t in applies ==>
          DaysFree(rs, applies[t].employee, applies[t].payload.start, applies[t].payload.end))
  }

  /** No other application in flight asks for a day that this one asks for. That is so, in
      particular, if the employee has no other in flight. */
  ghost predicate Unrivalled(applies: map<nat, ApplyTask>, employee: string, p: Payload) {
    forall t :: t in applies ==> !AsksFor(applies[t], employee, p.start, p.end)
  }

  /** The step starts no application that races with another for a day. */
  ghost predicate RaceFree(s: State, step: Step) {
    step.StartApply? ==> Unrivalled(s.applies, step.employee, step.payload)
  }

  // ------------------------------------------------------------ steps

  lemma SettlingKeepsBooking(rs: seq<Req>, rs': seq<Req>, i: nat)
    requires NoDoubleBooking(rs) && Settles(rs, rs', i)
    ensures NoDoubleBooking(rs')
  {
  }

  lemma SettlingKeepsFree(rs: seq<Req>, rs': seq<Req>, i: nat, employee: string, start: int, end: int)
    requires DaysFree(rs, employee, start, end) && Settles(rs, rs', i)
    ensures DaysFree(rs', employee, start, end)
  {
    forall r | r in rs' && r.employee == employee && Booked(r)
      ensures DaysOf(r.start, r.end) !! DaysOf(start, end)
    {
      var j :| 0 <= j < |rs'| && rs'[j] == r;
      assert rs[j] in rs && rs[j].employee == employee;
    }
  }

  /** Adding a pending request double-books iff its days were not free. */
  lemma AppendingBooksIffFree(rs: seq<Req>, r: Req)
    requires NoDoubleBooking(rs) && r.status == Pending
    ensures NoDoubleBooking(rs + [r]) <==> DaysFree(rs, r.employee, r.start, r.end)
  {
    var rs' := rs + [r];
    if DaysFree(rs, r.employee, r.start, r.end) {
      forall i, j | 0 <= i < j < |rs'| && rs'[i].employee == rs'[j].employee && Booked(rs'[i]) && Booked(rs'[j])
        ensures Days(rs'[i]) !! Days(rs'[j])
      {
        assert rs[i] in rs;
      }
    }
    if NoDoubleBooking(rs') {
      forall x | x in rs && x.employee == r.employee && Booked(x)
        ensures DaysOf(x.start, x.end) !! DaysOf(r.start, r.end)
      {
        var i :| 0 <= i < |rs| && rs[i] == x;
        assert rs'[i] == x && rs'[|rs|] == r;
        assert Days(rs'[i]) !! Days(rs'[|rs|]);
      }
    }
  }

  /** A new request leaves the days free that it does not cover, and those of others. */
  lemma AppendingKeepsOthersFree(rs: seq<Req>, r: Req, employee: string, start: int, end: int)
    requires DaysFree(rs, employee, start, end)
    requires r.employee != employee || DaysOf(r.start, r.end) !! DaysOf(start, end)
    ensures DaysFree(rs + [r], employee, start, end)
  {
  }

  /** The step takes the application out of flight and stores its request. */
  predicate Inserting(s: State, step: Step) {
    && step.FinishApply? && step.task in s.applies
    && var t := s.applies[step.task];
       && t.remaining.Some? && t.payload.days <= t.remaining.value && Find(s.requests, step.id).None?
  }

  /** The request that an inserting step stores. */
  function Inserted(s: State, step: Step): Req
    requires Inserting(s, step)
  {
    var t := s.applies[step.task];
    Req(step.id, t.employee, t.payload.leaveType, t.payload.start, t.payload.end, t.payload.days, t.payload.reason,
        t.manager, Pending, None)
  }

  lemma AfterInserting(roster: seq<SeedUser>, s: State, step: Step)
    requires Inserting(s, step)
    ensures Do(roster, s, step) == s.(
      requests := s.requests + [Inserted(s, step)],
      applies := s.applies - {step.task},
      events := s.events + [LeaveApplied(step.id)])
  {
  }

  /** What `apply_leave` would find if it checked for overlaps again before inserting. */
  predicate StillFree(s: State, step: Step)
    requires Inserting(s, step)
  {
    var t := s.applies[step.task];
    CheckOverlap(s.requests, t.employee, t.payload.start, t.payload.end).Ok?
  }

  lemma FreeIffCheckOk(roster: seq<SeedUser>, s: State, employee: string, start: int, end: int)
    requires RequestsOk(roster, s.requests) && start <= end
    ensures DaysFree(s.requests, employee, start, end) <==> CheckOverlap(s.requests, employee, start, end).Ok?
  {
    forall r | r in s.requests ensures r.start <= r.end {
      var i :| 0 <= i < |s.requests| && s.requests[i] == r;
      assert RequestOk(roster, s.requests[i]);
    }
    CheckOverlapIffDaysFree(s.requests, employee, start, end);
  }

  /** A step either leaves the requests alone, settles one, or inserts an application's. */
  lemma RequestsAfter(roster: seq<SeedUser>, s: State, step: Step)
    requires DecisionsOk(s.requests, s.ledger, s.decisions)
    ensures var rs' := Do(roster, s, step).requests;
      if Inserting(s, step) then
        rs' == s.requests + [Inserted(s, step)]
      else rs' == s.requests || exists i :: Settles(s.requests, rs', i)
  {
    if step.CancelLeave? {
      if Cancel(s.requests, step.id, step.caller).Ok? { CancelSettles(s.requests, step.id, step.caller); }
    } else if step.Flip? && step.task in s.decisions && s.decisions[step.task].decision.Updates() {
      var t := s.decisions[step.task];
      assert SeenOk(s.requests, t);
      if Update(s.requests, t).Ok? { FlipSettles(s, t); }
    }
  }

  /** In any reachable state without double booking, a step creates one exactly when it
      inserts a request although the check would by then refuse it. */
  lemma StepKeepsBookingIff(roster: seq<SeedUser>, s: State, step: Step)
    requires Inv(roster, s) && NoDoubleBooking(s.requests)
    ensures NoDoubleBooking(Do(roster, s, step).requests) <==> (Inserting(s, step) ==> StillFree(s, step))
  {
    var rs' := Do(roster, s, step).requests;
    RequestsAfter(roster, s, step);
    if Inserting(s, step) {
      var t := s.applies[step.task];
      assert ApplyOk(roster, t);
      AppendingBooksIffFree(s.requests, rs'[|s.requests|]);
      FreeIffCheckOk(roster, s, t.employee, t.payload.start, t.payload.end);
    } else if rs' != s.requests {
      var i :| Settles(s.requests, rs', i);
      SettlingKeepsBooking(s.requests, rs', i);
    }
  }

  ghost predicate NeverDoubleBooked(roster: seq<SeedUser>, s0: State, steps: seq<Step>) {
    forall i :: 0 <= i <= |steps| ==> NoDoubleBooking(Exec(roster, s0, steps[..i]).requests)
  }

  /** Every insertion of the run would pass the overlap check again. */
  ghost predicate InsertionsStillFree(roster: seq<SeedUser>, s0: State, steps: seq<Step>) {
    forall i :: 0 <= i < |steps| && Inserting(Exec(roster, s0, steps[..i]), steps[i])
      ==> StillFree(Exec(roster, s0, steps[..i]), steps[i])
  }

  lemma BookedUpTo(roster: seq<SeedUser>, s0: State, steps: seq<Step>, n: nat)
    requires Init(s0) && n < |steps|
    requires NoDoubleBooking(Exec(roster, s0, steps[..n]).requests)
    ensures NoDoubleBooking(Exec(roster, s0, steps[..n + 1]).requests) <==>
      (Inserting(Exec(roster, s0, steps[..n]), steps[n]) ==> StillFree(Exec(roster, s0, steps[..n]), steps[n]))
  {
    InvAlways(roster, s0, steps[..n]);
    ExecPrefix(roster, s0, steps, n);
    StepKeepsBookingIff(roster, Exec(roster, s0, steps[..n]), steps[n]);
  }

  lemma {:induction false} StillFreeNeverDoubleBooks(roster: seq<SeedUser>, s0: State, steps: seq<Step>, n: nat)
    requires Init(s0) && InsertionsStillFree(roster, s0, steps) && n <= |steps|
    ensures NoDoubleBooking(Exec(roster, s0, steps[..n]).requests)
  {
    if n > 0 {
      StillFreeNeverDoubleBooks(roster, s0, steps, n - 1);
      BookedUpTo(roster, s0, steps, n - 1);
    }
  }

  /** No state of a run has a double booking if and only if each of its insertions would have
      passed the check again. The code does not check again, so this is not assured. */
  lemma NeverDoubleBookedIff(roster: seq<SeedUser>, s0: State, steps: seq<Step>)
    requires Init(s0)
    ensures NeverDoubleBooked(roster, s0, steps) <==> InsertionsStillFree(roster, s0, steps)
  {
    if InsertionsStillFree(roster, s0, steps) {
      forall i | 0 <= i <= |steps| ensures NoDoubleBooking(Exec(roster, s0, steps[..i]).requests) {
        StillFreeNeverDoubleBooks(roster, s0, steps, i);
      }
    }
    if NeverDoubleBooked(roster, s0, steps) {
      forall i | 0 <= i < |steps| && Inserting(Exec(roster, s0, steps[..i]), steps[i])
        ensures StillFree(Exec(roster, s0, steps[..i]), steps[i])
      {
        BookedUpTo(roster, s0, steps, i);
      }
    }
  }

  // ------------------------------------------------------------ without races

  /** Only `StartApply` puts applications in flight; nothing changes what they ask for. */
  ghost predicate SameOrFewer(applies: map<nat, ApplyTask>, applies': map<nat, ApplyTask>) {
    forall t :: t in applies' ==>
      t in applies && applies'[t].employee == applies[t].employee && applies'[t].payload == applies[t].payload
  }

  lemma AppliesAfter(roster: seq<SeedUser>, s: State, step: Step)
    requires !step.StartApply?
    ensures SameOrFewer(s.applies, Do(roster, s, step).applies)
  {
  }

  lemma FewerAppliesStayFree(rs: seq<Req>, applies: map<nat, ApplyTask>, applies': map<nat, ApplyTask>)
    requires AppliesFree(rs, applies) && SameOrFewer(applies, applies')
    ensures AppliesFree(rs, applies')
  {
  }

  /** Without a rival, the result of an application's overlap check survives every step of
      everyone else. */
  lemma RaceFreeKeepsFree(roster: seq<SeedUser>, s: State, step: Step)
    requires Inv(roster, s) && AppliesFree(s.requests, s.applies) && RaceFree(s, step)
    ensures AppliesFree(Do(roster, s, step).requests, Do(roster, s, step).applies)
    ensures Inserting(s, step) ==> StillFree(s, step)
  {
    var s' := Do(roster, s, step);
    RequestsAfter(roster, s, step);
    if step.StartApply? {
      StartIsFree(roster, s, step);
    } else if Inserting(s, step) {
      InsertionIsFree(roster, s, step);
    } else {
      AppliesAfter(roster, s, step);
      FewerAppliesStayFree(s.requests, s.applies, s'.applies);
      if s'.requests != s.requests {
        var i :| Settles(s.requests, s'.requests, i);
        SettlingKeepsAppliesFree(s.requests, s'.requests, i, s'.applies);
      }
    }
  }

  lemma SettlingKeepsAppliesFree(rs: seq<Req>, rs': seq<Req>, i: nat, applies: map<nat, ApplyTask>)
    requires AppliesFree(rs, applies) && Settles(rs, rs', i)
    ensures AppliesFree(rs', applies)
  {
    forall t | t in applies
      ensures DaysFree(rs', applies[t].employee, applies[t].payload.start, applies[t].payload.end)
    {
      SettlingKeepsFree(rs, rs', i, applies[t].employee, applies[t].payload.start, applies[t].payload.end);
    }
  }

  lemma NewApplyIsFree(rs: seq<Req>, applies: map<nat, ApplyTask>, task: nat, t: ApplyTask)
    requires AppliesFree(rs, applies)
    requires Unrivalled(applies, t.employee, t.payload)
    requires DaysFree(rs, t.employee, t.payload.start, t.payload.end)
    ensures AppliesFree(rs, applies[task := t])
  {
  }

  lemma CheckedDaysAreFree(roster: seq<SeedUser>, s: State, employee: string, p: Payload, today: int)
    requires RequestsOk(roster, s.requests)
    requires ApplyCheck(s.requests, roster, employee, p, today).Ok?
    ensures DaysFree(s.requests, employee, p.start, p.end)
  {
    FreeIffCheckOk(roster, s, employee, p.start, p.end);
  }

  lemma StartIsFree(roster: seq<SeedUser>, s: State, step: Step)
    requires RequestsOk(roster, s.requests) && AppliesFree(s.requests, s.applies)
    requires step.StartApply? && RaceFree(s, step)
    ensures AppliesFree(s.requests, Do(roster, s, step).applies)
  {
    var check := ApplyCheck(s.requests, roster, step.employee, step.payload, step.today);
    if step.task !in s.applies && check.Ok? {
      CheckedDaysAreFree(roster, s, step.employee, step.payload, step.today);
      NewApplyIsFree(s.requests, s.applies, step.task, ApplyTask(step.employee, step.payload, check.value, None));
    }
  }

  lemma DaysAreStillFree(roster: seq<SeedUser>, s: State, step: Step)
    requires RequestsOk(roster, s.requests) && AppliesOk(roster, s.applies)
    requires AppliesFree(s.requests, s.applies) && Inserting(s, step)
    ensures StillFree(s, step)
  {
    var t := s.applies[step.task];
    assert ApplyOk(roster, t);
    FreeIffCheckOk(roster, s, t.employee, t.payload.start, t.payload.end);
  }

  lemma InsertionIsFree(roster: seq<SeedUser>, s: State, step: Step)
    requires RequestsOk(roster, s.requests) && AppliesOk(roster, s.applies)
    requires AppliesFree(s.requests, s.applies) && Inserting(s, step)
    ensures AppliesFree(Do(roster, s, step).requests, Do(roster, s, step).applies)
    ensures StillFree(s, step)
  {
    DaysAreStillFree(roster, s, step);
    AfterInserting(roster, s, step);
    OthersStayFree(s.requests, Inserted(s, step), s.applies, step.task);
  }

  lemma OthersStayFree(rs: seq<Req>, r: Req, applies: map<nat, ApplyTask>, task: nat)
    requires AppliesFree(rs, applies) && task in applies && r.employee == applies[task].employee
    requires r.start == applies[task].payload.start && r.end == applies[task].payload.end
    ensures AppliesFree(rs + [r], applies - {task})
  {
    forall u | u in applies - {task}
      ensures DaysFree(rs + [r], applies[u].employee, applies[u].payload.start, applies[u].payload.end)
    {
      AppendingKeepsOthersFree(rs, r, applies[u].employee, applies[u].payload.start, applies[u].payload.end);
    }
  }

  ghost predicate RaceFreeRun(roster: seq<SeedUser>, s0: State, steps: seq<Step>) {
    forall i :: 0 <= i < |steps| ==> RaceFree(Exec(roster, s0, steps[..i]), steps[i])
  }

  lemma {:induction false} RaceFreeStaysFree(roster: seq<SeedUser>, s0: State, steps: seq<Step>, n: nat)
    requires Init(s0) && RaceFreeRun(roster, s0, steps) && n <= |steps|
    ensures AppliesFree(Exec(roster, s0, steps[..n]).requests, Exec(roster, s0, steps[..n]).applies)
  {
    if n > 0 {
      RaceFreeStaysFree(roster, s0, steps, n - 1);
      InvAlways(roster, s0, steps[..n - 1]);
      ExecPrefix(roster, s0, steps, n - 1);
      RaceFreeKeepsFree(roster, Exec(roster, s0, steps[..n - 1]), steps[n - 1]);
    }
  }

  /** As long as no two applications in flight ask for a common day of one employee, nobody
      is ever double-booked, however cancellations, decisions and all else interleave. */
  lemma RaceFreeNeverDoubleBooks(roster: seq<SeedUser>, s0: State, steps: seq<Step>)
    requires Init(s0) && RaceFreeRun(roster, s0, steps)
    ensures NeverDoubleBooked(roster, s0, steps)
  {
    forall i | 0 <= i < |steps| && Inserting(Exec(roster, s0, steps[..i]), steps[i])
      ensures StillFree(Exec(roster, s0, steps[..i]), steps[i])
    {
      RaceFreeStaysFree(roster, s0, steps, i);
      InvAlways(roster, s0, steps[..i]);
      RaceFreeKeepsFree(roster, Exec(roster, s0, steps[..i]), steps[i]);
    }
    NeverDoubleBookedIff(roster, s0, steps);
  }

  // ------------------------------------------------------------ the calendar

  predicate ApprovedFor(r: Req, employee: string) {
    r.employee == employee && r.status == Approved
  }

  /** The calendar days an employee is away with approval. */
  function DaysAway(rs: seq<Req>, employee: string): set<int> {
    set i, d | 0 <= i < |rs| && ApprovedFor(rs[i], employee) && d in Days(rs[i]) :: d
  }

  function ApprovedInTotal(employee: string): Req -> int {
    (r: Req) => if ApprovedFor(r, employee) then r.days else 0
  }

  lemma DaysAwayGrows(rs: seq<Req>, r: Req, employee: string)
    ensures DaysAway(rs + [r], employee)
         == DaysAway(rs, employee) + (if ApprovedFor(r, employee) then Days(r) else {})
  {
    var rs' := rs + [r];
    forall d | d in DaysAway(rs, employee) ensures d in DaysAway(rs', employee) {
      var i :| 0 <= i < |rs| && ApprovedFor(rs[i], employee) && d in Days(rs[i]);
      assert rs'[i] == rs[i];
    }
    assert rs'[|rs|] == r;
  }

  /** No two approved requests of the employee share a day. */
  ghost predicate ApprovedApart(rs: seq<Req>, employee: string) {
    forall i, j :: 0 <= i < j < |rs| && ApprovedFor(rs[i], employee) && ApprovedFor(rs[j], employee)
      ==> Days(rs[i]) !! Days(rs[j])
  }

  lemma ApprovedApartGrows(rest: seq<Req>, last: Req, employee: string)
    ensures ApprovedApart(rest + [last], employee) <==>
      ApprovedApart(rest, employee) && (ApprovedFor(last, employee) ==> DaysAway(rest, employee) !! Days(last))
  {
    var rs := rest + [last];
    assert rs[|rest|] == last && forall i :: 0 <= i < |rest| ==> rs[i] == rest[i];
    if ApprovedApart(rs, employee) {
      forall i, j | 0 <= i < j < |rest| && ApprovedFor(rest[i], employee) && ApprovedFor(rest[j], employee)
        ensures Days(rest[i]) !! Days(rest[j])
      {
        assert Days(rs[i]) !! Days(rs[j]);
      }
      forall d | ApprovedFor(last, employee) && d in DaysAway(rest, employee) ensures d !in Days(last) {
        var i :| 0 <= i < |rest| && ApprovedFor(rest[i], employee) && d in Days(rest[i]);
        assert Days(rs[i]) !! Days(rs[|rest|]);
      }
    }
    if ApprovedFor(last, employee) && DaysAway(rest, employee) !! Days(last) {
      forall i | 0 <= i < |rest| && ApprovedFor(rest[i], employee) ensures Days(rest[i]) !! Days(last) {
        assert forall d :: d in Days(rest[i]) ==> d in DaysAway(rest, employee);
      }
    }
  }

  lemma UnionSize(a: set<int>, b: set<int>)
    ensures |a + b| <= |a| + |b|
    ensures |a + b| == |a| + |b| <==> a !! b
  {
    assert |a + b| + |a * b| == |a| + |b|;
    assert forall x :: x in a * b <==> x in a && x in b;
    if a !! b {
      assert a * b == {};
    }
  }

  /** Days away are at most the approved days; they are as many exactly without overlaps. */
  lemma {:induction false} DaysAwayCount(rs: seq<Req>, employee: string)
    requires forall i :: 0 <= i < |rs| ==> rs[i].days == |Days(rs[i])|
    ensures |DaysAway(rs, employee)| <= SumBy(rs, ApprovedInTotal(employee))
    ensures |DaysAway(rs, employee)| == SumBy(rs, ApprovedInTotal(employee)) <==> ApprovedApart(rs, employee)
  {
    if rs != [] {
      var rest, last := rs[..|rs| - 1], rs[|rs| - 1];
      assert rs == rest + [last];
      DaysAwayCount(rest, employee);
      DaysAwayGrows(rest, last, employee);
      ApprovedApartGrows(rest, last, employee);
      UnionSize(DaysAway(rest, employee), Days(last));
    }
  }

  lemma {:induction false} TotalByType(rs: seq<Req>, employee: string)
    ensures SumBy(rs, ApprovedInTotal(employee)) ==
      ApprovedDays(rs, (employee, Casual)) + ApprovedDays(rs, (employee, Sick))
      + ApprovedDays(rs, (employee, Privilege))
  {
    if rs != [] {
      var rest, last := rs[..|rs| - 1], rs[|rs| - 1];
      TotalByType(rest, employee);
      assert last.Key() == (last.employee, last.leaveType);
      match last.leaveType {
        case Casual =>
        case Sick =>
        case Privilege =>
      }
    }
  }

  function AllocatedInTotal(a: Accounts, employee: string): int {
    Allocated(a, (employee, Casual)) + Allocated(a, (employee, Sick)) + Allocated(a, (employee, Privilege))
  }

  /** In every reachable state the number of calendar days an employee is away is at most
      the sum of their approved days, and that is at most the allocations of all leave types
      together. The days away are as many as the approved days if and only if no two approved
      requests share a day. */
  lemma DaysAwayWithinAllocation(roster: seq<SeedUser>, s0: State, steps: seq<Step>, employee: string)
    requires Init(s0)
    ensures var rs := Exec(roster, s0, steps).requests;
      && |DaysAway(rs, employee)| <= SumBy(rs, ApprovedInTotal(employee)) <= AllocatedInTotal(s0.accounts, employee)
      && (|DaysAway(rs, employee)| == SumBy(rs, ApprovedInTotal(employee)) <==> ApprovedApart(rs, employee))
  {
    var rs := Exec(roster, s0, steps).requests;
    InvAlways(roster, s0, steps);
    forall i | 0 <= i < |rs| ensures rs[i].days == |Days(rs[i])| {
      assert RequestOk(roster, rs[i]);
    }
    DaysAwayCount(rs, employee);
    TotalByType(rs, employee);
    ApprovedNeverExceedsAllocation(roster, s0, steps, (employee, Casual));
    ApprovedNeverExceedsAllocation(roster, s0, steps, (employee, Sick));
    ApprovedNeverExceedsAllocation(roster, s0, steps, (employee, Privilege));
  }

  /** So they are as many after every run whose applications do not race for a day. */
  lemma RaceFreeDaysAwayAddUp(roster: seq<SeedUser>, s0: State, steps: seq<Step>, employee: string)
    requires Init(s0) && RaceFreeRun(roster, s0, steps)
    ensures var rs := Exec(roster, s0, steps).requests;
      |DaysAway(rs, employee)| == SumBy(rs, ApprovedInTotal(employee))
  {
    RaceFreeNeverDoubleBooks(roster, s0, steps);
    assert steps[..|steps|] == steps;
    DaysAwayWithinAllocation(roster, s0, steps, employee);
  }

  lemma DefaultAllocation(employees: seq<SeedUser>, employee: string, t: LeaveType)
    ensures Allocated(SeededAccounts(employees, DEFAULT_LEAVE_ALLOCATIONS, |employees|), (employee, t))
         <= (match t case Casual => 12 case Sick => 10 case Privilege => 15)
  {
    SeededAccountsExact(employees, DEFAULT_LEAVE_ALLOCATIONS, |employees|, (employee, t));
    assert |DEFAULT_LEAVE_ALLOCATIONS| == 3;
  }

  /** As the platform is seeded, nobody is ever away for more than 12 + 10 + 15 days. */
  lemma AtMostThirtySevenDaysAway(
    roster: seq<SeedUser>, employees: seq<SeedUser>, steps: seq<Step>, employee: string)
    ensures
      var a := SeededAccounts(employees, DEFAULT_LEAVE_ALLOCATIONS, |employees|);
      |DaysAway(Exec(roster, State([], a, map[], map[], [], []), steps).requests, employee)| <= 37
  {
    var a := SeededAccounts(employees, DEFAULT_LEAVE_ALLOCATIONS, |employees|);
    SeedingStartsTheSystem(employees, DEFAULT_LEAVE_ALLOCATIONS);
    DaysAwayWithinAllocation(roster, State([], a, map[], map[], [], []), steps, employee);
    DefaultAllocation(employees, employee, Casual);
    DefaultAllocation(employees, employee, Sick);
    DefaultAllocation(employees, employee, Privilege);
  }
}

/** Runs that break what one might expect of the system: each holds on whole families of
    inputs, from freshly seeded services. */
module Races {
  import opened Domain
  import opened Sequences
  import opened OrgChart
  import opened RequestLog
  import opened Balances
  import opened LeaveSystem
  import opened SystemInvariant
  import opened Calendar
  import opened Endpoints
  import Applying
  import ManagerService

  /** Services where r is the only request, with these accounts, and nothing is under way. */
  function Alone(r: Req, a: Accounts): State {
    State([r], a, map[], map[], [], [LeaveApplied(r.id)])
  }

  function Asked(r: Req): Payload {
    Payload(r.leaveType, r.start, r.end, r.days, r.reason, None)
  }

  /** The run of one application for r. */
  function ApplySteps(r: Req, today: int): seq<Step> {
    Applying.ApplySteps(0, r.employee, Asked(r), today, r.id, Delivered)
  }

  lemma ApplyingReachesAlone(roster: seq<SeedUser>, s0: State, r: Req, today: int)
    requires Init(s0) && RequestOk(roster, r) && r.status == Pending && today <= r.start
    requires r.days <= Remaining(s0.accounts, r.Key())
    ensures Exec(roster, s0, ApplySteps(r, today)) == Alone(r, s0.accounts)
  {
    Applying.ApplyIsARun(roster, s0, 0, r.employee, Asked(r), today, r.id, Delivered);
    assert s0.requests + [r] == [r];
  }

  /** The state after two approvals of r have both deducted. */
  function BothDeducted(r: Req, a: Accounts): State
    requires r.Key() in a
  {
    Alone(r, a[r.Key() := a[r.Key()].(used := a[r.Key()].used + 2 * r.days)]).(
      decisions := map[1 := DecisionTask(r, r.manager, true, Flipping(0)),
                       2 := DecisionTask(r, r.manager, true, Flipping(1))],
      ledger := [Entry(r.id, r.Key(), r.days, false), Entry(r.id, r.Key(), r.days, false)])
  }

  /** The state after two approvals of r have both loaded it. */
  function BothLoaded(r: Req, a: Accounts): State {
    Alone(r, a).(decisions := map[1 := DecisionTask(r, r.manager, true, Deducting),
                                  2 := DecisionTask(r, r.manager, true, Deducting)])
  }

  lemma BothApprovalsLoad(roster: seq<SeedUser>, r: Req, a: Accounts)
    requires r.status == Pending
    ensures Do(roster, Do(roster, Alone(r, a), LoadApprove(1, r.id, r.manager)), LoadApprove(2, r.id, r.manager))
         == BothLoaded(r, a)
  {
    assert LoadPending([r], r.id, r.manager) == Ok(r);
    var s1 := Do(roster, Alone(r, a), LoadApprove(1, r.id, r.manager));
    assert s1 == Alone(r, a).(decisions := map[1 := DecisionTask(r, r.manager, true, Deducting)]);
  }

  lemma BothApprovalsDeduct(roster: seq<SeedUser>, r: Req, a: Accounts)
    requires 0 < r.days && r.Key() in a && 2 * r.days <= a[r.Key()].Remaining()
    ensures Do(roster, Do(roster, BothLoaded(r, a), LeaveSystem.Deduct(1, true)), LeaveSystem.Deduct(2, true))
         == BothDeducted(r, a)
  {
    var s := BothLoaded(r, a);
    var s1 := Do(roster, s, LeaveSystem.Deduct(1, true));
    assert s1 == s.(
      accounts := Charged(a, r),
      decisions := s.decisions[1 := s.decisions[1].(decision := Flipping(0))],
      ledger := [Entry(r.id, r.Key(), r.days, false)]);
    assert Balances.Deduct(s1.accounts, r.Key(), r.days).Ok?;
  }

  lemma OnlyOneApprovalWins(roster: seq<SeedUser>, r: Req, a: Accounts)
    requires r.status == Pending && r.Key() in a
    ensures var end := Do(roster, Do(roster, Do(roster, BothDeducted(r, a), Flip(1, true)), Flip(2, true)),
                          HearReply(1));
      && end.decisions == map[]
      && end.accounts == BothDeducted(r, a).accounts
      && end.requests == [WithStatus(r, Approved, None)]
  {
    var s5 := Do(roster, BothDeducted(r, a), Flip(1, true));
    assert s5.requests == [WithStatus(r, Approved, None)];
    var replying := DecisionTask(r, r.manager, true, Replying(LeaveApproved(r.id)));
    assert s5.decisions == map[1 := replying, 2 := DecisionTask(r, r.manager, true, Flipping(1))];
    assert Update(s5.requests, s5.decisions[2]).Err?;
    var s6 := Do(roster, s5, Flip(2, true));
    assert s6 == s5.(decisions := map[1 := replying]);
    assert s6.decisions - {1} == map[];
  }

  function RaceSteps(r: Req): seq<Step> {
    [LoadApprove(1, r.id, r.manager), LoadApprove(2, r.id, r.manager)]
    + [LeaveSystem.Deduct(1, true), LeaveSystem.Deduct(2, true)]
    + [Flip(1, true), Flip(2, true)]
    + [HearReply(1)]
  }

  /** Without the care of CarefulRuns the books need not balance: on fresh services, whatever is applied
      for, if the balance covers it twice, two racing approvals charge it twice. */
  lemma RacingApprovalsOvercharge(roster: seq<SeedUser>, s0: State, r: Req, today: int)
    requires Init(s0) && RequestOk(roster, r) && r.status == Pending && today <= r.start
    requires 2 * r.days <= Remaining(s0.accounts, r.Key())
    ensures var end := Exec(roster, s0, ApplySteps(r, today) + RaceSteps(r));
      && end.decisions == map[]
      && Used(end.accounts, r.Key()) == 2 * r.days
      && ApprovedDays(end.requests, r.Key()) == r.days
  {
    var a := s0.accounts;
    ApplyingReachesAlone(roster, s0, r, today);
    ExecConcat(roster, s0, ApplySteps(r, today), RaceSteps(r));
    RaceEnds(roster, r, a);
    var end := Exec(roster, Alone(r, a), RaceSteps(r));
    SumByAppend([], end.requests[0], ApprovedShare(r.Key()));
    assert end.requests == [] + [end.requests[0]];
  }

  lemma RaceEnds(roster: seq<SeedUser>, r: Req, a: Accounts)
    requires r.status == Pending && 0 < r.days && r.Key() in a && 2 * r.days <= a[r.Key()].Remaining()
    ensures var end := Exec(roster, Alone(r, a), RaceSteps(r));
      && end.decisions == map[]
      && end.accounts == BothDeducted(r, a).accounts
      && end.requests == [WithStatus(r, Approved, None)]
  {
    var loads := [LoadApprove(1, r.id, r.manager), LoadApprove(2, r.id, r.manager)];
    var deducts := [LeaveSystem.Deduct(1, true), LeaveSystem.Deduct(2, true)];
    var flips := [Flip(1, true), Flip(2, true)];
    var s := Alone(r, a);
    BothApprovalsLoad(roster, r, a);
    BothApprovalsDeduct(roster, r, a);
    OnlyOneApprovalWins(roster, r, a);
    ExecTwo(roster, s, loads[0], loads[1]);
    ExecTwo(roster, BothLoaded(r, a), deducts[0], deducts[1]);
    ExecTwo(roster, BothDeducted(r, a), flips[0], flips[1]);
    ExecConcat(roster, s, loads, deducts);
    ExecConcat(roster, s, loads + deducts, flips);
    ExecConcat(roster, s, loads + deducts + flips, [HearReply(1)]);
    ExecOne(roster, Exec(roster, s, loads + deducts + flips), HearReply(1));
  }

  // ------------------------------------------------- two applications at once

  /** Two applications for the same days whose checks both precede either insertion. */
  function DoubleApplySteps(r: Req, id: string, today: int): seq<Step> {
    [StartApply(0, r.employee, Asked(r), today), StartApply(1, r.employee, Asked(r), today)]
    + [ReadBalance(0), ReadBalance(1)]
    + [FinishApply(0, r.id), FinishApply(1, id)]
  }

  /** Both applications in flight, with the balance read or not. */
  function BothApplying(s0: State, r: Req, remaining: Option<int>): State {
    var t := ApplyTask(r.employee, Asked(r), r.manager, remaining);
    s0.(applies := map[0 := t, 1 := t])
  }

  lemma BothApplicationsStart(roster: seq<SeedUser>, s0: State, r: Req, today: int)
    requires Init(s0) && RequestOk(roster, r) && today <= r.start
    ensures Do(roster, Do(roster, s0, StartApply(0, r.employee, Asked(r), today)),
               StartApply(1, r.employee, Asked(r), today)) == BothApplying(s0, r, None)
  {
    var s1 := Do(roster, s0, StartApply(0, r.employee, Asked(r), today));
    assert s1 == s0.(applies := map[0 := ApplyTask(r.employee, Asked(r), r.manager, None)]);
  }

  lemma BothApplicationsRead(roster: seq<SeedUser>, s0: State, r: Req)
    ensures Do(roster, Do(roster, BothApplying(s0, r, None), ReadBalance(0)), ReadBalance(1))
         == BothApplying(s0, r, Some(Remaining(s0.accounts, r.Key())))
  {
  }

  /** The first of the two has been stored. */
  function OneFinished(s0: State, r: Req): State {
    BothApplying(s0, r, Some(Remaining(s0.accounts, r.Key()))).(
      requests := [r],
      applies := map[1 := ApplyTask(r.employee, Asked(r), r.manager, Some(Remaining(s0.accounts, r.Key())))],
      events := s0.events + [LeaveApplied(r.id)])
  }

  lemma FirstApplicationFinishes(roster: seq<SeedUser>, s0: State, r: Req)
    requires s0.requests == [] && r.status == Pending && r.rejection == None
    requires r.days <= Remaining(s0.accounts, r.Key())
    ensures Do(roster, BothApplying(s0, r, Some(Remaining(s0.accounts, r.Key()))), FinishApply(0, r.id))
         == OneFinished(s0, r)
  {
    var s := BothApplying(s0, r, Some(Remaining(s0.accounts, r.Key())));
    assert s.applies - {0} == OneFinished(s0, r).applies;
    assert s.requests + [r] == [r];
  }

  lemma SecondApplicationFinishes(roster: seq<SeedUser>, s0: State, r: Req, id: string)
    requires id != r.id && r.status == Pending && r.rejection == None
    requires r.days <= Remaining(s0.accounts, r.Key())
    ensures Do(roster, OneFinished(s0, r), FinishApply(1, id)).requests == [r, r.(id := id)]
  {
    assert [r] + [r.(id := id)] == [r, r.(id := id)];
  }

  lemma BothApplicationsFinish(roster: seq<SeedUser>, s0: State, r: Req, id: string)
    requires s0.requests == [] && id != r.id && r.status == Pending && r.rejection == None
    requires r.days <= Remaining(s0.accounts, r.Key())
    ensures var waiting := BothApplying(s0, r, Some(Remaining(s0.accounts, r.Key())));
      Exec(roster, waiting, [FinishApply(0, r.id), FinishApply(1, id)]).requests == [r, r.(id := id)]
  {
    var waiting := BothApplying(s0, r, Some(Remaining(s0.accounts, r.Key())));
    FirstApplicationFinishes(roster, s0, r);
    SecondApplicationFinishes(roster, s0, r, id);
    ExecTwo(roster, waiting, FinishApply(0, r.id), FinishApply(1, id));
  }

  lemma SameDaysDoubleBook(r: Req, id: string)
    requires r.status == Pending && r.start <= r.end
    ensures !NoDoubleBooking([r, r.(id := id)])
  {
    var rs := [r, r.(id := id)];
    assert r.start in Days(rs[0]) && r.start in Days(rs[1]);
  }

  /** When two applications in flight ask for the same days, the employee is booked twice,
      whatever is applied for: both overlap checks pass before either request is stored. */
  lemma ConcurrentApplicationsDoubleBook(roster: seq<SeedUser>, s0: State, r: Req, id: string, today: int)
    requires Init(s0) && RequestOk(roster, r) && r.status == Pending && today <= r.start
    requires id != r.id && r.days <= Remaining(s0.accounts, r.Key())
    ensures var end := Exec(roster, s0, DoubleApplySteps(r, id, today));
      end.requests == [r, r.(id := id)] && !NoDoubleBooking(end.requests)
  {
    var starts := [StartApply(0, r.employee, Asked(r), today), StartApply(1, r.employee, Asked(r), today)];
    var lookups := [ReadBalance(0), ReadBalance(1)];
    BothApplicationsStart(roster, s0, r, today);
    BothApplicationsRead(roster, s0, r);
    ExecTwo(roster, s0, starts[0], starts[1]);
    ExecTwo(roster, BothApplying(s0, r, None), lookups[0], lookups[1]);
    BothApplicationsFinish(roster, s0, r, id);
    ExecConcat(roster, s0, starts, lookups);
    ExecConcat(roster, s0, starts + lookups, [FinishApply(0, r.id), FinishApply(1, id)]);
    SameDaysDoubleBook(r, id);
  }

  // ------------------------------------------------- a reply that is lost

  /** One approval of r, whose status update meets this fate. */
  function ApprovalOf(r: Req, flip: Call): seq<Step> {
    ManagerService.ApproveSteps(1, r.id, r.manager, Delivered, Delivered, flip)
  }

  /** The approval flips the status whether its manager learns of it or not. */
  lemma OneApprovalFlips(roster: seq<SeedUser>, s: State, r: Req, flip: Call)
    requires s.requests == [r] && s.decisions == map[] && r.status == Pending && flip != NotSent
    requires 0 < r.days <= Remaining(s.accounts, r.Key())
    ensures var s' := Exec(roster, s, ApprovalOf(r, flip));
      && s'.requests == [WithStatus(r, Approved, None)] && s'.accounts == Charged(s.accounts, r)
      && s'.events == s.events + (if flip == Delivered then [LeaveApproved(r.id)] else [])
      && s'.decisions == map[] && s'.applies == s.applies
  {
    ManagerService.ApproveIsARun(roster, s, 1, r.id, r.manager, Delivered, Delivered, flip);
    assert Position([r], r.id) == 0;
    ManagerService.PossibleApproval(s.requests, s.accounts, r.id, r.manager, Delivered, flip);
  }

  /** A status update whose reply is lost mutes the decision: on fresh services, whatever is
      applied for, it is approved and charged, and no approval is ever published. */
  lemma LostReplyMutes(roster: seq<SeedUser>, s0: State, r: Req, today: int)
    requires Init(s0) && RequestOk(roster, r) && r.status == Pending && today <= r.start
    requires r.days <= Remaining(s0.accounts, r.Key())
    ensures var end := Exec(roster, s0, ApplySteps(r, today) + ApprovalOf(r, ReplyLost));
      && end.decisions == map[]
      && end.requests == [WithStatus(r, Approved, None)]
      && end.accounts == Charged(s0.accounts, r)
      && end.events == [LeaveApplied(r.id)]
  {
    ApplyingReachesAlone(roster, s0, r, today);
    OneApprovalFlips(roster, Alone(r, s0.accounts), r, ReplyLost);
    ExecConcat(roster, s0, ApplySteps(r, today), ApprovalOf(r, ReplyLost));
  }

  // ------------------------------------------------- a balance read too early

  /** An application for q reads the balance; then r, the only request so far, is approved;
      then the application goes on. */
  function StaleReadSteps(r: Req, q: Req, today: int): seq<Step> {
    [StartApply(0, q.employee, Asked(q), today), ReadBalance(0)]
    + ApprovalOf(r, Delivered)
    + [FinishApply(0, q.id)]
  }

  /** With r stored, an application for q has read the balance. */
  function AppliedLater(r: Req, q: Req, a: Accounts): State {
    Alone(r, a).(applies := map[0 := ApplyTask(q.employee, Asked(q), q.manager, Some(Remaining(a, q.Key())))])
  }

  lemma LaterApplicationPasses(roster: seq<SeedUser>, r: Req, q: Req, today: int)
    requires RequestOk(roster, r) && RequestOk(roster, q) && today <= q.start && r.end < q.start
    ensures ApplyCheck([r], roster, q.employee, Asked(q), today) == Ok(q.manager)
  {
    CheckOverlapIffDaysFree([r], q.employee, q.start, q.end);
  }

  lemma LaterApplicationReads(roster: seq<SeedUser>, r: Req, q: Req, a: Accounts, today: int)
    requires RequestOk(roster, r) && RequestOk(roster, q) && today <= q.start && r.end < q.start
    ensures Exec(roster, Alone(r, a), [StartApply(0, q.employee, Asked(q), today), ReadBalance(0)])
         == AppliedLater(r, q, a)
  {
    var s, start := Alone(r, a), StartApply(0, q.employee, Asked(q), today);
    LaterApplicationPasses(roster, r, q, today);
    assert Do(roster, s, start) == s.(applies := map[0 := ApplyTask(q.employee, Asked(q), q.manager, None)]);
    ExecTwo(roster, s, start, ReadBalance(0));
  }

  lemma WaitingApplicationFinishes(roster: seq<SeedUser>, r: Req, q: Req, a: Accounts)
    requires r.status == Pending && q.status == Pending && q.rejection == None && q.id != r.id
    requires 0 < r.days <= Remaining(a, r.Key()) && q.days <= Remaining(a, q.Key())
    ensures var approved := Exec(roster, AppliedLater(r, q, a), ApprovalOf(r, Delivered));
      var end := Exec(roster, approved, [FinishApply(0, q.id)]);
      end.requests == [WithStatus(r, Approved, None), q] && end.accounts == Charged(a, r)
  {
    var approved := Exec(roster, AppliedLater(r, q, a), ApprovalOf(r, Delivered));
    OneApprovalFlips(roster, AppliedLater(r, q, a), r, Delivered);
    ExecOne(roster, approved, FinishApply(0, q.id));
    assert approved.requests + [q] == [WithStatus(r, Approved, None), q];
  }

  /** An accepted application need not be covered any more: on fresh services, of any two
      requests on one balance that each fit it and together do not, the second is accepted
      and stored although the approval of the first has already used up its days. */
  lemma StaleReadAccepts(roster: seq<SeedUser>, s0: State, r: Req, q: Req, today: int)
    requires Init(s0) && RequestOk(roster, r) && RequestOk(roster, q) && r.status == Pending && q.status == Pending
    requires today <= r.start && r.end < q.start && q.id != r.id && q.Key() == r.Key()
    requires var remaining := Remaining(s0.accounts, r.Key());
      r.days <= remaining && q.days <= remaining < r.days + q.days
    ensures var end := Exec(roster, s0, ApplySteps(r, today) + StaleReadSteps(r, q, today));
      && end.requests == [WithStatus(r, Approved, None), q]
      && Remaining(end.accounts, q.Key()) < q.days
  {
    var lookup := [StartApply(0, q.employee, Asked(q), today), ReadBalance(0)];
    var s := Alone(r, s0.accounts);
    ApplyingReachesAlone(roster, s0, r, today);
    LaterApplicationReads(roster, r, q, s0.accounts, today);
    WaitingApplicationFinishes(roster, r, q, s0.accounts);
    ExecConcat(roster, s, lookup, ApprovalOf(r, Delivered));
    ExecConcat(roster, s, lookup + ApprovalOf(r, Delivered), [FinishApply(0, q.id)]);
    ExecConcat(roster, s0, ApplySteps(r, today), StaleReadSteps(r, q, today));
  }
}

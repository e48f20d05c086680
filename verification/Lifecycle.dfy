/** The life of a request over whole runs: one change of status at most, one published
    decision at most, and the right manager's queue. */
module Lifecycle {
  import opened Domain
  import opened Sequences
  import opened OrgChart
  import opened RequestLog
  import opened LeaveSystem
  import opened SystemInvariant

  // ------------------------------------------------- what a step does to requests

  ghost predicate Unmoved(s: State, s': State) {
    s'.requests == s.requests && s'.events == s.events
  }

  /** One request was added, pending and without a reason, and announced. */
  ghost predicate Inserts(s: State, s': State) {
    && |s'.requests| == |s.requests| + 1
    && var r := s'.requests[|s.requests|];
       && s'.requests == s.requests + [r] && r.status == Pending && r.rejection.None?
       && s'.events == s.events + [LeaveApplied(r.id)]
  }

  /** One pending request was settled. */
  ghost predicate SettlesOne(s: State, s': State) {
    (exists i :: Settles(s.requests, s'.requests, i)) && s'.events == s.events
  }

  /** Something was published, and that is all. */
  ghost predicate PublishesOne(s: State, s': State) {
    s'.requests == s.requests && exists e :: s'.events == s.events + [e]
  }

  lemma CancelMoves(roster: seq<SeedUser>, s: State, id: string, caller: string)
    ensures var s' := Do(roster, s, CancelLeave(id, caller)); Unmoved(s, s') || SettlesOne(s, s')
  {
    if Cancel(s.requests, id, caller).Ok? { CancelSettles(s.requests, id, caller); }
  }

  lemma FlipMoves(roster: seq<SeedUser>, s: State, task: nat, delivered: bool)
    ensures var s' := Do(roster, s, Flip(task, delivered)); Unmoved(s, s') || SettlesOne(s, s')
  {
    if task in s.decisions && s.decisions[task].decision.Updates() {
      var t := s.decisions[task];
      if Update(s.requests, t).Ok? {
        if t.decision.Rejecting? {
          UpdateSettles(s.requests, t.seen.id, t.manager, Rejected, Some(t.decision.reason));
        } else {
          UpdateSettles(s.requests, t.seen.id, t.manager, Approved, None);
        }
      }
    }
  }

  lemma StepMoves(roster: seq<SeedUser>, s: State, step: Step)
    ensures var s' := Do(roster, s, step);
      || Unmoved(s, s')
      || (step.FinishApply? && Inserts(s, s'))
      || ((step.CancelLeave? || step.Flip?) && SettlesOne(s, s'))
      || (step.HearReply? && PublishesOne(s, s'))
  {
    match step
    case CancelLeave(id, caller) => CancelMoves(roster, s, id, caller);
    case Flip(task, delivered) => FlipMoves(roster, s, task, delivered);
    case _ =>
  }

  lemma StepGoesForward(roster: seq<SeedUser>, s: State, step: Step)
    ensures Later(s, Do(roster, s, step))
  {
    StepMoves(roster, s, step);
  }

  /** `b` is what `a` may have become. */
  ghost predicate Later(a: State, b: State) {
    Evolves(a.requests, b.requests) && a.events <= b.events
  }

  lemma LaterTransitive(a: State, b: State, c: State)
    requires Later(a, b) && Later(b, c)
    ensures Later(a, c)
  {
    EvolvesTransitive(a.requests, b.requests, c.requests);
  }

  lemma {:induction false} RunsGoForward(roster: seq<SeedUser>, s: State, steps: seq<Step>)
    ensures Later(s, Exec(roster, s, steps))
  {
    if steps != [] {
      var before := Exec(roster, s, steps[..|steps| - 1]);
      RunsGoForward(roster, s, steps[..|steps| - 1]);
      StepGoesForward(roster, before, steps[|steps| - 1]);
      LaterTransitive(s, before, Exec(roster, s, steps));
    }
  }

  lemma RunEvolves(roster: seq<SeedUser>, s0: State, steps: seq<Step>, i: nat, j: nat)
    requires i <= j <= |steps|
    ensures Later(Exec(roster, s0, steps[..i]), Exec(roster, s0, steps[..j]))
  {
    ExecSplit(roster, s0, steps, i, j);
    RunsGoForward(roster, Exec(roster, s0, steps[..i]), steps[i..j]);
  }

  /** Looking at one request at three moments of a run: everything but status and reason is
      the same throughout, and if its status moved between the first two it was PENDING and
      never moves again. */
  lemma StatusChangesAtMostOnce(
    roster: seq<SeedUser>, s0: State, steps: seq<Step>, i: nat, j: nat, k: nat, p: nat)
    requires i <= j <= k <= |steps|
    requires p < |Exec(roster, s0, steps[..i]).requests|
    ensures
      var a, b, c := Exec(roster, s0, steps[..i]).requests, Exec(roster, s0, steps[..j]).requests,
                     Exec(roster, s0, steps[..k]).requests;
      && p < |b| && p < |c|
      && SameRequest(a[p], b[p]) && SameRequest(b[p], c[p])
      && (a[p].status != b[p].status ==> a[p].status == Pending && c[p] == b[p])
      && (a[p].status != Pending ==> c[p] == a[p])
  {
    RunEvolves(roster, s0, steps, i, j);
    RunEvolves(roster, s0, steps, j, k);
    RunEvolves(roster, s0, steps, i, k);
  }

  /** Only the applicant cancels a request, and only the manager the org chart names for the
      applicant decides it; an approval does so with a ledger entry for exactly its days. */
  lemma OnlyOwnerOrManagerSettles(roster: seq<SeedUser>, s: State, step: Step, p: nat)
    requires Inv(roster, s) && p < |s.requests| && p < |Do(roster, s, step).requests|
    requires Do(roster, s, step).requests[p].status != s.requests[p].status
    ensures var r, status := s.requests[p], Do(roster, s, step).requests[p].status;
      || (status == Cancelled && step == CancelLeave(r.id, r.employee))
      || (step.Flip? && step.task in s.decisions
          && var t := s.decisions[step.task];
             && t.seen.id == r.id && GetManagerId(roster, r.employee) == Some(t.manager)
             && (if t.decision.Flipping?
                 then status == Approved && t.decision.entry < |s.ledger|
                      && s.ledger[t.decision.entry] == Entry(r.id, r.Key(), r.days, false)
                 else status == Rejected))
  {
    assert RequestOk(roster, s.requests[p]);
    StepMoves(roster, s, step);
    if step.CancelLeave? {
      assert Position(s.requests, step.id) == p;
    } else {
      assert step.Flip? && step.task in s.decisions;
      var t := s.decisions[step.task];
      assert SeenOk(s.requests, t) && OwnsEntry(s.ledger, t);
      assert t.decision.Updates() && Update(s.requests, t).Ok?;
      FlipSettles(s, t);
      assert Position(s.requests, t.seen.id) == p;
    }
  }

  /** The cancellation, or the status update of a task, that settles this request. */
  ghost predicate SettledBy(s: State, r: Req, step: Step) {
    || step == CancelLeave(r.id, r.employee)
    || (step.Flip? && step.task in s.decisions
        && var t := s.decisions[step.task];
           t.seen.id == r.id && (t.decision.Flipping? || (t.decision.Rejecting? && !IsBlank(t.decision.reason))))
  }

  /** In every reachable state, a step settles a request if and only if the request is pending
      and the step is its applicant's cancellation or the status update of a task deciding it. */
  lemma StepSettlesIff(roster: seq<SeedUser>, s: State, step: Step, p: nat)
    requires Inv(roster, s) && p < |s.requests|
    ensures var rs', r := Do(roster, s, step).requests, s.requests[p];
      && p < |rs'|
      && (rs'[p] != r <==> r.status == Pending && SettledBy(s, r, step))
      && (rs'[p] != r && step.CancelLeave? ==> rs'[p] == r.(status := Cancelled, rejection := None))
      && (rs'[p] != r && step.Flip? ==>
            var d := s.decisions[step.task].decision;
            rs'[p] == if d.Rejecting? then r.(status := Rejected, rejection := Some(d.reason))
                      else r.(status := Approved, rejection := None))
  {
    StepMoves(roster, s, step);
    assert Position(s.requests, s.requests[p].id) == p;
    if step.CancelLeave? {
      CancelOutcome(s.requests, step.id, step.caller);
    } else if step.Flip? && step.task in s.decisions {
      UpdateSettlesIff(roster, s, s.decisions[step.task], p);
    }
  }

  lemma UpdateSettlesIff(roster: seq<SeedUser>, s: State, t: DecisionTask, p: nat)
    requires UniqueIds(s.requests) && SeenOk(s.requests, t) && p < |s.requests|
    ensures t.decision.Updates() ==>
      var r, d := Update(s.requests, t), t.decision;
      var decided := if d.Rejecting? then s.requests[p].(status := Rejected, rejection := Some(d.reason))
                     else s.requests[p].(status := Approved, rejection := None);
      && (r.Ok? <==> StillPending(s.requests, t.seen.id) && (d.Rejecting? ==> !IsBlank(d.reason)))
      && (r.Ok? ==> r.value[p] == if s.requests[p].id == t.seen.id then decided else s.requests[p])
  {
    if t.decision.Rejecting? {
      UpdateOutcome(s.requests, t.seen.id, t.manager, Rejected, Some(t.decision.reason));
    } else {
      UpdateOutcome(s.requests, t.seen.id, t.manager, Approved, None);
    }
  }

  /** A step adds one request at most, PENDING and without a reason. */
  lemma RequestsAreBornPending(roster: seq<SeedUser>, s: State, step: Step)
    ensures var s' := Do(roster, s, step);
      && |s'.requests| <= |s.requests| + 1
      && forall p :: |s.requests| <= p < |s'.requests| ==>
           s'.requests[p].status == Pending && s'.requests[p].rejection.None?
  {
    StepMoves(roster, s, step);
  }

  /** In every reachable state a reason is stored exactly on the rejected requests. */
  lemma ReasonExactlyOnRejection(roster: seq<SeedUser>, s0: State, steps: seq<Step>, p: nat)
    requires Init(s0)
    requires p < |Exec(roster, s0, steps).requests|
    ensures var r := Exec(roster, s0, steps).requests[p];
      && (r.status == Rejected <==> r.rejection.Some?)
      && (r.rejection.Some? ==> !IsBlank(r.rejection.value))
  {
    InvAlways(roster, s0, steps);
    assert RequestOk(roster, Exec(roster, s0, steps).requests[p]);
  }

  // ------------------------------------------------------------ counting

  function InStatus(status: LeaveStatus): Req -> int {
    (r: Req) => if r.status == status then 1 else 0
  }

  function CountOf(rs: seq<Req>, status: LeaveStatus): int {
    SumBy(rs, InStatus(status))
  }

  function IsApplied(): Event -> int {
    (e: Event) => if e.LeaveApplied? then 1 else 0
  }

  lemma {:induction false} StatusesPartition(rs: seq<Req>)
    ensures |rs| == CountOf(rs, Pending) + CountOf(rs, Approved) + CountOf(rs, Rejected) + CountOf(rs, Cancelled)
  {
    if rs != [] {
      StatusesPartition(rs[..|rs| - 1]);
    }
  }

  /** The ids announced as applied for, in the order of their publication. */
  function AppliedIds(events: seq<Event>): seq<string> {
    if events == [] then []
    else
      var last := events[|events| - 1];
      AppliedIds(events[..|events| - 1]) + if last.LeaveApplied? then [last.id] else []
  }

  function RequestIds(rs: seq<Req>): seq<string> {
    seq(|rs|, i requires 0 <= i < |rs| => rs[i].id)
  }

  lemma AppliedIdsAppend(events: seq<Event>, e: Event)
    ensures AppliedIds(events + [e]) == AppliedIds(events) + if e.LeaveApplied? then [e.id] else []
  {
    assert (events + [e])[..|events|] == events;
  }

  lemma {:induction false} AppliedIdsCount(events: seq<Event>)
    ensures |AppliedIds(events)| == SumBy(events, IsApplied())
  {
    if events != [] {
      AppliedIdsCount(events[..|events| - 1]);
    }
  }

  lemma SameIds(rs: seq<Req>, rs': seq<Req>)
    requires |rs| == |rs'| && forall i :: 0 <= i < |rs| ==> rs[i].id == rs'[i].id
    ensures RequestIds(rs) == RequestIds(rs')
  {
  }

  /** A publication alone leaves the ids as they are, unless it is of an application. */
  lemma MoveAnnounces(s: State, s': State)
    requires Unmoved(s, s') || Inserts(s, s') || SettlesOne(s, s') || PublishesOne(s, s')
    requires PublishesOne(s, s') ==> IsDecision(s'.events[|s.events|])
    requires AppliedIds(s.events) == RequestIds(s.requests)
    ensures AppliedIds(s'.events) == RequestIds(s'.requests)
  {
    if Inserts(s, s') {
      var r := s'.requests[|s.requests|];
      AppliedIdsAppend(s.events, LeaveApplied(r.id));
      assert RequestIds(s'.requests) == RequestIds(s.requests) + [r.id];
    } else {
      SameIds(s.requests, s'.requests);
      if PublishesOne(s, s') {
        AppliedIdsAppend(s.events, s'.events[|s.events|]);
        assert s'.events == s.events + [s'.events[|s.events|]];
      }
    }
  }

  lemma StepAnnouncesApplications(roster: seq<SeedUser>, s: State, step: Step)
    requires RepliesOk(s.requests, s.events, s.decisions)
    requires AppliedIds(s.events) == RequestIds(s.requests)
    ensures AppliedIds(Do(roster, s, step).events) == RequestIds(Do(roster, s, step).requests)
  {
    var s' := Do(roster, s, step);
    StepMoves(roster, s, step);
    if step.HearReply? && step.task in s.decisions {
      assert ReplyOk(s.requests, s.events, s.decisions[step.task]);
    }
    MoveAnnounces(s, s');
  }

  /** No request is lost: the LEAVE_APPLIED publications are, in order, those of the stored
      requests, and these are as many as the pending, approved, rejected and cancelled ones
      together. */
  lemma {:induction false} ApplicationsAreConserved(roster: seq<SeedUser>, s0: State, steps: seq<Step>)
    requires Init(s0)
    ensures var s := Exec(roster, s0, steps);
      && AppliedIds(s.events) == RequestIds(s.requests)
      && SumBy(s.events, IsApplied()) == |s.requests|
         == CountOf(s.requests, Pending) + CountOf(s.requests, Approved)
          + CountOf(s.requests, Rejected) + CountOf(s.requests, Cancelled)
  {
    StatusesPartition(Exec(roster, s0, steps).requests);
    AppliedIdsCount(Exec(roster, s0, steps).events);
    if steps != [] {
      var n := |steps| - 1;
      ApplicationsAreConserved(roster, s0, steps[..n]);
      InvAlways(roster, s0, steps[..n]);
      StepAnnouncesApplications(roster, Exec(roster, s0, steps[..n]), steps[n]);
    }
  }

  // ------------------------------------------------------------ publishing

  /** Over every run a request gets at most one LEAVE_APPROVED or LEAVE_REJECTED. */
  lemma AtMostOneDecisionPublished(roster: seq<SeedUser>, s0: State, steps: seq<Step>, m: nat, n: nat)
    requires Init(s0)
    requires var events := Exec(roster, s0, steps).events;
      m < |events| && n < |events| && IsDecision(events[m]) && IsDecision(events[n]) && events[m].id == events[n].id
    ensures m == n
  {
    InvAlways(roster, s0, steps);
  }

  /** Once a decision is published, the stored status is that decision ever after. */
  lemma PublishedDecisionStands(roster: seq<SeedUser>, s0: State, steps: seq<Step>, i: nat, e: Event)
    requires Init(s0) && i <= |steps|
    requires e in Exec(roster, s0, steps[..i]).events && IsDecision(e)
    ensures var found := Find(Exec(roster, s0, steps).requests, e.id);
      found.Some? && found.value.status == DecidedStatus(e)
  {
    RunEvolves(roster, s0, steps, i, |steps|);
    assert steps[..|steps|] == steps;
    InvAlways(roster, s0, steps);
    PublicationIsStored(Exec(roster, s0, steps), e);
  }

  lemma PublicationIsStored(s: State, e: Event)
    requires EventsOk(s.requests, s.events) && e in s.events && IsDecision(e)
    ensures var found := Find(s.requests, e.id); found.Some? && found.value.status == DecidedStatus(e)
  {
    var m :| 0 <= m < |s.events| && s.events[m] == e;
    assert EventOk(s.requests, s.events[m]);
  }

  predicate Decided(r: Req) {
    r.status == Approved || r.status == Rejected
  }

  /** What there is to publish about a decided request. */
  function Verdict(r: Req): Event
    requires Decided(r)
  {
    if r.status == Approved then LeaveApproved(r.id) else LeaveRejected(r.id)
  }

  /** The manager service waits for a reply on whose arrival it publishes e. */
  predicate Carries(t: DecisionTask, e: Event) {
    t.live && t.decision == Replying(e)
  }

  ghost predicate OnItsWay(decisions: map<nat, DecisionTask>, e: Event) {
    exists t :: t in decisions && Carries(decisions[t], e)
  }

  /** The event is published, or will be when a reply arrives. */
  ghost predicate Heard(s: State, e: Event) {
    e in s.events || OnItsWay(s.decisions, e)
  }

  ghost predicate AllHeard(s: State) {
    forall i :: 0 <= i < |s.requests| && Decided(s.requests[i]) ==> Heard(s, Verdict(s.requests[i]))
  }

  /** The status update takes effect, and this is what it decides. */
  ghost predicate Updating(s: State, step: Step) {
    && step.Flip? && step.task in s.decisions && s.decisions[step.task].decision.Updates()
    && Update(s.requests, s.decisions[step.task]).Ok?
  }

  ghost predicate Tells(s: State, step: Step, e: Event) {
    Updating(s, step) && s.decisions[step.task].live && step.delivered && e == Announce(s.decisions[step.task])
  }

  ghost predicate Silences(s: State, step: Step, e: Event) {
    (step.Drop? || step.GiveUp?) && step.task in s.decisions && Carries(s.decisions[step.task], e)
  }

  /** The step makes sure that a stored decision is never published: a status update takes
      effect whose reply is lost or not awaited, or the reply is lost, or no longer awaited,
      while it is on its way. */
  ghost predicate Mutes(s: State, step: Step) {
    || (Updating(s, step) && !(s.decisions[step.task].live && step.delivered))
    || (exists e :: Silences(s, step, e))
  }

  lemma WithoutTask(decisions: map<nat, DecisionTask>, task: nat, e: Event)
    ensures OnItsWay(decisions, e) <==>
      OnItsWay(decisions - {task}, e) || (task in decisions && Carries(decisions[task], e))
  {
    if t :| t in decisions && Carries(decisions[t], e) {
      assert t == task || t in decisions - {task};
    }
  }

  lemma WithTask(decisions: map<nat, DecisionTask>, task: nat, t: DecisionTask, e: Event)
    ensures OnItsWay(decisions[task := t], e) <==> OnItsWay(decisions - {task}, e) || Carries(t, e)
  {
    var decisions', rest := decisions[task := t], decisions - {task};
    if u :| u in rest && Carries(rest[u], e) {
      assert u in decisions' && Carries(decisions'[u], e);
    }
    if Carries(t, e) {
      assert task in decisions' && Carries(decisions'[task], e);
    }
    if u :| u in decisions' && Carries(decisions'[u], e) && u != task {
      assert u in rest && Carries(rest[u], e);
    }
  }

  /** A reply on its way is the only way its event gets published. */
  lemma OnlyOneCarries(s: State, task: nat, e: Event)
    requires RepliesOk(s.requests, s.events, s.decisions)
    requires task in s.decisions && Carries(s.decisions[task], e)
    ensures e !in s.events && !OnItsWay(s.decisions - {task}, e)
  {
    assert ReplyOk(s.requests, s.events, s.decisions[task]);
    forall u | u in s.decisions && u != task ensures !Carries(s.decisions[u], e) {
      if s.decisions[u].decision.Replying? { assert ReplyOk(s.requests, s.events, s.decisions[u]); }
    }
  }

  lemma HeardAfter(roster: seq<SeedUser>, s: State, step: Step, e: Event)
    requires RepliesOk(s.requests, s.events, s.decisions) && IsDecision(e)
    ensures Heard(Do(roster, s, step), e) <==> (Heard(s, e) && !Silences(s, step, e)) || Tells(s, step, e)
  {
    match step
    case Flip(_, _) => HeardAfterFlip(roster, s, step, e);
    case HearReply(task) => HeardAfterReply(roster, s, task, e);
    case Deduct(task, delivered) => HeardAfterDeduct(s, task, delivered, e);
    case LoadApprove(task, id, manager) => HeardAfterLoad(s, task, id, manager, Deducting, e);
    case LoadReject(task, id, manager, reason) => HeardAfterLoad(s, task, id, manager, Rejecting(reason), e);
    case GiveUp(task) => HeardAfterLoss(roster, s, step, e);
    case Drop(task) => HeardAfterLoss(roster, s, step, e);
    case _ =>
  }

  lemma HeardAfterFlip(roster: seq<SeedUser>, s: State, step: Step, e: Event)
    requires step.Flip?
    ensures Heard(Do(roster, s, step), e) <==> Heard(s, e) || Tells(s, step, e)
  {
    if step.task in s.decisions && s.decisions[step.task].decision.Updates() {
      var t := s.decisions[step.task];
      WithoutTask(s.decisions, step.task, e);
      WithTask(s.decisions, step.task, t.(decision := Replying(Announce(t))), e);
    }
  }

  lemma HeardAfterDeduct(s: State, task: nat, delivered: bool, e: Event)
    ensures Heard(DoDeduct(s, task, delivered), e) <==> Heard(s, e)
  {
    if task in s.decisions && s.decisions[task].decision.Deducting? {
      WithoutTask(s.decisions, task, e);
      WithTask(s.decisions, task, s.decisions[task].(decision := Flipping(|s.ledger|)), e);
    }
  }

  lemma HeardAfterReply(roster: seq<SeedUser>, s: State, task: nat, e: Event)
    ensures Heard(Do(roster, s, HearReply(task)), e) <==> Heard(s, e)
  {
    WithoutTask(s.decisions, task, e);
  }

  lemma HeardAfterLoad(s: State, task: nat, id: string, manager: string, decision: Decision, e: Event)
    requires !decision.Replying?
    ensures Heard(DoLoad(s, task, id, manager, decision), e) <==> Heard(s, e)
  {
    var seen := LoadPending(s.requests, id, manager);
    if task !in s.decisions && seen.Ok? {
      WithTask(s.decisions, task, DecisionTask(seen.value, manager, true, decision), e);
      assert s.decisions - {task} == s.decisions;
    }
  }

  lemma HeardAfterLoss(roster: seq<SeedUser>, s: State, step: Step, e: Event)
    requires RepliesOk(s.requests, s.events, s.decisions) && (step.Drop? || step.GiveUp?)
    ensures Heard(Do(roster, s, step), e) <==> Heard(s, e) && !Silences(s, step, e)
  {
    WithoutTask(s.decisions, step.task, e);
    if step.task in s.decisions {
      WithTask(s.decisions, step.task, s.decisions[step.task].(live := false), e);
      if Carries(s.decisions[step.task], e) { OnlyOneCarries(s, step.task, e); }
    }
  }

  /** A reply on its way is about a stored decision. */
  lemma CarriedIsStored(s: State, task: nat, e: Event)
    requires RepliesOk(s.requests, s.events, s.decisions)
    requires task in s.decisions && Carries(s.decisions[task], e)
    ensures var i := Position(s.requests, e.id);
      i >= 0 && Decided(s.requests[i]) && Verdict(s.requests[i]) == e
  {
    assert ReplyOk(s.requests, s.events, s.decisions[task]);
  }

  /** Nothing is published, or about to be, about a pending request. */
  lemma PendingIsUnheard(roster: seq<SeedUser>, s: State, i: nat, e: Event)
    requires Inv(roster, s) && i < |s.requests| && s.requests[i].status == Pending
    requires IsDecision(e) && e.id == s.requests[i].id
    ensures !Heard(s, e)
  {
    NoEarlierDecision(s.requests, s.events, i);
    assert Position(s.requests, e.id) == i;
    if task :| task in s.decisions && Carries(s.decisions[task], e) {
      CarriedIsStored(s, task, e);
    }
  }

  lemma UpdateHeardIff(roster: seq<SeedUser>, s: State, step: Step)
    requires Inv(roster, s) && Updating(s, step)
    ensures AllHeard(Do(roster, s, step)) <==> AllHeard(s) && !Mutes(s, step)
  {
    var t, s' := s.decisions[step.task], Do(roster, s, step);
    assert SeenOk(s.requests, t);
    FlipSettles(s, t);
    var i := Position(s.requests, t.seen.id);
    assert Verdict(s'.requests[i]) == Announce(t);
    PendingIsUnheard(roster, s, i, Announce(t));
    HeardAfter(roster, s, step, Announce(t));
    OthersHeardAlike(roster, s, step, i);
    UpdateMutesIff(s, step);
  }

  lemma UpdateMutesIff(s: State, step: Step)
    requires Updating(s, step)
    ensures Mutes(s, step) <==> !Tells(s, step, Announce(s.decisions[step.task]))
  {
  }

  /** A step that settles request i and silences nothing leaves the others heard as before. */
  lemma OthersHeardAlike(roster: seq<SeedUser>, s: State, step: Step, i: nat)
    requires Inv(roster, s) && Settles(s.requests, Do(roster, s, step).requests, i)
    requires step.CancelLeave? || (Updating(s, step) && Announce(s.decisions[step.task]).id == s.requests[i].id)
    ensures var s' := Do(roster, s, step);
      forall j :: 0 <= j < |s.requests| && j != i ==>
        s'.requests[j] == s.requests[j]
        && (Decided(s.requests[j]) ==>
              (Heard(s', Verdict(s.requests[j])) <==> Heard(s, Verdict(s.requests[j]))))
  {
    forall j | 0 <= j < |s.requests| && j != i && Decided(s.requests[j])
      ensures Heard(Do(roster, s, step), Verdict(s.requests[j])) <==> Heard(s, Verdict(s.requests[j]))
    {
      HeardAfter(roster, s, step, Verdict(s.requests[j]));
    }
  }

  lemma CancelHeardIff(roster: seq<SeedUser>, s: State, step: Step)
    requires Inv(roster, s) && step.CancelLeave? && Cancel(s.requests, step.id, step.caller).Ok?
    ensures AllHeard(Do(roster, s, step)) <==> AllHeard(s)
  {
    CancelSettles(s.requests, step.id, step.caller);
    OthersHeardAlike(roster, s, step, Position(s.requests, step.id));
  }

  /** What a new pending request leaves to be heard. */
  lemma PendingAddsNothing(s: State, s': State)
    requires s'.requests == s.requests || exists r :: s'.requests == s.requests + [r] && r.status == Pending
    ensures AllHeard(s') <==>
      forall i :: 0 <= i < |s.requests| && Decided(s.requests[i]) ==> Heard(s', Verdict(s.requests[i]))
  {
    assert forall i :: 0 <= i < |s.requests| ==> s'.requests[i] == s.requests[i];
    assert forall i :: |s.requests| <= i < |s'.requests| ==> !Decided(s'.requests[i]);
    if AllHeard(s') {
      forall i | 0 <= i < |s.requests| && Decided(s.requests[i]) ensures Heard(s', Verdict(s.requests[i])) {
        assert Decided(s'.requests[i]);
      }
    }
  }

  /** Silencing leaves a stored decision unheard. */
  lemma SilencedIsUnheard(roster: seq<SeedUser>, s: State, step: Step, e: Event)
    requires Inv(roster, s) && Silences(s, step, e)
    ensures !AllHeard(Do(roster, s, step))
  {
    CarriedIsStored(s, step.task, e);
    HeardAfter(roster, s, step, e);
  }

  lemma NothingSilenced(roster: seq<SeedUser>, s: State, step: Step)
    requires RepliesOk(s.requests, s.events, s.decisions)
    requires !Updating(s, step) && forall e :: !Silences(s, step, e)
    ensures forall i :: 0 <= i < |s.requests| && Decided(s.requests[i]) ==>
      (Heard(Do(roster, s, step), Verdict(s.requests[i])) <==> Heard(s, Verdict(s.requests[i])))
  {
    forall i | 0 <= i < |s.requests| && Decided(s.requests[i])
      ensures Heard(Do(roster, s, step), Verdict(s.requests[i])) <==> Heard(s, Verdict(s.requests[i]))
    {
      HeardAfter(roster, s, step, Verdict(s.requests[i]));
    }
  }

  /** Steps that settle no request: they add at most a pending one, and what was heard of is
      still heard of unless it is silenced. */
  lemma QuietHeardIff(roster: seq<SeedUser>, s: State, step: Step)
    requires Inv(roster, s) && !Updating(s, step)
    requires var rs' := Do(roster, s, step).requests;
      rs' == s.requests || exists r :: rs' == s.requests + [r] && r.status == Pending
    ensures AllHeard(Do(roster, s, step)) <==> AllHeard(s) && !Mutes(s, step)
  {
    if e :| Silences(s, step, e) {
      SilencedIsUnheard(roster, s, step, e);
    } else {
      PendingAddsNothing(s, Do(roster, s, step));
      NothingSilenced(roster, s, step);
    }
  }

  /** After a step every decision is published or about to be exactly if it was so before
      and the step mutes none. */
  lemma StepHeardIff(roster: seq<SeedUser>, s: State, step: Step)
    requires Inv(roster, s)
    ensures AllHeard(Do(roster, s, step)) <==> AllHeard(s) && !Mutes(s, step)
  {
    if Updating(s, step) {
      UpdateHeardIff(roster, s, step);
    } else if step.CancelLeave? && Cancel(s.requests, step.id, step.caller).Ok? {
      CancelHeardIff(roster, s, step);
    } else {
      StepMoves(roster, s, step);
      QuietHeardIff(roster, s, step);
    }
  }

  ghost predicate MutesAt(roster: seq<SeedUser>, s0: State, steps: seq<Step>, i: nat)
    requires i < |steps|
  {
    Mutes(Exec(roster, s0, steps[..i]), steps[i])
  }

  ghost predicate NothingMuted(roster: seq<SeedUser>, s0: State, steps: seq<Step>) {
    forall i :: 0 <= i < |steps| ==> !MutesAt(roster, s0, steps, i)
  }

  lemma MutesAtPrefix(roster: seq<SeedUser>, s0: State, steps: seq<Step>, n: nat, i: nat)
    requires i < n <= |steps|
    ensures MutesAt(roster, s0, steps[..n], i) == MutesAt(roster, s0, steps, i)
  {
    assert steps[..n][..i] == steps[..i];
  }

  /** What is muted up to the last step is so in the run without it. */
  lemma PrefixesMuteAlike(roster: seq<SeedUser>, s0: State, steps: seq<Step>, n: nat)
    requires n <= |steps|
    ensures forall i :: 0 <= i < n ==> MutesAt(roster, s0, steps[..n], i) == MutesAt(roster, s0, steps, i)
  {
    forall i | 0 <= i < n ensures MutesAt(roster, s0, steps[..n], i) == MutesAt(roster, s0, steps, i) {
      MutesAtPrefix(roster, s0, steps, n, i);
    }
  }

  lemma NothingMutedPrefix(roster: seq<SeedUser>, s0: State, steps: seq<Step>, n: nat)
    requires |steps| == n + 1
    ensures NothingMuted(roster, s0, steps) <==>
      NothingMuted(roster, s0, steps[..n]) && !MutesAt(roster, s0, steps, n)
  {
    PrefixesMuteAlike(roster, s0, steps, n);
    if NothingMuted(roster, s0, steps[..n]) && !MutesAt(roster, s0, steps, n) {
      forall i | 0 <= i < n + 1 ensures !MutesAt(roster, s0, steps, i) {
        assert i < n ==> !MutesAt(roster, s0, steps[..n], i);
      }
    }
  }

  lemma HeardUpTo(roster: seq<SeedUser>, s0: State, steps: seq<Step>, n: nat)
    requires Init(s0) && |steps| == n + 1
    ensures AllHeard(Exec(roster, s0, steps)) <==>
      AllHeard(Exec(roster, s0, steps[..n])) && !MutesAt(roster, s0, steps, n)
  {
    InvAlways(roster, s0, steps[..n]);
    StepHeardIff(roster, Exec(roster, s0, steps[..n]), steps[n]);
  }

  lemma {:induction false} AllHeardIff(roster: seq<SeedUser>, s0: State, steps: seq<Step>)
    requires Init(s0)
    ensures AllHeard(Exec(roster, s0, steps)) <==> NothingMuted(roster, s0, steps)
  {
    if steps != [] {
      var n := |steps| - 1;
      AllHeardIff(roster, s0, steps[..n]);
      HeardUpTo(roster, s0, steps, n);
      NothingMutedPrefix(roster, s0, steps, n);
    }
  }

  /** What is published about a request is the decision stored, and nothing if there is none. */
  ghost predicate PublishedAsStored(r: Req, events: seq<Event>) {
    && (LeaveApproved(r.id) in events <==> r.status == Approved)
    && (LeaveRejected(r.id) in events <==> r.status == Rejected)
  }

  lemma PublishedIsStored(roster: seq<SeedUser>, s: State, p: nat)
    requires Inv(roster, s) && p < |s.requests|
    ensures PublishedAsStored(s.requests[p], s.events) <==>
      (Decided(s.requests[p]) ==> Verdict(s.requests[p]) in s.events)
  {
    var r := s.requests[p];
    assert Position(s.requests, r.id) == p;
    forall e | e in s.events && IsDecision(e) && e.id == r.id ensures r.status == DecidedStatus(e) {
      PublicationIsStored(s, e);
    }
  }

  /** No manager still waits for the reply to a status update that has taken effect. */
  ghost predicate NoneAwaited(decisions: map<nat, DecisionTask>) {
    forall e :: !OnItsWay(decisions, e)
  }

  /** After every run the published decisions are the stored ones, for every request, if and
      only if no step of it muted a decision and no reply to one is on its way. */
  lemma PublishedIffDecided(roster: seq<SeedUser>, s0: State, steps: seq<Step>)
    requires Init(s0)
    ensures var s := Exec(roster, s0, steps);
      (forall p :: 0 <= p < |s.requests| ==> PublishedAsStored(s.requests[p], s.events)) <==>
      NothingMuted(roster, s0, steps) && NoneAwaited(s.decisions)
  {
    var s := Exec(roster, s0, steps);
    AllHeardIff(roster, s0, steps);
    InvAlways(roster, s0, steps);
    forall p | 0 <= p < |s.requests|
      ensures PublishedAsStored(s.requests[p], s.events) <==>
        (Decided(s.requests[p]) ==> Verdict(s.requests[p]) in s.events)
    {
      PublishedIsStored(roster, s, p);
    }
    if e :| OnItsWay(s.decisions, e) {
      var task :| task in s.decisions && Carries(s.decisions[task], e);
      CarriedIsStored(s, task, e);
      OnlyOneCarries(s, task, e);
      assert !PublishedAsStored(s.requests[Position(s.requests, e.id)], s.events);
    }
  }

  // ------------------------------------------------------------ routing

  function EmployeeReportsTo(roster: seq<SeedUser>, manager: string): Req -> bool {
    (r: Req) => IsTeamMember(roster, manager, r.employee)
  }

  /** In every reachable state the requests routed to a manager are, in order, exactly those
      of the employees who report to that manager. */
  lemma ManagerQueueIsTeam(roster: seq<SeedUser>, s0: State, steps: seq<Step>, manager: string)
    requires Init(s0)
    ensures var rs := Exec(roster, s0, steps).requests;
      Filter(rs, OfManager(manager)) == Filter(rs, EmployeeReportsTo(roster, manager))
  {
    InvAlways(roster, s0, steps);
    var rs := Exec(roster, s0, steps).requests;
    forall r | r in rs ensures OfManager(manager)(r) == EmployeeReportsTo(roster, manager)(r) {
      var i :| 0 <= i < |rs| && rs[i] == r;
      assert RequestOk(roster, rs[i]);
    }
    FilterCongruence(rs, OfManager(manager), EmployeeReportsTo(roster, manager));
  }
}

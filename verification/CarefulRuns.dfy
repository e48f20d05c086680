/** A condition on runs under which no deducted day is ever lost. */
module CarefulRuns {
  import opened Domain
  import opened OrgChart
  import opened RequestLog
  import opened LeaveSystem
  import opened SystemInvariant
  import opened Conservation

  /** The task has yet to settle its request. */
  predicate Deciding(t: DecisionTask) {
    !t.decision.Replying?
  }

  ghost predicate NoTaskFor(decisions: map<nat, DecisionTask>, id: string) {
    forall t :: t in decisions && Deciding(decisions[t]) ==> decisions[t].seen.id != id
  }

  /** The manager service learns of every deduction and then asks for the status update, and
      no step starts to decide or cancels a request that a decision is already under way for.
      Decisions on different requests, and any applications, may overlap freely, and any
      other call or reply may be lost. */
  ghost predicate CarefulStep(s: State, step: Step) {
    match step
    case LoadApprove(_, id, _) => NoTaskFor(s.decisions, id)
    case LoadReject(_, id, _, _) => NoTaskFor(s.decisions, id)
    case CancelLeave(id, _) => NoTaskFor(s.decisions, id)
    case Deduct(_, delivered) => delivered
    case GiveUp(task) => task in s.decisions ==> !s.decisions[task].decision.Deducting?
    case Drop(task) => task in s.decisions ==> !s.decisions[task].decision.Flipping?
    case _ => true
  }

  /** Every deduction is waited for; a request being decided is pending, and by one task. */
  ghost predicate CarefulTasks(rs: seq<Req>, decisions: map<nat, DecisionTask>) {
    && (forall t :: t in decisions && decisions[t].decision.Deducting? ==> decisions[t].live)
    && (forall t :: t in decisions && Deciding(decisions[t]) ==> StillPending(rs, decisions[t].seen.id))
    && (forall t, u :: t in decisions && u in decisions && t != u && Deciding(decisions[t]) && Deciding(decisions[u])
          ==> decisions[t].seen.id != decisions[u].seen.id)
  }

  ghost predicate CarefulState(s: State) {
    CarefulTasks(s.requests, s.decisions)
  }

  lemma OthersStillPending(rs: seq<Req>, rs': seq<Req>, i: nat, id: string)
    requires UniqueIds(rs') && Evolves(rs, rs') && Settles(rs, rs', i)
    requires StillPending(rs, id) && rs[i].id != id
    ensures StillPending(rs', id)
  {
    PositionKept(rs, rs', id);
  }

  lemma SettlingEvolves(rs: seq<Req>, rs': seq<Req>, i: nat)
    requires UniqueIds(rs) && Settles(rs, rs', i)
    ensures UniqueIds(rs') && Evolves(rs, rs')
  {
  }

  lemma SettlingIsCareful(rs: seq<Req>, rs': seq<Req>, id: string, decisions: map<nat, DecisionTask>)
    requires UniqueIds(rs) && CarefulTasks(rs, decisions)
    requires Settles(rs, rs', Position(rs, id)) && NoTaskFor(decisions, id)
    ensures CarefulTasks(rs', decisions)
  {
    var i := Position(rs, id);
    SettlingEvolves(rs, rs', i);
    forall t | t in decisions && Deciding(decisions[t]) ensures StillPending(rs', decisions[t].seen.id) {
      OthersStillPending(rs, rs', i, decisions[t].seen.id);
    }
  }

  lemma AppendingIsCareful(rs: seq<Req>, r: Req, decisions: map<nat, DecisionTask>)
    requires UniqueIds(rs) && CarefulTasks(rs, decisions) && Find(rs, r.id).None?
    ensures CarefulTasks(rs + [r], decisions)
  {
    forall t | t in decisions && Deciding(decisions[t]) ensures StillPending(rs + [r], decisions[t].seen.id) {
      PositionKept(rs, rs + [r], decisions[t].seen.id);
    }
  }

  lemma DroppingIsCareful(rs: seq<Req>, decisions: map<nat, DecisionTask>, task: nat)
    requires CarefulTasks(rs, decisions)
    ensures CarefulTasks(rs, decisions - {task})
    ensures task in decisions && Deciding(decisions[task]) ==> NoTaskFor(decisions - {task}, decisions[task].seen.id)
  {
  }

  /** A task may move on as long as it does not go back to deducting unawaited. */
  lemma MovingOnIsCareful(rs: seq<Req>, decisions: map<nat, DecisionTask>, task: nat, t: DecisionTask)
    requires CarefulTasks(rs, decisions - {task}) && (t.decision.Deducting? ==> t.live)
    requires Deciding(t) ==> StillPending(rs, t.seen.id) && NoTaskFor(decisions - {task}, t.seen.id)
    ensures CarefulTasks(rs, decisions[task := t])
  {
    var rest, decisions' := decisions - {task}, decisions[task := t];
    assert forall u :: u in decisions' ==> u == task || (u in rest && decisions'[u] == rest[u]);
  }

  lemma CarefulCancel(roster: seq<SeedUser>, s: State, id: string, caller: string)
    requires UniqueIds(s.requests) && CarefulState(s) && NoTaskFor(s.decisions, id)
    ensures CarefulState(Do(roster, s, CancelLeave(id, caller)))
  {
    var r := Cancel(s.requests, id, caller);
    if r.Ok? {
      CancelSettles(s.requests, id, caller);
      SettlingIsCareful(s.requests, r.value, id, s.decisions);
    }
  }

  lemma CarefulFlip(roster: seq<SeedUser>, s: State, task: nat, delivered: bool)
    requires UniqueIds(s.requests) && CarefulState(s)
    requires task in s.decisions ==> SeenOk(s.requests, s.decisions[task])
    ensures CarefulState(Do(roster, s, Flip(task, delivered)))
  {
    if task in s.decisions && s.decisions[task].decision.Updates() {
      var t := s.decisions[task];
      DroppingIsCareful(s.requests, s.decisions, task);
      var r := Update(s.requests, t);
      if r.Ok? {
        FlipSettles(s, t);
        SettlingIsCareful(s.requests, r.value, t.seen.id, s.decisions - {task});
        MovingOnIsCareful(r.value, s.decisions, task, t.(decision := Replying(Announce(t))));
      }
    }
  }

  lemma CarefulLoad(s: State, task: nat, id: string, manager: string, decision: Decision)
    requires CarefulState(s) && NoTaskFor(s.decisions, id)
    ensures CarefulState(DoLoad(s, task, id, manager, decision))
  {
    var seen := LoadPending(s.requests, id, manager);
    if task !in s.decisions && seen.Ok? {
      assert s.decisions - {task} == s.decisions;
      MovingOnIsCareful(s.requests, s.decisions, task, DecisionTask(seen.value, manager, true, decision));
    }
  }

  lemma CarefulFinish(roster: seq<SeedUser>, s: State, task: nat, id: string)
    requires UniqueIds(s.requests) && CarefulState(s)
    ensures CarefulState(Do(roster, s, FinishApply(task, id)))
  {
    var s' := Do(roster, s, FinishApply(task, id));
    if s'.requests != s.requests {
      AppendingIsCareful(s.requests, s'.requests[|s.requests|], s.decisions);
    }
  }

  lemma CarefulDeduct(roster: seq<SeedUser>, s: State, task: nat)
    requires CarefulState(s)
    ensures CarefulState(Do(roster, s, LeaveSystem.Deduct(task, true)))
  {
    DroppingIsCareful(s.requests, s.decisions, task);
    if task in s.decisions && s.decisions[task].decision.Deducting? {
      MovingOnIsCareful(s.requests, s.decisions, task, s.decisions[task].(decision := Flipping(|s.ledger|)));
    }
  }

  lemma CarefulGiveUp(roster: seq<SeedUser>, s: State, task: nat)
    requires CarefulState(s) && CarefulStep(s, GiveUp(task))
    ensures CarefulState(Do(roster, s, GiveUp(task)))
  {
    DroppingIsCareful(s.requests, s.decisions, task);
    if task in s.decisions {
      MovingOnIsCareful(s.requests, s.decisions, task, s.decisions[task].(live := false));
    }
  }

  lemma CarefulStepKeeps(roster: seq<SeedUser>, s: State, step: Step)
    requires Inv(roster, s) && CarefulState(s) && CarefulStep(s, step)
    ensures CarefulState(Do(roster, s, step))
  {
    match step
    case FinishApply(task, id) => CarefulFinish(roster, s, task, id);
    case CancelLeave(id, caller) => CarefulCancel(roster, s, id, caller);
    case LoadApprove(task, id, manager) => CarefulLoad(s, task, id, manager, Deducting);
    case LoadReject(task, id, manager, reason) => CarefulLoad(s, task, id, manager, Rejecting(reason));
    case Deduct(task, delivered) => CarefulDeduct(roster, s, task);
    case Flip(task, delivered) => CarefulFlip(roster, s, task, delivered);
    case GiveUp(task) => CarefulGiveUp(roster, s, task);
    case HearReply(task) => DroppingIsCareful(s.requests, s.decisions, task);
    case Drop(task) => DroppingIsCareful(s.requests, s.decisions, task);
    case _ =>
  }

  lemma CarefulStepStrandsNothing(s: State, step: Step, e: nat)
    requires CarefulState(s) && CarefulStep(s, step)
    ensures !Strands(s, step, e)
  {
    if step.Flip? && step.task in s.decisions && Deciding(s.decisions[step.task]) {
      assert StillPending(s.requests, s.decisions[step.task].seen.id);
    }
  }

  ghost predicate CarefulRun(roster: seq<SeedUser>, s0: State, steps: seq<Step>) {
    forall i :: 0 <= i < |steps| ==> CarefulStep(Exec(roster, s0, steps[..i]), steps[i])
  }

  lemma {:induction false} CarefulRunsStayCareful(roster: seq<SeedUser>, s0: State, steps: seq<Step>)
    requires Init(s0) && CarefulRun(roster, s0, steps)
    ensures CarefulState(Exec(roster, s0, steps))
  {
    if steps != [] {
      var n := |steps| - 1;
      forall i | 0 <= i < n ensures CarefulStep(Exec(roster, s0, steps[..n][..i]), steps[..n][i]) {
        assert steps[..n][..i] == steps[..i];
      }
      CarefulRunsStayCareful(roster, s0, steps[..n]);
      InvAlways(roster, s0, steps[..n]);
      CarefulStepKeeps(roster, Exec(roster, s0, steps[..n]), steps[n]);
    }
  }

  /** Once its deduction has succeeded, an approval in a careful run cannot be refused. */
  lemma CarefulApprovalCannotBeRefused(roster: seq<SeedUser>, s0: State, steps: seq<Step>, task: nat)
    requires Init(s0) && CarefulRun(roster, s0, steps)
    requires var s := Exec(roster, s0, steps); task in s.decisions && s.decisions[task].decision.Flipping?
    ensures var s := Exec(roster, s0, steps); Update(s.requests, s.decisions[task]).Ok?
  {
    var s := Exec(roster, s0, steps);
    CarefulRunsStayCareful(roster, s0, steps);
    InvAlways(roster, s0, steps);
    assert SeenOk(s.requests, s.decisions[task]);
    assert StillPending(s.requests, s.decisions[task].seen.id);
  }

  /** In a careful run no deducted day is lost: every employee is charged exactly for the
      approved requests, except while an approval on the account has yet to update the status. */
  lemma CarefulRunsBalanceTheBooks(roster: seq<SeedUser>, s0: State, steps: seq<Step>, k: Key)
    requires Init(s0) && CarefulRun(roster, s0, steps)
    ensures Balanced(Exec(roster, s0, steps), k) <==> !Charging(Exec(roster, s0, steps).decisions, k)
  {
    forall e: nat ensures !StrandedDuring(roster, s0, steps, e) {
      forall i | 0 <= i < |steps| ensures !StrandsAt(roster, s0, steps, i, e) {
        CarefulPrefix(roster, s0, steps, i);
        CarefulRunsStayCareful(roster, s0, steps[..i]);
        CarefulStepStrandsNothing(Exec(roster, s0, steps[..i]), steps[i], e);
      }
    }
    AccountBalancesIff(roster, s0, steps, k);
  }

  lemma CarefulPrefix(roster: seq<SeedUser>, s0: State, steps: seq<Step>, n: nat)
    requires CarefulRun(roster, s0, steps) && n <= |steps|
    ensures CarefulRun(roster, s0, steps[..n])
  {
    forall i | 0 <= i < n ensures CarefulStep(Exec(roster, s0, steps[..n][..i]), steps[..n][i]) {
      assert steps[..n][..i] == steps[..i];
    }
  }
}

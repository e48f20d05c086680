/** Where every deducted day goes: to an approved request, to an approval still under way,
    or nowhere, when an approval failed after its deduction. */
module Conservation {
  import opened Domain
  import opened Sequences
  import opened OrgChart
  import opened RequestLog
  import opened Balances
  import opened LeaveSystem
  import opened SystemInvariant

  /** The days deducted by entries whose approval has not flipped its request. */
  function OpenDays(ledger: seq<Entry>, k: Key): int {
    SumBy(ledger, OpenCharge(k))
  }

  lemma InvGivesConservation(roster: seq<SeedUser>, s: State, k: Key)
    requires Inv(roster, s)
    ensures Used(s.accounts, k) == ApprovedDays(s.requests, k) + OpenDays(s.ledger, k)
    ensures OpenDays(s.ledger, k) >= 0
  {
    SumBySplit(s.ledger, Charge(k), WonCharge(k), OpenCharge(k));
    forall e | e in s.ledger ensures OpenCharge(k)(e) >= 0 {
      var i :| 0 <= i < |s.ledger| && s.ledger[i] == e;
    }
    SumByAtLeast(s.ledger, OpenCharge(k));
  }

  /** In every reachable state, for every employee and leave type: what is used is exactly
      the approved days plus the days of the open ledger entries. */
  lemma DaysAreConserved(roster: seq<SeedUser>, s0: State, steps: seq<Step>, k: Key)
    requires Init(s0)
    ensures var s := Exec(roster, s0, steps);
      Used(s.accounts, k) == ApprovedDays(s.requests, k) + OpenDays(s.ledger, k)
  {
    InvAlways(roster, s0, steps);
    InvGivesConservation(roster, Exec(roster, s0, steps), k);
  }

  ghost predicate SameAllocations(a: Accounts, b: Accounts) {
    forall k :: Allocated(a, k) == Allocated(b, k)
  }

  lemma StepKeepsAllocations(roster: seq<SeedUser>, s: State, step: Step)
    ensures SameAllocations(s.accounts, Do(roster, s, step).accounts)
  {
    if !step.Deduct? {
      assert Do(roster, s, step).accounts == s.accounts;
    }
  }

  lemma {:induction false} AllocationsFixed(roster: seq<SeedUser>, s0: State, steps: seq<Step>)
    ensures SameAllocations(s0.accounts, Exec(roster, s0, steps).accounts)
  {
    if steps != [] {
      var n := |steps| - 1;
      AllocationsFixed(roster, s0, steps[..n]);
      StepKeepsAllocations(roster, Exec(roster, s0, steps[..n]), steps[n]);
    }
  }

  /** In every reachable state the approved days never exceed what was deducted, nor that
      the allocation made at the start. Without an account nothing is ever approved. */
  lemma ApprovedNeverExceedsAllocation(roster: seq<SeedUser>, s0: State, steps: seq<Step>, k: Key)
    requires Init(s0)
    ensures var s := Exec(roster, s0, steps);
      ApprovedDays(s.requests, k) <= Used(s.accounts, k) <= Allocated(s0.accounts, k)
  {
    InvAlways(roster, s0, steps);
    InvGivesConservation(roster, Exec(roster, s0, steps), k);
    AllocationsFixed(roster, s0, steps);
  }

  /** A step charges an account exactly when it handles the deduction of an approval that the
      account covers; then it makes one entry, and charges that account by its days. */
  lemma StepChargesIff(roster: seq<SeedUser>, s: State, step: Step)
    ensures var s' := Do(roster, s, step);
      var charges := step.Deduct? && step.task in s.decisions && s.decisions[step.task].decision.Deducting?
        && var r := s.decisions[step.task].seen;
           r.Key() in s.accounts && 0 < r.days
           && s.accounts[r.Key()].used + r.days <= s.accounts[r.Key()].total;
      if charges then
        var r := s.decisions[step.task].seen;
        var account := s.accounts[r.Key()];
        && s'.accounts == s.accounts[r.Key() := Account(account.total, account.used + r.days)]
        && s'.ledger == s.ledger + [Entry(r.id, r.Key(), r.days, false)]
      else s'.accounts == s.accounts && |s'.ledger| == |s.ledger|
  {
    if step.Deduct? && step.task in s.decisions {
      var r := s.decisions[step.task].seen;
      DeductOutcome(s.accounts, r.Key(), r.days);
    }
  }

  /** In every reachable state, what an employee may still apply for is the allocation made
      at the start less the approved days and those of the open ledger entries. */
  lemma RemainingIsWhatIsLeft(roster: seq<SeedUser>, s0: State, steps: seq<Step>, k: Key)
    requires Init(s0)
    ensures var s := Exec(roster, s0, steps);
      Remaining(s.accounts, k) == Allocated(s0.accounts, k) - ApprovedDays(s.requests, k) - OpenDays(s.ledger, k)
  {
    DaysAreConserved(roster, s0, steps, k);
    AllocationsFixed(roster, s0, steps);
    assert Allocated(Exec(roster, s0, steps).accounts, k) == Allocated(s0.accounts, k);
  }

  // ------------------------------------------------------------ stranded entries

  ghost predicate Owned(decisions: map<nat, DecisionTask>, e: nat) {
    exists t :: t in decisions && decisions[t].decision == Flipping(e)
  }

  /** An entry nothing can win any more: its approval is over and did not flip the status. */
  ghost predicate Stranded(s: State, e: nat) {
    e < |s.ledger| && !s.ledger[e].won && !Owned(s.decisions, e)
  }

  /** Whether the step, taken in this state, strands entry e: the deduction happens but its
      caller does not learn of it, the flip is never made, or the flip finds the request no
      longer pending. */
  ghost predicate Strands(s: State, step: Step, e: nat) {
    match step
    case Deduct(task, delivered) =>
      && e == |s.ledger| && task in s.decisions
      && var t := s.decisions[task];
         && t.decision.Deducting? && Balances.Deduct(s.accounts, t.seen.Key(), t.seen.days).Ok?
         && !(t.live && delivered)
    case Flip(task, _) =>
      && task in s.decisions && s.decisions[task].decision == Flipping(e)
      && var found := Find(s.requests, s.decisions[task].seen.id);
         found.Some? && found.value.status != Pending
    case Drop(task) =>
      task in s.decisions && s.decisions[task].decision == Flipping(e)
    case _ => false
  }

  /** An approval's flip goes through exactly when its request is still pending. */
  lemma ApprovalFlipsIffPending(s: State, t: DecisionTask)
    requires SeenOk(s.requests, t) && t.decision.Flipping?
    ensures Update(s.requests, t).Ok? <==> Find(s.requests, t.seen.id).value.status == Pending
  {
  }

  lemma OwnedAreOpen(rs: seq<Req>, ledger: seq<Entry>, decisions: map<nat, DecisionTask>, e: nat)
    requires DecisionsOk(rs, ledger, decisions) && Owned(decisions, e)
    ensures e < |ledger| && !ledger[e].won
  {
    var t :| t in decisions && decisions[t].decision == Flipping(e);
    assert OwnsEntry(ledger, decisions[t]);
  }

  lemma ClaimAddsOwner(decisions: map<nat, DecisionTask>, task: nat, n: nat, e: nat)
    requires task in decisions && decisions[task].decision.Deducting?
    ensures Owned(decisions[task := decisions[task].(decision := Flipping(n))], e) <==> Owned(decisions, e) || e == n
  {
    var decisions' := decisions[task := decisions[task].(decision := Flipping(n))];
    assert decisions'[task].decision == Flipping(n);
    if u :| u in decisions && decisions[u].decision == Flipping(e) {
      assert u in decisions' && decisions'[u].decision == Flipping(e);
    }
  }

  lemma DeductStrands(roster: seq<SeedUser>, s: State, task: nat, delivered: bool, e: nat)
    requires DecisionsOk(s.requests, s.ledger, s.decisions)
    ensures var step := LeaveSystem.Deduct(task, delivered);
      Stranded(Do(roster, s, step), e) <==> Stranded(s, e) || Strands(s, step, e)
  {
    if task in s.decisions && s.decisions[task].decision.Deducting? {
      if Owned(s.decisions, e) { OwnedAreOpen(s.requests, s.ledger, s.decisions, e); }
      RemovalKeepsOwners(s.decisions, task, e);
      ClaimAddsOwner(s.decisions, task, |s.ledger|, e);
    }
  }

  /** Removing a task disowns exactly the entry it owned. */
  lemma RemovalKeepsOwners(decisions: map<nat, DecisionTask>, task: nat, e: nat)
    requires task in decisions ==> decisions[task].decision != Flipping(e)
    ensures Owned(decisions - {task}, e) <==> Owned(decisions, e)
  {
    if t :| t in decisions && decisions[t].decision == Flipping(e) {
      assert t in decisions - {task};
    }
  }

  lemma RemovalDisowns(rs: seq<Req>, ledger: seq<Entry>, decisions: map<nat, DecisionTask>, task: nat, e: nat)
    requires DecisionsOk(rs, ledger, decisions)
    requires task in decisions && decisions[task].decision == Flipping(e)
    ensures !Owned(decisions - {task}, e) && Owned(decisions, e)
    ensures e < |ledger| && !ledger[e].won
  {
    assert OwnsEntry(ledger, decisions[task]);
  }

  /** A task that waits for the reply to its status update owns no entry any more. */
  lemma ReplyingOwnsNothing(decisions: map<nat, DecisionTask>, task: nat, t: DecisionTask, e: nat)
    requires t.decision.Replying?
    ensures Owned(decisions[task := t], e) <==> Owned(decisions - {task}, e)
  {
    var decisions', rest := decisions[task := t], decisions - {task};
    if u :| u in decisions' && decisions'[u].decision == Flipping(e) {
      assert u in rest && rest[u].decision == Flipping(e);
    }
    if u :| u in rest && rest[u].decision == Flipping(e) {
      assert u in decisions' && decisions'[u].decision == Flipping(e);
    }
  }

  lemma DropStrands(roster: seq<SeedUser>, s: State, task: nat, e: nat)
    requires DecisionsOk(s.requests, s.ledger, s.decisions)
    ensures Stranded(Do(roster, s, Drop(task)), e) <==> Stranded(s, e) || Strands(s, Drop(task), e)
  {
    if task in s.decisions && s.decisions[task].decision == Flipping(e) {
      RemovalDisowns(s.requests, s.ledger, s.decisions, task, e);
    } else {
      RemovalKeepsOwners(s.decisions, task, e);
    }
  }

  lemma FlipStrands(roster: seq<SeedUser>, s: State, task: nat, delivered: bool, e: nat)
    requires DecisionsOk(s.requests, s.ledger, s.decisions)
    ensures var step := Flip(task, delivered);
      Stranded(Do(roster, s, step), e) <==> Stranded(s, e) || Strands(s, step, e)
  {
    if task in s.decisions && s.decisions[task].decision.Updates() {
      var t := s.decisions[task];
      assert SeenOk(s.requests, t) && OwnsEntry(s.ledger, t);
      ReplyingOwnsNothing(s.decisions, task, t.(decision := Replying(Announce(t))), e);
      if t.decision == Flipping(e) {
        RemovalDisowns(s.requests, s.ledger, s.decisions, task, e);
        ApprovalFlipsIffPending(s, t);
      } else {
        RemovalKeepsOwners(s.decisions, task, e);
      }
    }
  }

  lemma HearingStrandsNothing(roster: seq<SeedUser>, s: State, task: nat, e: nat)
    ensures Stranded(Do(roster, s, HearReply(task)), e) <==> Stranded(s, e)
  {
    if task in s.decisions && s.decisions[task].decision.Replying? {
      RemovalKeepsOwners(s.decisions, task, e);
    }
  }

  lemma ChangeKeepsOwners(decisions: map<nat, DecisionTask>, task: nat, t: DecisionTask, e: nat)
    requires if task in decisions then t.decision == decisions[task].decision else !t.decision.Flipping?
    ensures Owned(decisions[task := t], e) <==> Owned(decisions, e)
  {
    var decisions' := decisions[task := t];
    if u :| u in decisions && decisions[u].decision == Flipping(e) {
      assert u in decisions' && decisions'[u].decision == Flipping(e);
    }
    if u :| u in decisions' && decisions'[u].decision == Flipping(e) {
      assert u in decisions && decisions[u].decision == Flipping(e);
    }
  }

  lemma LoadStrandsNothing(s: State, task: nat, id: string, manager: string, decision: Decision, e: nat)
    requires !decision.Flipping?
    ensures Stranded(DoLoad(s, task, id, manager, decision), e) <==> Stranded(s, e)
  {
    var seen := LoadPending(s.requests, id, manager);
    if task !in s.decisions && seen.Ok? {
      ChangeKeepsOwners(s.decisions, task, DecisionTask(seen.value, manager, true, decision), e);
    }
  }

  lemma GiveUpStrandsNothing(roster: seq<SeedUser>, s: State, task: nat, e: nat)
    ensures Stranded(Do(roster, s, GiveUp(task)), e) <==> Stranded(s, e)
  {
    if task in s.decisions {
      ChangeKeepsOwners(s.decisions, task, s.decisions[task].(live := false), e);
    }
  }

  lemma OtherStepsStrandNothing(roster: seq<SeedUser>, s: State, step: Step, e: nat)
    requires step.StartApply? || step.ReadBalance? || step.AbortApply? || step.FinishApply? || step.CancelLeave?
    ensures Stranded(Do(roster, s, step), e) <==> Stranded(s, e)
  {
    var s' := Do(roster, s, step);
    assert s'.ledger == s.ledger && s'.decisions == s.decisions;
  }

  /** In every reachable state, a step strands exactly the entries its guard says. */
  lemma StepStrandsExactly(roster: seq<SeedUser>, s: State, step: Step, e: nat)
    requires Inv(roster, s)
    ensures Stranded(Do(roster, s, step), e) <==> Stranded(s, e) || Strands(s, step, e)
  {
    match step
    case Deduct(task, delivered) => DeductStrands(roster, s, task, delivered, e);
    case Flip(task, delivered) => FlipStrands(roster, s, task, delivered, e);
    case HearReply(task) => HearingStrandsNothing(roster, s, task, e);
    case Drop(task) => DropStrands(roster, s, task, e);
    case GiveUp(task) => GiveUpStrandsNothing(roster, s, task, e);
    case LoadApprove(task, id, manager) => LoadStrandsNothing(s, task, id, manager, Deducting, e);
    case LoadReject(task, id, manager, reason) => LoadStrandsNothing(s, task, id, manager, Rejecting(reason), e);
    case _ => OtherStepsStrandNothing(roster, s, step, e);
  }

  /** Some step of the run strands entry e. */
  ghost predicate StrandedDuring(roster: seq<SeedUser>, s0: State, steps: seq<Step>, e: nat) {
    exists i :: 0 <= i < |steps| && StrandsAt(roster, s0, steps, i, e)
  }

  ghost predicate StrandsAt(roster: seq<SeedUser>, s0: State, steps: seq<Step>, i: nat, e: nat)
    requires i < |steps|
  {
    Strands(Exec(roster, s0, steps[..i]), steps[i], e)
  }

  lemma StrandsAtPrefix(roster: seq<SeedUser>, s0: State, steps: seq<Step>, n: nat, i: nat, e: nat)
    requires i < n <= |steps|
    ensures StrandsAt(roster, s0, steps[..n], i, e) == StrandsAt(roster, s0, steps, i, e)
  {
    assert steps[..n][..i] == steps[..i];
  }

  lemma StrandedDuringPrefix(roster: seq<SeedUser>, s0: State, steps: seq<Step>, n: nat, e: nat)
    requires n + 1 == |steps|
    ensures StrandedDuring(roster, s0, steps, e) <==>
      StrandedDuring(roster, s0, steps[..n], e) || StrandsAt(roster, s0, steps, n, e)
  {
    forall i | 0 <= i < n
      ensures StrandsAt(roster, s0, steps[..n], i, e) == StrandsAt(roster, s0, steps, i, e)
    {
      StrandsAtPrefix(roster, s0, steps, n, i, e);
    }
  }

  /** The entries stranded at the end of a run are those some step of it stranded. */
  lemma {:induction false} StrandedBySomeStep(roster: seq<SeedUser>, s0: State, steps: seq<Step>, e: nat)
    requires Init(s0)
    ensures Stranded(Exec(roster, s0, steps), e) <==> StrandedDuring(roster, s0, steps, e)
  {
    if steps != [] {
      var n := |steps| - 1;
      StrandedBySomeStep(roster, s0, steps[..n], e);
      InvAlways(roster, s0, steps[..n]);
      StepStrandsExactly(roster, Exec(roster, s0, steps[..n]), steps[n], e);
      StrandedDuringPrefix(roster, s0, steps, n, e);
    }
  }

  lemma {:induction false} AllWonSumsToZero(ledger: seq<Entry>, k: Key)
    requires forall i :: 0 <= i < |ledger| && ledger[i].key == k ==> ledger[i].won
    ensures OpenDays(ledger, k) == 0
  {
    if ledger != [] {
      AllWonSumsToZero(ledger[..|ledger| - 1], k);
    }
  }

  lemma OpenDaysZeroIff(ledger: seq<Entry>, k: Key)
    requires forall i :: 0 <= i < |ledger| ==> ledger[i].days > 0
    ensures OpenDays(ledger, k) == 0 <==> forall i :: 0 <= i < |ledger| && ledger[i].key == k ==> ledger[i].won
  {
    if OpenDays(ledger, k) == 0 {
      SumByAtLeast(ledger, OpenCharge(k));
      forall i | 0 <= i < |ledger| && ledger[i].key == k ensures ledger[i].won {
        assert OpenDays(ledger, k) >= OpenCharge(k)(ledger[i]);
      }
    } else if forall i :: 0 <= i < |ledger| && ledger[i].key == k ==> ledger[i].won {
      AllWonSumsToZero(ledger, k);
    }
  }

  /** The employee has been charged for exactly the approved requests of the leave type. */
  ghost predicate Balanced(s: State, k: Key) {
    Used(s.accounts, k) == ApprovedDays(s.requests, k)
  }

  /** An approval on this account has deducted and has yet to update the status. */
  ghost predicate Charging(decisions: map<nat, DecisionTask>, k: Key) {
    exists t :: t in decisions && decisions[t].decision.Flipping? && decisions[t].seen.Key() == k
  }

  /** An entry that has not won is stranded, or its approval is still charging. */
  lemma BalancedIffNoneStranded(roster: seq<SeedUser>, s: State, k: Key)
    requires Inv(roster, s)
    ensures Balanced(s, k) <==>
      !Charging(s.decisions, k) && forall e: nat :: e < |s.ledger| && s.ledger[e].key == k ==> !Stranded(s, e)
  {
    InvGivesConservation(roster, s, k);
    OpenDaysZeroIff(s.ledger, k);
    if t :| t in s.decisions && s.decisions[t].decision.Flipping? && s.decisions[t].seen.Key() == k {
      assert OwnsEntry(s.ledger, s.decisions[t]);
    }
    forall e: nat | e < |s.ledger| && s.ledger[e].key == k && Owned(s.decisions, e) ensures Charging(s.decisions, k) {
      var t :| t in s.decisions && s.decisions[t].decision == Flipping(e);
      assert OwnsEntry(s.ledger, s.decisions[t]);
    }
  }

  /** Some step of the run strands an entry of this account. */
  ghost predicate LosesDays(roster: seq<SeedUser>, s0: State, steps: seq<Step>, k: Key) {
    var ledger := Exec(roster, s0, steps).ledger;
    exists e: nat :: e < |ledger| && ledger[e].key == k && StrandedDuring(roster, s0, steps, e)
  }

  /** In every reachable state, for every employee and leave type: what is used is exactly
      what the approved requests need if and only if no step of the run stranded an entry of
      this account and no approval is on its way from charging it to updating the status. */
  lemma AccountBalancesIff(roster: seq<SeedUser>, s0: State, steps: seq<Step>, k: Key)
    requires Init(s0)
    ensures Balanced(Exec(roster, s0, steps), k) <==>
      !LosesDays(roster, s0, steps, k) && !Charging(Exec(roster, s0, steps).decisions, k)
  {
    var s := Exec(roster, s0, steps);
    InvAlways(roster, s0, steps);
    BalancedIffNoneStranded(roster, s, k);
    forall e: nat ensures Stranded(s, e) <==> StrandedDuring(roster, s0, steps, e) {
      StrandedBySomeStep(roster, s0, steps, e);
    }
  }

  ghost predicate BooksBalance(s: State) {
    forall k :: Balanced(s, k)
  }

  /** When no decision is under way, every employee has been charged exactly for their
      approved requests if and only if no step of the run stranded an entry. */
  lemma BooksBalanceIffNothingStranded(roster: seq<SeedUser>, s0: State, steps: seq<Step>)
    requires Init(s0)
    requires Exec(roster, s0, steps).decisions == map[]
    ensures BooksBalance(Exec(roster, s0, steps)) <==> forall e: nat :: !StrandedDuring(roster, s0, steps, e)
  {
    var s := Exec(roster, s0, steps);
    forall k ensures Balanced(s, k) <==> !LosesDays(roster, s0, steps, k) {
      AccountBalancesIff(roster, s0, steps, k);
    }
    forall e: nat | StrandedDuring(roster, s0, steps, e)
      ensures e < |s.ledger| && LosesDays(roster, s0, steps, s.ledger[e].key)
    {
      StrandedBySomeStep(roster, s0, steps, e);
    }
  }
}

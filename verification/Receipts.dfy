/** Every approved request is paid for by one ledger entry of its own, and what an
    application's balance check is worth by the time it is answered. */
module Receipts {
  import opened Domain
  import opened Sequences
  import opened OrgChart
  import opened RequestLog
  import opened Balances
  import opened LeaveSystem
  import opened SystemInvariant

  /** If entry e has won, it paid for an approved request: its employee, type and days. */
  ghost predicate Pays(rs: seq<Req>, entry: Entry) {
    entry.won ==>
      var i := Position(rs, entry.request);
      i >= 0 && rs[i].status == Approved && entry.key == rs[i].Key() && entry.days == rs[i].days
  }

  ghost predicate HasReceipt(ledger: seq<Entry>, id: string) {
    exists e :: 0 <= e < |ledger| && ledger[e].won && ledger[e].request == id
  }

  ghost predicate PaidOnce(rs: seq<Req>, ledger: seq<Entry>) {
    && (forall e :: 0 <= e < |ledger| ==> Pays(rs, ledger[e]))
    && (forall e, f :: 0 <= e < f < |ledger| && ledger[e].won && ledger[f].won
          ==> ledger[e].request != ledger[f].request)
    && (forall i :: 0 <= i < |rs| && rs[i].status == Approved ==> HasReceipt(ledger, rs[i].id))
  }

  ghost predicate Paid(s: State) {
    PaidOnce(s.requests, s.ledger)
  }

  ghost predicate NoNewApproval(rs: seq<Req>, rs': seq<Req>) {
    forall i :: 0 <= i < |rs'| && rs'[i].status == Approved ==> i < |rs| && rs[i] == rs'[i]
  }

  lemma EvolutionKeepsPaid(rs: seq<Req>, rs': seq<Req>, ledger: seq<Entry>)
    requires PaidOnce(rs, ledger) && Evolves(rs, rs') && UniqueIds(rs') && NoNewApproval(rs, rs')
    ensures PaidOnce(rs', ledger)
  {
    forall e | 0 <= e < |ledger| ensures Pays(rs', ledger[e]) {
      assert Pays(rs, ledger[e]);
      if ledger[e].won { PositionKept(rs, rs', ledger[e].request); }
    }
  }

  lemma ApprovalIsPaid(rs: seq<Req>, rs': seq<Req>, i: nat, ledger: seq<Entry>, e: nat)
    requires PaidOnce(rs, ledger) && UniqueIds(rs) && UniqueIds(rs')
    requires Settles(rs, rs', i) && rs'[i].status == Approved
    requires e < |ledger| && ledger[e] == Entry(rs[i].id, rs[i].Key(), rs[i].days, false)
    ensures PaidOnce(rs', ledger[e := ledger[e].(won := true)])
  {
    var ledger' := ledger[e := ledger[e].(won := true)];
    assert Position(rs, rs[i].id) == i && Position(rs', rs[i].id) == i;
    forall f | 0 <= f < |ledger| && f != e
      ensures Pays(rs', ledger'[f]) && (ledger[f].won ==> ledger[f].request != rs[i].id)
    {
      assert Pays(rs, ledger[f]);
      if ledger[f].won { PositionKept(rs, rs', ledger[f].request); }
    }
    forall j | 0 <= j < |rs'| && rs'[j].status == Approved ensures HasReceipt(ledger', rs'[j].id) {
      if j == i {
        assert ledger'[e].won && ledger'[e].request == rs[i].id;
      } else {
        assert HasReceipt(ledger, rs[j].id);
        var f :| 0 <= f < |ledger| && ledger[f].won && ledger[f].request == rs[j].id;
        assert ledger'[f] == ledger[f];
      }
    }
  }

  lemma NewEntryKeepsPaid(rs: seq<Req>, ledger: seq<Entry>, entry: Entry)
    requires PaidOnce(rs, ledger) && !entry.won
    ensures PaidOnce(rs, ledger + [entry])
  {
    forall i | 0 <= i < |rs| && rs[i].status == Approved ensures HasReceipt(ledger + [entry], rs[i].id) {
      assert HasReceipt(ledger, rs[i].id);
      var f :| 0 <= f < |ledger| && ledger[f].won && ledger[f].request == rs[i].id;
      assert (ledger + [entry])[f] == ledger[f];
    }
  }

  lemma UpdateKeepsPaid(roster: seq<SeedUser>, s: State, t: DecisionTask)
    requires RequestsOk(roster, s.requests) && Paid(s)
    requires SeenOk(s.requests, t) && OwnsEntry(s.ledger, t)
    requires t.decision.Updates() && Update(s.requests, t).Ok?
    ensures PaidOnce(Update(s.requests, t).value, MarkWon(s.ledger, t.decision))
  {
    var rs', i := Update(s.requests, t).value, Position(s.requests, t.seen.id);
    FlipSettles(s, t);
    SettleKeepsRequests(roster, s.requests, rs', i);
    if t.decision.Flipping? {
      ApprovalIsPaid(s.requests, rs', i, s.ledger, t.decision.entry);
    } else {
      EvolutionKeepsPaid(s.requests, rs', s.ledger);
    }
  }

  lemma FlipKeepsPaid(roster: seq<SeedUser>, s: State, task: nat, delivered: bool)
    requires RequestsOk(roster, s.requests) && DecisionsOk(s.requests, s.ledger, s.decisions)
    requires Paid(s)
    ensures Paid(Do(roster, s, Flip(task, delivered)))
  {
    if task in s.decisions && s.decisions[task].decision.Updates() {
      var t := s.decisions[task];
      assert SeenOk(s.requests, t) && OwnsEntry(s.ledger, t);
      if Update(s.requests, t).Ok? {
        UpdateKeepsPaid(roster, s, t);
      }
    }
  }

  lemma CancelKeepsPaid(roster: seq<SeedUser>, s: State, id: string, caller: string)
    requires RequestsOk(roster, s.requests) && Paid(s)
    ensures Paid(Do(roster, s, CancelLeave(id, caller)))
  {
    var r := Cancel(s.requests, id, caller);
    if r.Ok? {
      CancelSettles(s.requests, id, caller);
      SettleKeepsRequests(roster, s.requests, r.value, Position(s.requests, id));
      EvolutionKeepsPaid(s.requests, r.value, s.ledger);
    }
  }

  lemma FinishKeepsPaid(roster: seq<SeedUser>, s: State, task: nat, id: string)
    requires UniqueIds(s.requests) && Paid(s)
    ensures Paid(Do(roster, s, FinishApply(task, id)))
  {
    var rs' := Do(roster, s, FinishApply(task, id)).requests;
    EvolutionKeepsPaid(s.requests, rs', s.ledger);
  }

  lemma DeductKeepsPaid(roster: seq<SeedUser>, s: State, task: nat, delivered: bool)
    requires Paid(s)
    ensures Paid(Do(roster, s, LeaveSystem.Deduct(task, delivered)))
  {
    if task in s.decisions {
      var t := s.decisions[task];
      NewEntryKeepsPaid(s.requests, s.ledger, Entry(t.seen.id, t.seen.Key(), t.seen.days, false));
    }
  }

  lemma OtherStepsKeepPaid(roster: seq<SeedUser>, s: State, step: Step)
    requires Paid(s) && !step.FinishApply? && !step.CancelLeave? && !step.Deduct? && !step.Flip?
    ensures Paid(Do(roster, s, step))
  {
    var s' := Do(roster, s, step);
    assert s'.requests == s.requests && s'.ledger == s.ledger;
  }

  lemma StepKeepsPaid(roster: seq<SeedUser>, s: State, step: Step)
    requires RequestsOk(roster, s.requests) && DecisionsOk(s.requests, s.ledger, s.decisions)
    requires Paid(s)
    ensures Paid(Do(roster, s, step))
  {
    match step
    case FinishApply(task, id) => FinishKeepsPaid(roster, s, task, id);
    case CancelLeave(id, caller) => CancelKeepsPaid(roster, s, id, caller);
    case Deduct(task, delivered) => DeductKeepsPaid(roster, s, task, delivered);
    case Flip(task, delivered) => FlipKeepsPaid(roster, s, task, delivered);
    case _ => OtherStepsKeepPaid(roster, s, step);
  }

  /** In every reachable state each approved request has exactly one winning entry, of its
      own employee, type and days, and every winning entry belongs to an approved request. */
  lemma {:induction false} ApprovedRequestsArePaidOnce(roster: seq<SeedUser>, s0: State, steps: seq<Step>)
    requires Init(s0)
    ensures Paid(Exec(roster, s0, steps))
  {
    if steps != [] {
      var n := |steps| - 1;
      ApprovedRequestsArePaidOnce(roster, s0, steps[..n]);
      InvAlways(roster, s0, steps[..n]);
      StepKeepsPaid(roster, Exec(roster, s0, steps[..n]), steps[n]);
    }
  }

  // ------------------------------------------------------------ applications

  /** The days deducted under key k by the entries from number n on. */
  function ChargedSince(ledger: seq<Entry>, n: nat, k: Key): int
    requires n <= |ledger|
  {
    SumBy(ledger[n..], Charge(k))
  }

  lemma NewEntryCharged(ledger: seq<Entry>, e: Entry, n: nat, k: Key)
    requires n <= |ledger|
    ensures ChargedSince(ledger + [e], n, k) == ChargedSince(ledger, n, k) + Charge(k)(e)
  {
    assert (ledger + [e])[n..] == ledger[n..] + [e];
    SumByAppend(ledger[n..], e, Charge(k));
  }

  lemma WinningKeepsCharges(ledger: seq<Entry>, d: Decision, n: nat, k: Key)
    requires n <= |ledger|
    ensures ChargedSince(MarkWon(ledger, d), n, k) == ChargedSince(ledger, n, k)
  {
    if d.Flipping? && d.entry < |ledger| {
      var won := ledger[d.entry].(won := true);
      if d.entry < n {
        assert ledger[d.entry := won][n..] == ledger[n..];
      } else {
        assert ledger[d.entry := won][n..] == ledger[n..][d.entry - n := won];
        SumByUpdate(ledger[n..], d.entry - n, won, Charge(k));
      }
    }
  }

  /** Every day that leaves the remaining balance is the charge of a new ledger entry. */
  lemma StepCharges(roster: seq<SeedUser>, s: State, step: Step, n: nat, k: Key)
    requires n <= |s.ledger|
    ensures var s' := Do(roster, s, step);
      && |s.ledger| <= |s'.ledger|
      && Remaining(s'.accounts, k) + ChargedSince(s'.ledger, n, k)
         == Remaining(s.accounts, k) + ChargedSince(s.ledger, n, k)
  {
    match step
    case Deduct(task, _) =>
      if task in s.decisions {
        var r := s.decisions[task].seen;
        NewEntryCharged(s.ledger, Entry(r.id, r.Key(), r.days, false), n, k);
      }
    case Flip(task, _) =>
      if task in s.decisions { WinningKeepsCharges(s.ledger, s.decisions[task].decision, n, k); }
    case _ =>
  }

  lemma {:induction false} RunCharges(roster: seq<SeedUser>, s: State, steps: seq<Step>, k: Key)
    ensures var s' := Exec(roster, s, steps);
      && |s.ledger| <= |s'.ledger|
      && Remaining(s.accounts, k) == Remaining(s'.accounts, k) + ChargedSince(s'.ledger, |s.ledger|, k)
  {
    if steps == [] {
      assert s.ledger[|s.ledger|..] == [];
    } else {
      var n := |steps| - 1;
      RunCharges(roster, s, steps[..n], k);
      StepCharges(roster, Exec(roster, s, steps[..n]), steps[n], |s.ledger|, k);
    }
  }

  /** The application is waiting with a balance it has read. */
  predicate HasRead(s: State, task: nat) {
    task in s.applies && s.applies[task].remaining.Some?
  }

  lemma StepKeepsRead(roster: seq<SeedUser>, s: State, step: Step, task: nat)
    requires step != ReadBalance(task)
    ensures var s' := Do(roster, s, step);
      HasRead(s', task) ==> HasRead(s, task) && s'.applies[task] == s.applies[task]
  {
    match step
    case StartApply(_, _, _, _) =>
    case ReadBalance(_) =>
    case AbortApply(_) =>
    case FinishApply(_, _) =>
    case _ => assert Do(roster, s, step).applies == s.applies;
  }

  /** What a task has read stays with it until it reads again or ends. */
  lemma {:induction false} ReadStays(roster: seq<SeedUser>, s: State, steps: seq<Step>, task: nat)
    requires forall j :: 0 <= j < |steps| ==> steps[j] != ReadBalance(task)
    ensures var s' := Exec(roster, s, steps);
      HasRead(s', task) ==> HasRead(s, task) && s'.applies[task] == s.applies[task]
  {
    if steps != [] {
      var n := |steps| - 1;
      ReadStays(roster, s, steps[..n], task);
      StepKeepsRead(roster, Exec(roster, s, steps[..n]), steps[n], task);
    }
  }

  /** The step that last read the balance for the task, or -1 if none did. */
  function LastRead(steps: seq<Step>, task: nat): (i: int)
    ensures -1 <= i < |steps|
    ensures i >= 0 ==> steps[i] == ReadBalance(task)
    ensures forall j :: i < j < |steps| ==> steps[j] != ReadBalance(task)
  {
    if steps == [] then -1
    else if steps[|steps| - 1] == ReadBalance(task) then |steps| - 1
    else LastRead(steps[..|steps| - 1], task)
  }

  lemma ReadHappened(roster: seq<SeedUser>, s0: State, steps: seq<Step>, task: nat)
    requires Init(s0) && HasRead(Exec(roster, s0, steps), task)
    ensures LastRead(steps, task) >= 0
  {
    if LastRead(steps, task) < 0 {
      ReadStays(roster, s0, steps, task);
    }
  }

  /** How many deductions had been made when the task last read the balance. */
  function EntriesAtRead(roster: seq<SeedUser>, s0: State, steps: seq<Step>, task: nat): nat {
    var i := LastRead(steps, task);
    if i < 0 then 0 else |Exec(roster, s0, steps[..i]).ledger|
  }

  /** How far the balance a waiting application has read may be from the present one: it is
      the present one and the days deducted since, whatever else happened in between. */
  lemma ReadIsPresentPlusCharged(roster: seq<SeedUser>, s0: State, steps: seq<Step>, task: nat)
    requires Init(s0) && HasRead(Exec(roster, s0, steps), task)
    ensures
      var s, n := Exec(roster, s0, steps), EntriesAtRead(roster, s0, steps, task);
      var t := s.applies[task];
      var k := (t.employee, t.payload.leaveType);
      && n <= |s.ledger|
      && t.remaining.value == Remaining(s.accounts, k) + ChargedSince(s.ledger, n, k)
  {
    ReadHappened(roster, s0, steps, task);
    var i := LastRead(steps, task);
    var read := Exec(roster, s0, steps[..i + 1]);
    ExecPrefix(roster, s0, steps, i);
    assert steps[..|steps|] == steps && steps[i + 1..|steps|] == steps[i + 1..];
    ExecSplit(roster, s0, steps, i + 1, |steps|);
    ReadStays(roster, read, steps[i + 1..], task);
    var t := Exec(roster, s0, steps).applies[task];
    RunCharges(roster, read, steps[i + 1..], (t.employee, t.payload.leaveType));
  }

  /** Finishing the application stores a request. */
  predicate Stores(roster: seq<SeedUser>, s: State, task: nat, id: string) {
    |Do(roster, s, FinishApply(task, id)).requests| == |s.requests| + 1
  }

  lemma StoresIff(roster: seq<SeedUser>, s: State, task: nat, id: string)
    requires HasRead(s, task)
    ensures Stores(roster, s, task, id) <==>
      Find(s.requests, id).None? && s.applies[task].payload.days <= s.applies[task].remaining.value
  {
  }

  /** An application with an unused id is stored exactly if its days are covered by the
      present balance and the days deducted since its read. One that is stored is covered at
      that moment if and only if no more was deducted since than it leaves of what it read. */
  lemma StoredIffCoveredAtRead(
    roster: seq<SeedUser>, s0: State, steps: seq<Step>, task: nat, id: string)
    requires Init(s0) && HasRead(Exec(roster, s0, steps), task)
    ensures
      var s, n := Exec(roster, s0, steps), EntriesAtRead(roster, s0, steps, task);
      var t := s.applies[task];
      var k := (t.employee, t.payload.leaveType);
      var stored, covered := Stores(roster, s, task, id), t.payload.days <= Remaining(s.accounts, k);
      && n <= |s.ledger|
      && (Find(s.requests, id).None? ==>
            (stored <==> t.payload.days <= Remaining(s.accounts, k) + ChargedSince(s.ledger, n, k)))
      && (stored ==> (covered <==> ChargedSince(s.ledger, n, k) <= t.remaining.value - t.payload.days))
  {
    ReadIsPresentPlusCharged(roster, s0, steps, task);
    StoresIff(roster, Exec(roster, s0, steps), task, id);
  }

  /** The balance an application has read is never below the present one. */
  ghost predicate ReadsAreHigh(applies: map<nat, ApplyTask>, a: Accounts) {
    forall t :: t in applies && applies[t].remaining.Some? ==>
      applies[t].remaining.value >= Remaining(a, (applies[t].employee, applies[t].payload.leaveType))
  }

  ghost predicate OnlyShrinks(a: Accounts, a': Accounts) {
    forall k :: Remaining(a', k) <= Remaining(a, k)
  }

  lemma StepOnlyShrinks(roster: seq<SeedUser>, s: State, step: Step)
    ensures OnlyShrinks(s.accounts, Do(roster, s, step).accounts)
  {
    if !step.Deduct? {
      assert Do(roster, s, step).accounts == s.accounts;
    }
  }

  lemma ShrinkingKeepsReadsHigh(applies: map<nat, ApplyTask>, a: Accounts, a': Accounts)
    requires ReadsAreHigh(applies, a) && OnlyShrinks(a, a')
    ensures ReadsAreHigh(applies, a')
  {
    forall t | t in applies && applies[t].remaining.Some?
      ensures applies[t].remaining.value >= Remaining(a', (applies[t].employee, applies[t].payload.leaveType))
    {
      assert Remaining(a', (applies[t].employee, applies[t].payload.leaveType))
          <= Remaining(a, (applies[t].employee, applies[t].payload.leaveType));
    }
  }

  lemma OtherStepsReadNothing(roster: seq<SeedUser>, s: State, step: Step)
    requires !step.Deduct? && !step.ReadBalance?
    ensures var s' := Do(roster, s, step);
      && s'.accounts == s.accounts
      && forall t :: t in s'.applies && s'.applies[t].remaining.Some? ==>
           t in s.applies && s'.applies[t] == s.applies[t]
  {
  }

  lemma StepKeepsReadsHigh(roster: seq<SeedUser>, s: State, step: Step)
    requires ReadsAreHigh(s.applies, s.accounts)
    ensures ReadsAreHigh(Do(roster, s, step).applies, Do(roster, s, step).accounts)
  {
    if step.Deduct? {
      StepOnlyShrinks(roster, s, step);
      assert Do(roster, s, step).applies == s.applies;
      ShrinkingKeepsReadsHigh(s.applies, s.accounts, Do(roster, s, step).accounts);
    } else if step.ReadBalance? {
      assert Do(roster, s, step).accounts == s.accounts;
    } else {
      OtherStepsReadNothing(roster, s, step);
    }
  }

  lemma {:induction false} ReadsStayHigh(roster: seq<SeedUser>, s0: State, steps: seq<Step>)
    requires Init(s0)
    ensures ReadsAreHigh(Exec(roster, s0, steps).applies, Exec(roster, s0, steps).accounts)
  {
    if steps != [] {
      var n := |steps| - 1;
      ReadsStayHigh(roster, s0, steps[..n]);
      StepKeepsReadsHigh(roster, Exec(roster, s0, steps[..n]), steps[n]);
    }
  }

  /** An application that ends without a stored request is refused rightly: at that very
      moment, too, the balance is short of the days asked for. */
  lemma RefusalsAreJustified(roster: seq<SeedUser>, s0: State, steps: seq<Step>, task: nat, id: string)
    requires Init(s0)
    requires var s := Exec(roster, s0, steps); var s' := Do(roster, s, FinishApply(task, id));
      task in s.applies && task !in s'.applies && s'.requests == s.requests
    ensures var s := Exec(roster, s0, steps); var t := s.applies[task];
      t.payload.days > Remaining(s.accounts, (t.employee, t.payload.leaveType))
  {
    ReadsStayHigh(roster, s0, steps);
  }
}

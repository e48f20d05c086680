/** The Leave Request, Leave Balance and Manager services running together.

    Each service is one asyncio process, so a handler runs without interruption between two
    awaits: such a stretch is one atomic step here. Applying for leave is a check, a read of
    the balance by the other service, and an insertion; approving is a load, a deduction and
    a status flip, each on another service, and the arrival of the last reply. Between the
    steps of one task any steps of other tasks may happen. A remote call may be dropped
    before it takes effect, its reply may be lost, and its caller may give up while the call
    or its reply is still under way. */
module LeaveSystem {
  import opened Domain
  import opened OrgChart
  import opened RequestLog
  import opened Balances

  /** An `apply_leave` that has passed its checks; `remaining` is the balance once read. */
  datatype ApplyTask = ApplyTask(employee: string, payload: Payload, manager: string, remaining: Option<int>)

  /** Where a decision stands: an approval about to deduct, or to update the status after
      having made ledger entry `entry`; a rejection about to update the status; or either
      of them after the update took effect, with the reply on its way whose arrival makes
      the manager service publish `event`. */
  datatype Decision =
    | Deducting
    | Flipping(entry: nat)
    | Rejecting(reason: string)
    | Replying(event: Event)
  {
    /** The next call is the status update. */
    predicate Updates() {
      Flipping? || Rejecting?
    }
  }

  /** An approval or rejection whose load found `seen` pending. While `live`, the manager
      service still waits for the call in progress. */
  datatype DecisionTask = DecisionTask(seen: Req, manager: string, live: bool, decision: Decision)

  /** One successful deduction; `won` once the approval it was made for has flipped the status. */
  datatype Entry = Entry(request: string, key: Key, days: int, won: bool)

  datatype Event = LeaveApplied(id: string) | LeaveApproved(id: string) | LeaveRejected(id: string)

  /** The stores of the two services, the tasks in flight, and two histories: the ledger
      records every deduction and `events` every call of `publish_event`. No service reads
      the histories. */
  datatype State = State(
    requests: seq<Req>,
    accounts: Accounts,
    applies: map<nat, ApplyTask>,
    decisions: map<nat, DecisionTask>,
    ledger: seq<Entry>,
    events: seq<Event>)

  datatype Step =
    | StartApply(task: nat, employee: string, payload: Payload, today: int)
    | ReadBalance(task: nat)
    | AbortApply(task: nat)
    | FinishApply(task: nat, id: string)
    | CancelLeave(id: string, caller: string)
    | LoadApprove(task: nat, id: string, manager: string)
    | LoadReject(task: nat, id: string, manager: string, reason: string)
    | Deduct(task: nat, delivered: bool)
    | Flip(task: nat, delivered: bool)
    | HearReply(task: nat)
    | GiveUp(task: nat)
    | Drop(task: nat)

  // ------------------------------------------------------------ applying

  function DoStartApply(roster: seq<SeedUser>, s: State, task: nat, employee: string, p: Payload, today: int): State {
    var check := ApplyCheck(s.requests, roster, employee, p, today);
    if task in s.applies || check.Err? then s
    else s.(applies := s.applies[task := ApplyTask(employee, p, check.value, None)])
  }

  function DoReadBalance(s: State, task: nat): State {
    if task !in s.applies then s
    else
      var t := s.applies[task];
      var remaining := Remaining(s.accounts, (t.employee, t.payload.leaveType));
      s.(applies := s.applies[task := t.(remaining := Some(remaining))])
  }

  /** The resumption of `apply_leave`. `id` is a new UUID: the step waits for an unused one. */
  function DoFinishApply(s: State, task: nat, id: string): State {
    if task !in s.applies || s.applies[task].remaining.None? || Find(s.requests, id).Some? then s
    else
      var t := s.applies[task];
      var done := s.(applies := s.applies - {task});
      var r := ApplyResume(id, t.employee, t.payload, t.manager, t.remaining.value);
      if r.Err? then done
      else done.(requests := s.requests + [r.value], events := s.events + [LeaveApplied(id)])
  }

  // ------------------------------------------------------------ deciding

  /** `_load_team_request` with the check that follows it: the request as it was when the
      Request Service answered, or the error the manager gets. */
  function LoadPending(rs: seq<Req>, id: string, manager: string): Result<Req> {
    var found := Find(rs, id);
    if found.None? then Err(NOT_FOUND)
    else if found.value.manager != manager then Err(FORBIDDEN)
    else if found.value.status != Pending then Err(CONFLICT)
    else Ok(found.value)
  }

  function DoLoad(s: State, task: nat, id: string, manager: string, decision: Decision): State {
    var seen := LoadPending(s.requests, id, manager);
    if task in s.decisions || seen.Err? then s
    else s.(decisions := s.decisions[task := DecisionTask(seen.value, manager, true, decision)])
  }

  function Without(s: State, task: nat): State {
    s.(decisions := s.decisions - {task})
  }

  /** The Balance Service handles the deduction call of the task. */
  function DoDeduct(s: State, task: nat, delivered: bool): State {
    if task !in s.decisions || !s.decisions[task].decision.Deducting? then s
    else
      var t := s.decisions[task];
      var r := Balances.Deduct(s.accounts, t.seen.Key(), t.seen.days);
      if r.Err? then Without(s, task)
      else
        var s' := s.(accounts := r.value, ledger := s.ledger + [Entry(t.seen.id, t.seen.Key(), t.seen.days, false)]);
        if t.live && delivered
        then s'.(decisions := s.decisions[task := t.(decision := Flipping(|s.ledger|))])
        else Without(s', task)
  }

  /** The status update a task asks for. */
  function Update(rs: seq<Req>, t: DecisionTask): Result<seq<Req>>
    requires t.decision.Updates()
  {
    if t.decision.Rejecting?
    then UpdateStatus(rs, t.seen.id, t.manager, Rejected, Some(t.decision.reason))
    else UpdateStatus(rs, t.seen.id, t.manager, Approved, None)
  }

  function Announce(t: DecisionTask): Event
    requires t.decision.Updates()
  {
    if t.decision.Rejecting? then LeaveRejected(t.seen.id) else LeaveApproved(t.seen.id)
  }

  function MarkWon(ledger: seq<Entry>, d: Decision): seq<Entry> {
    if d.Flipping? && d.entry < |ledger| then ledger[d.entry := ledger[d.entry].(won := true)] else ledger
  }

  /** The Request Service handles the status update of the task. */
  function DoFlip(s: State, task: nat, delivered: bool): State {
    if task !in s.decisions || !s.decisions[task].decision.Updates() then s
    else
      var t := s.decisions[task];
      var r := Update(s.requests, t);
      if r.Err? then Without(s, task)
      else
        s.(requests := r.value,
           ledger := MarkWon(s.ledger, t.decision),
           decisions := if t.live && delivered
                        then s.decisions[task := t.(decision := Replying(Announce(t)))]
                        else s.decisions - {task})
  }

  /** The reply to the status update arrives: the decision is published, unless the manager
      service has stopped waiting. */
  function DoHearReply(s: State, task: nat): State {
    if task !in s.decisions || !s.decisions[task].decision.Replying? then s
    else
      var t := s.decisions[task];
      Without(s, task).(events := if t.live then s.events + [t.decision.event] else s.events)
  }

  function Do(roster: seq<SeedUser>, s: State, step: Step): State {
    match step
    case StartApply(task, employee, p, today) => DoStartApply(roster, s, task, employee, p, today)
    case ReadBalance(task) => DoReadBalance(s, task)
    case AbortApply(task) => s.(applies := s.applies - {task})
    case FinishApply(task, id) => DoFinishApply(s, task, id)
    case CancelLeave(id, caller) =>
      var r := Cancel(s.requests, id, caller);
      if r.Ok? then s.(requests := r.value) else s
    case LoadApprove(task, id, manager) => DoLoad(s, task, id, manager, Deducting)
    case LoadReject(task, id, manager, reason) => DoLoad(s, task, id, manager, Rejecting(reason))
    case Deduct(task, delivered) => DoDeduct(s, task, delivered)
    case Flip(task, delivered) => DoFlip(s, task, delivered)
    case HearReply(task) => DoHearReply(s, task)
    case GiveUp(task) =>
      if task in s.decisions
      then s.(decisions := s.decisions[task := s.decisions[task].(live := false)])
      else s
    case Drop(task) => Without(s, task)
  }

  /** The state after a run. A step that is not enabled changes nothing. */
  function Exec(roster: seq<SeedUser>, s: State, steps: seq<Step>): State {
    if steps == [] then s
    else Do(roster, Exec(roster, s, steps[..|steps| - 1]), steps[|steps| - 1])
  }

  /** Freshly seeded services. */
  ghost predicate Init(s: State) {
    && s.requests == [] && s.applies == map[] && s.decisions == map[] && s.ledger == [] && s.events == []
    && forall k :: k in s.accounts ==> s.accounts[k].used == 0 <= s.accounts[k].total
  }

  lemma SeedingStartsTheSystem(employees: seq<SeedUser>, al: Allocations)
    ensures Init(State([], SeededAccounts(employees, al, |employees|), map[], map[], [], []))
  {
    var a := SeededAccounts(employees, al, |employees|);
    forall k | k in a ensures a[k].used == 0 <= a[k].total {
      SeededAccountsExact(employees, al, |employees|, k);
    }
  }

  lemma {:induction false} ExecConcat(roster: seq<SeedUser>, s: State, a: seq<Step>, b: seq<Step>)
    ensures Exec(roster, s, a + b) == Exec(roster, Exec(roster, s, a), b)
  {
    if b == [] {
      assert a + b == a;
    } else {
      ExecConcat(roster, s, a, b[..|b| - 1]);
      assert (a + b)[..|a + b| - 1] == a + b[..|b| - 1];
    }
  }

  lemma ExecSplit(roster: seq<SeedUser>, s: State, steps: seq<Step>, i: nat, j: nat)
    requires i <= j <= |steps|
    ensures Exec(roster, s, steps[..j]) == Exec(roster, Exec(roster, s, steps[..i]), steps[i..j])
  {
    assert steps[..i] + steps[i..j] == steps[..j];
    ExecConcat(roster, s, steps[..i], steps[i..j]);
  }

  lemma ExecOne(roster: seq<SeedUser>, s: State, a: Step)
    ensures Exec(roster, s, [a]) == Do(roster, s, a)
  {
    assert [a][..0] == [];
  }

  lemma ExecTwo(roster: seq<SeedUser>, s: State, a: Step, b: Step)
    ensures Exec(roster, s, [a, b]) == Do(roster, Do(roster, s, a), b)
  {
    assert [a, b][..1] == [a];
    ExecOne(roster, s, a);
  }

  lemma ExecPrefix(roster: seq<SeedUser>, s: State, steps: seq<Step>, i: nat)
    requires i < |steps|
    ensures Exec(roster, s, steps[..i + 1]) == Do(roster, Exec(roster, s, steps[..i]), steps[i])
  {
    assert steps[..i + 1][..i] == steps[..i];
  }
}

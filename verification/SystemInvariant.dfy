/** What every step of the running system keeps, whatever interleaves and whatever call is
    lost, and what follows for every reachable state. */
module SystemInvariant {
  import opened Domain
  import opened Sequences
  import opened OrgChart
  import opened RequestLog
  import opened Balances
  import opened LeaveSystem

  // ------------------------------------------------------- how requests evolve

  /** Equal in everything but status and rejection reason. */
  predicate SameRequest(a: Req, b: Req) {
    a.(status := b.status, rejection := b.rejection) == b
  }

  /** Requests are only appended, keep their place and their contents, and one that is no
      longer pending never changes again. */
  ghost predicate Evolves(rs: seq<Req>, rs': seq<Req>) {
    && |rs| <= |rs'|
    && forall i :: 0 <= i < |rs| ==>
      SameRequest(rs[i], rs'[i]) && (rs[i].status != Pending ==> rs'[i] == rs[i])
  }

  /** A pending request at index i was decided or cancelled. */
  ghost predicate Settles(rs: seq<Req>, rs': seq<Req>, i: int) {
    && 0 <= i < |rs| && rs[i].status == Pending
    && exists r: Req :: rs' == rs[i := r] && SameRequest(rs[i], r) && r.status != Pending && ReasonOk(r)
  }

  /** A reason is recorded exactly on a rejection, and it is never blank. */
  predicate ReasonOk(r: Req) {
    (r.status == Rejected <==> r.rejection.Some?) && (r.rejection.Some? ==> !IsBlank(r.rejection.value))
  }

  lemma EvolvesTransitive(a: seq<Req>, b: seq<Req>, c: seq<Req>)
    requires Evolves(a, b) && Evolves(b, c)
    ensures Evolves(a, c)
  {
  }

  lemma CancelSettles(rs: seq<Req>, id: string, caller: string)
    requires Cancel(rs, id, caller).Ok?
    ensures Settles(rs, Cancel(rs, id, caller).value, Position(rs, id))
    ensures Cancel(rs, id, caller).value[Position(rs, id)].status == Cancelled
  {
  }

  lemma UpdateSettles(rs: seq<Req>, id: string, manager: string, status: LeaveStatus, reason: Option<string>)
    requires UpdateStatus(rs, id, manager, status, reason).Ok?
    ensures var rs' := UpdateStatus(rs, id, manager, status, reason).value;
      Settles(rs, rs', Position(rs, id)) && rs'[Position(rs, id)].status == status
  {
  }

  lemma PositionKept(rs: seq<Req>, rs': seq<Req>, id: string)
    requires Evolves(rs, rs') && UniqueIds(rs')
    requires Position(rs, id) >= 0
    ensures Position(rs', id) == Position(rs, id)
  {
    assert rs'[Position(rs, id)].id == id;
  }

  ghost predicate StillPending(rs: seq<Req>, id: string) {
    Position(rs, id) >= 0 && rs[Position(rs, id)].status == Pending
  }

  // ------------------------------------------------------------- the invariant

  ghost predicate RequestOk(roster: seq<SeedUser>, r: Req) {
    && r.start <= r.end && r.days == r.end - r.start + 1
    && GetManagerId(roster, r.employee) == Some(r.manager)
    && ReasonOk(r)
  }

  ghost predicate RequestsOk(roster: seq<SeedUser>, rs: seq<Req>) {
    UniqueIds(rs) && forall i :: 0 <= i < |rs| ==> RequestOk(roster, rs[i])
  }

  ghost predicate ApplyOk(roster: seq<SeedUser>, t: ApplyTask) {
    && t.payload.start <= t.payload.end && t.payload.days == t.payload.end - t.payload.start + 1
    && GetManagerId(roster, t.employee) == Some(t.manager)
  }

  ghost predicate AppliesOk(roster: seq<SeedUser>, applies: map<nat, ApplyTask>) {
    forall t :: t in applies ==> ApplyOk(roster, applies[t])
  }

  /** A task's snapshot may be stale in status only. */
  ghost predicate SeenOk(rs: seq<Req>, t: DecisionTask) {
    var i := Position(rs, t.seen.id);
    i >= 0 && SameRequest(t.seen, rs[i]) && t.seen.manager == t.manager
  }

  /** An approval that has deducted owns a ledger entry for exactly its request. */
  ghost predicate OwnsEntry(ledger: seq<Entry>, t: DecisionTask) {
    t.decision.Flipping? ==>
      && t.decision.entry < |ledger|
      && ledger[t.decision.entry] == Entry(t.seen.id, t.seen.Key(), t.seen.days, false)
  }

  ghost predicate DecisionsOk(rs: seq<Req>, ledger: seq<Entry>, decisions: map<nat, DecisionTask>) {
    && (forall t :: t in decisions ==> SeenOk(rs, decisions[t]) && OwnsEntry(ledger, decisions[t]))
    && (forall t, u :: t in decisions && u in decisions && t != u
          && decisions[t].decision.Flipping? && decisions[u].decision.Flipping?
          ==> decisions[t].decision.entry != decisions[u].decision.entry)
  }

  function Charge(k: Key): Entry -> int {
    (e: Entry) => if e.key == k then e.days else 0
  }

  function WonCharge(k: Key): Entry -> int {
    (e: Entry) => if e.key == k && e.won then e.days else 0
  }

  function OpenCharge(k: Key): Entry -> int {
    (e: Entry) => if e.key == k && !e.won then e.days else 0
  }

  function ApprovedShare(k: Key): Req -> int {
    (r: Req) => if r.Key() == k && r.status == Approved then r.days else 0
  }

  /** The days of the APPROVED requests of one employee and leave type. */
  function ApprovedDays(rs: seq<Req>, k: Key): int {
    SumBy(rs, ApprovedShare(k))
  }

  /** Every day used was deducted by an entry, entries are positive, and none overdrew. */
  ghost predicate LedgerOk(accounts: Accounts, ledger: seq<Entry>) {
    && (forall k :: Used(accounts, k) == SumBy(ledger, Charge(k)))
    && (forall k :: k in accounts ==> 0 <= accounts[k].used <= accounts[k].total)
    && (forall i :: 0 <= i < |ledger| ==> ledger[i].days > 0)
  }

  /** The entries that won pay for exactly the approved requests. */
  ghost predicate WonOk(rs: seq<Req>, ledger: seq<Entry>) {
    forall k :: SumBy(ledger, WonCharge(k)) == ApprovedDays(rs, k)
  }

  predicate IsDecision(e: Event) {
    e.LeaveApproved? || e.LeaveRejected?
  }

  function DecidedStatus(e: Event): LeaveStatus {
    if e.LeaveApproved? then Approved else Rejected
  }

  ghost predicate EventOk(rs: seq<Req>, e: Event) {
    IsDecision(e) ==>
      var i := Position(rs, e.id);
      i >= 0 && rs[i].status == DecidedStatus(e)
  }

  /** A published decision is the stored one, and no request has two. */
  ghost predicate EventsOk(rs: seq<Req>, events: seq<Event>) {
    && (forall i :: 0 <= i < |events| ==> EventOk(rs, events[i]))
    && (forall i, j :: 0 <= i < j < |events| && IsDecision(events[i]) && IsDecision(events[j])
          ==> events[i].id != events[j].id)
  }

  ghost predicate Unpublished(events: seq<Event>, id: string) {
    forall j :: 0 <= j < |events| && IsDecision(events[j]) ==> events[j].id != id
  }

  /** A reply on its way is about the decision stored for its request, which is not published yet. */
  ghost predicate ReplyOk(rs: seq<Req>, events: seq<Event>, t: DecisionTask) {
    t.decision.Replying? ==>
      var e := t.decision.event;
      IsDecision(e) && e.id == t.seen.id && EventOk(rs, e) && Unpublished(events, e.id)
  }

  /** No two replies are about one request. */
  ghost predicate RepliesOk(rs: seq<Req>, events: seq<Event>, decisions: map<nat, DecisionTask>) {
    && (forall t :: t in decisions ==> ReplyOk(rs, events, decisions[t]))
    && (forall t, u :: t in decisions && u in decisions && t != u
          && decisions[t].decision.Replying? && decisions[u].decision.Replying?
          ==> decisions[t].seen.id != decisions[u].seen.id)
  }

  ghost predicate Inv(roster: seq<SeedUser>, s: State) {
    && RequestsOk(roster, s.requests)
    && AppliesOk(roster, s.applies)
    && DecisionsOk(s.requests, s.ledger, s.decisions)
    && LedgerOk(s.accounts, s.ledger)
    && WonOk(s.requests, s.ledger)
    && EventsOk(s.requests, s.events)
    && RepliesOk(s.requests, s.events, s.decisions)
  }

  // ---------------------------------------------------- parts kept by each change

  lemma AppendKeepsRequests(roster: seq<SeedUser>, rs: seq<Req>, r: Req)
    requires RequestsOk(roster, rs) && RequestOk(roster, r) && Find(rs, r.id).None?
    ensures RequestsOk(roster, rs + [r]) && Evolves(rs, rs + [r])
  {
  }

  lemma SettleKeepsRequests(roster: seq<SeedUser>, rs: seq<Req>, rs': seq<Req>, i: nat)
    requires RequestsOk(roster, rs) && Settles(rs, rs', i)
    ensures RequestsOk(roster, rs') && Evolves(rs, rs')
  {
  }

  lemma EvolutionKeepsDecisions(rs: seq<Req>, rs': seq<Req>, ledger: seq<Entry>, decisions: map<nat, DecisionTask>)
    requires DecisionsOk(rs, ledger, decisions) && Evolves(rs, rs') && UniqueIds(rs')
    ensures DecisionsOk(rs', ledger, decisions)
  {
    forall t | t in decisions ensures SeenOk(rs', decisions[t]) {
      assert SeenOk(rs, decisions[t]);
      PositionKept(rs, rs', decisions[t].seen.id);
    }
  }

  lemma EvolutionKeepsEvents(rs: seq<Req>, rs': seq<Req>, events: seq<Event>)
    requires EventsOk(rs, events) && Evolves(rs, rs') && UniqueIds(rs')
    ensures EventsOk(rs', events)
  {
    forall i | 0 <= i < |events| ensures EventOk(rs', events[i]) {
      assert EventOk(rs, events[i]);
      if IsDecision(events[i]) { PositionKept(rs, rs', events[i].id); }
    }
  }

  lemma EvolutionKeepsReplies(rs: seq<Req>, rs': seq<Req>, events: seq<Event>, decisions: map<nat, DecisionTask>)
    requires RepliesOk(rs, events, decisions) && Evolves(rs, rs') && UniqueIds(rs')
    ensures RepliesOk(rs', events, decisions)
  {
    forall t | t in decisions ensures ReplyOk(rs', events, decisions[t]) {
      assert ReplyOk(rs, events, decisions[t]);
      if decisions[t].decision.Replying? { PositionKept(rs, rs', decisions[t].decision.event.id); }
    }
  }

  lemma EventKeepsReplies(rs: seq<Req>, events: seq<Event>, decisions: map<nat, DecisionTask>, e: Event)
    requires RepliesOk(rs, events, decisions)
    requires IsDecision(e) ==>
      forall t :: t in decisions && decisions[t].decision.Replying? ==> decisions[t].seen.id != e.id
    ensures RepliesOk(rs, events + [e], decisions)
  {
    forall t | t in decisions ensures ReplyOk(rs, events + [e], decisions[t]) {
      assert ReplyOk(rs, events, decisions[t]);
    }
  }

  /** A task without a reply on its way may come or change, and any task may go. */
  lemma ChangeKeepsReplies(
    rs: seq<Req>, events: seq<Event>, decisions: map<nat, DecisionTask>, task: nat, t: DecisionTask)
    requires RepliesOk(rs, events, decisions)
    requires t.decision.Replying? ==>
      task in decisions && t.decision == decisions[task].decision && t.seen == decisions[task].seen
    ensures RepliesOk(rs, events, decisions[task := t]) && RepliesOk(rs, events, decisions - {task})
  {
    var decisions' := decisions[task := t];
    forall u | u in decisions' ensures ReplyOk(rs, events, decisions'[u]) {
      if u in decisions { assert ReplyOk(rs, events, decisions[u]); }
    }
  }

  /** The same for what the tasks know and own. */
  lemma ChangeKeepsDecisions(
    rs: seq<Req>, ledger: seq<Entry>, decisions: map<nat, DecisionTask>, task: nat, t: DecisionTask)
    requires DecisionsOk(rs, ledger, decisions) && SeenOk(rs, t)
    requires t.decision.Flipping? ==>
      task in decisions && t.decision == decisions[task].decision && t.seen == decisions[task].seen
    ensures DecisionsOk(rs, ledger, decisions[task := t])
  {
    var decisions' := decisions[task := t];
    forall u | u in decisions' ensures SeenOk(rs, decisions'[u]) && OwnsEntry(ledger, decisions'[u]) {
      if u in decisions { assert SeenOk(rs, decisions[u]) && OwnsEntry(ledger, decisions[u]); }
    }
  }

  lemma AppendKeepsWon(rs: seq<Req>, r: Req, ledger: seq<Entry>)
    requires WonOk(rs, ledger) && r.status != Approved
    ensures WonOk(rs + [r], ledger)
  {
    forall k ensures SumBy(ledger, WonCharge(k)) == ApprovedDays(rs + [r], k) {
      SumByAppend(rs, r, ApprovedShare(k));
    }
  }

  /** Settling a request without approving it changes no approved days. */
  lemma SettleKeepsWon(rs: seq<Req>, rs': seq<Req>, i: nat, ledger: seq<Entry>)
    requires WonOk(rs, ledger) && Settles(rs, rs', i) && rs'[i].status != Approved
    ensures WonOk(rs', ledger)
  {
    forall k ensures SumBy(ledger, WonCharge(k)) == ApprovedDays(rs', k) {
      SumByUpdate(rs, i, rs'[i], ApprovedShare(k));
    }
  }

  /** Approving a request adds its days to both sides. */
  lemma ApprovalKeepsWon(rs: seq<Req>, rs': seq<Req>, i: nat, ledger: seq<Entry>, e: nat)
    requires WonOk(rs, ledger) && Settles(rs, rs', i) && rs'[i].status == Approved
    requires e < |ledger| && !ledger[e].won && ledger[e].key == rs[i].Key() && ledger[e].days == rs[i].days
    ensures WonOk(rs', ledger[e := ledger[e].(won := true)])
  {
    var ledger' := ledger[e := ledger[e].(won := true)];
    forall k ensures SumBy(ledger', WonCharge(k)) == ApprovedDays(rs', k) {
      SumByUpdate(rs, i, rs'[i], ApprovedShare(k));
      SumByUpdate(ledger, e, ledger'[e], WonCharge(k));
    }
  }

  lemma WinningKeepsLedger(accounts: Accounts, ledger: seq<Entry>, e: nat)
    requires LedgerOk(accounts, ledger) && e < |ledger|
    ensures LedgerOk(accounts, ledger[e := ledger[e].(won := true)])
  {
    forall k ensures Used(accounts, k) == SumBy(ledger[e := ledger[e].(won := true)], Charge(k)) {
      SumByUpdate(ledger, e, ledger[e].(won := true), Charge(k));
    }
  }

  lemma DeductionKeepsLedger(accounts: Accounts, ledger: seq<Entry>, id: string, key: Key, days: int)
    requires LedgerOk(accounts, ledger) && Balances.Deduct(accounts, key, days).Ok?
    ensures LedgerOk(Balances.Deduct(accounts, key, days).value, ledger + [Entry(id, key, days, false)])
  {
    var accounts' := Balances.Deduct(accounts, key, days).value;
    forall k ensures Used(accounts', k) == SumBy(ledger + [Entry(id, key, days, false)], Charge(k)) {
      SumByAppend(ledger, Entry(id, key, days, false), Charge(k));
    }
  }

  lemma DeductionKeepsWon(rs: seq<Req>, ledger: seq<Entry>, id: string, key: Key, days: int)
    requires WonOk(rs, ledger)
    ensures WonOk(rs, ledger + [Entry(id, key, days, false)])
  {
    forall k ensures SumBy(ledger + [Entry(id, key, days, false)], WonCharge(k)) == ApprovedDays(rs, k) {
      SumByAppend(ledger, Entry(id, key, days, false), WonCharge(k));
    }
  }

  // ------------------------------------------------------------ kept by each step

  lemma StartApplyKeeps(roster: seq<SeedUser>, s: State, task: nat, employee: string, p: Payload, today: int)
    requires Inv(roster, s)
    ensures Inv(roster, Do(roster, s, StartApply(task, employee, p, today)))
  {
  }

  lemma AbortKeeps(roster: seq<SeedUser>, s: State, task: nat)
    requires Inv(roster, s)
    ensures Inv(roster, Do(roster, s, AbortApply(task)))
  {
  }

  /** A new request leaves everything but the requests and the publications as it was. */
  lemma InsertionKeeps(roster: seq<SeedUser>, s: State, r: Req)
    requires Inv(roster, s) && RequestOk(roster, r) && r.status == Pending && Find(s.requests, r.id).None?
    ensures var rs' := s.requests + [r];
      && RequestsOk(roster, rs') && DecisionsOk(rs', s.ledger, s.decisions)
      && WonOk(rs', s.ledger) && EventsOk(rs', s.events + [LeaveApplied(r.id)])
      && RepliesOk(rs', s.events + [LeaveApplied(r.id)], s.decisions)
  {
    var rs' := s.requests + [r];
    AppendKeepsRequests(roster, s.requests, r);
    EvolutionKeepsDecisions(s.requests, rs', s.ledger, s.decisions);
    EvolutionKeepsEvents(s.requests, rs', s.events);
    EvolutionKeepsReplies(s.requests, rs', s.events, s.decisions);
    EventKeepsReplies(rs', s.events, s.decisions, LeaveApplied(r.id));
    AppendKeepsWon(s.requests, r, s.ledger);
  }

  lemma FinishApplyKeeps(roster: seq<SeedUser>, s: State, task: nat, id: string)
    requires Inv(roster, s)
    ensures Inv(roster, Do(roster, s, FinishApply(task, id)))
  {
    var s' := DoFinishApply(s, task, id);
    if s'.requests != s.requests {
      var r := s'.requests[|s.requests|];
      assert ApplyOk(roster, s.applies[task]);
      InsertionKeeps(roster, s, r);
    }
  }

  lemma CancelKeeps(roster: seq<SeedUser>, s: State, id: string, caller: string)
    requires Inv(roster, s)
    ensures Inv(roster, Do(roster, s, CancelLeave(id, caller)))
  {
    var r := Cancel(s.requests, id, caller);
    if r.Ok? {
      var i := Position(s.requests, id);
      CancelSettles(s.requests, id, caller);
      SettleKeepsRequests(roster, s.requests, r.value, i);
      EvolutionKeepsDecisions(s.requests, r.value, s.ledger, s.decisions);
      EvolutionKeepsEvents(s.requests, r.value, s.events);
      EvolutionKeepsReplies(s.requests, r.value, s.events, s.decisions);
      SettleKeepsWon(s.requests, r.value, i, s.ledger);
    }
  }

  lemma LoadKeeps(roster: seq<SeedUser>, s: State, task: nat, id: string, manager: string, decision: Decision)
    requires Inv(roster, s) && !decision.Flipping? && !decision.Replying?
    ensures Inv(roster, DoLoad(s, task, id, manager, decision))
  {
    var seen := LoadPending(s.requests, id, manager);
    if task !in s.decisions && seen.Ok? {
      var t := DecisionTask(seen.value, manager, true, decision);
      ChangeKeepsDecisions(s.requests, s.ledger, s.decisions, task, t);
      ChangeKeepsReplies(s.requests, s.events, s.decisions, task, t);
    }
  }

  lemma LoadApproveKeeps(roster: seq<SeedUser>, s: State, task: nat, id: string, manager: string)
    requires Inv(roster, s)
    ensures Inv(roster, Do(roster, s, LoadApprove(task, id, manager)))
  {
    LoadKeeps(roster, s, task, id, manager, Deducting);
  }

  lemma LoadRejectKeeps(roster: seq<SeedUser>, s: State, task: nat, id: string, manager: string, reason: string)
    requires Inv(roster, s)
    ensures Inv(roster, Do(roster, s, LoadReject(task, id, manager, reason)))
  {
    LoadKeeps(roster, s, task, id, manager, Rejecting(reason));
  }

  /** After a deduction the task owns the new entry, or is gone. */
  lemma DeductionKeepsDecisions(rs: seq<Req>, ledger: seq<Entry>, decisions: map<nat, DecisionTask>, task: nat)
    requires DecisionsOk(rs, ledger, decisions) && task in decisions && decisions[task].decision.Deducting?
    ensures var t := decisions[task];
      var ledger' := ledger + [Entry(t.seen.id, t.seen.Key(), t.seen.days, false)];
      && DecisionsOk(rs, ledger', decisions[task := t.(decision := Flipping(|ledger|))])
      && DecisionsOk(rs, ledger', decisions - {task})
  {
    assert SeenOk(rs, decisions[task]);
  }

  lemma DeductKeeps(roster: seq<SeedUser>, s: State, task: nat, delivered: bool)
    requires Inv(roster, s)
    ensures Inv(roster, Do(roster, s, LeaveSystem.Deduct(task, delivered)))
  {
    if task in s.decisions && s.decisions[task].decision.Deducting? {
      var t := s.decisions[task];
      DropKeeps(roster, s, task);
      if Balances.Deduct(s.accounts, t.seen.Key(), t.seen.days).Ok? {
        DeductionKeepsLedger(s.accounts, s.ledger, t.seen.id, t.seen.Key(), t.seen.days);
        DeductionKeepsWon(s.requests, s.ledger, t.seen.id, t.seen.Key(), t.seen.days);
        DeductionKeepsDecisions(s.requests, s.ledger, s.decisions, task);
        ChangeKeepsReplies(s.requests, s.events, s.decisions, task, t.(decision := Flipping(|s.ledger|)));
      }
    }
  }

  lemma FlipSettles(s: State, t: DecisionTask)
    requires SeenOk(s.requests, t) && t.decision.Updates() && Update(s.requests, t).Ok?
    ensures var rs', i := Update(s.requests, t).value, Position(s.requests, t.seen.id);
      Settles(s.requests, rs', i) && rs'[i].status == DecidedStatus(Announce(t))
  {
    if t.decision.Rejecting? {
      UpdateSettles(s.requests, t.seen.id, t.manager, Rejected, Some(t.decision.reason));
    } else {
      UpdateSettles(s.requests, t.seen.id, t.manager, Approved, None);
    }
  }

  /** Before a request leaves PENDING no decision on it can have been published. */
  lemma NoEarlierDecision(rs: seq<Req>, events: seq<Event>, i: nat)
    requires EventsOk(rs, events) && UniqueIds(rs) && i < |rs| && rs[i].status == Pending
    ensures Unpublished(events, rs[i].id)
  {
    forall j | 0 <= j < |events| && IsDecision(events[j]) ensures events[j].id != rs[i].id {
      assert EventOk(rs, events[j]);
      assert Position(rs, rs[i].id) == i;
    }
  }

  lemma WinningKeepsDecisions(rs: seq<Req>, ledger: seq<Entry>, decisions: map<nat, DecisionTask>, task: nat)
    requires DecisionsOk(rs, ledger, decisions)
    requires task in decisions
    ensures DecisionsOk(rs, MarkWon(ledger, decisions[task].decision), decisions - {task})
    ensures forall e :: DecisionsOk(rs, MarkWon(ledger, decisions[task].decision),
                                    decisions[task := decisions[task].(decision := Replying(e))])
  {
    var ledger', rest := MarkWon(ledger, decisions[task].decision), decisions - {task};
    forall t | t in rest ensures SeenOk(rs, rest[t]) && OwnsEntry(ledger', rest[t]) {
      assert SeenOk(rs, decisions[t]) && OwnsEntry(ledger, decisions[t]);
    }
    forall e ensures DecisionsOk(rs, ledger', decisions[task := decisions[task].(decision := Replying(e))]) {
      var t := decisions[task].(decision := Replying(e));
      assert SeenOk(rs, decisions[task]);
      ChangeKeepsDecisions(rs, ledger', rest, task, t);
      assert rest[task := t] == decisions[task := t];
    }
  }

  /** The reply to an update of a pending request is the first one about it. */
  lemma NewReplyKeepsReplies(rs: seq<Req>, rs': seq<Req>, events: seq<Event>, decisions: map<nat, DecisionTask>,
                             task: nat, t: DecisionTask)
    requires RepliesOk(rs, events, decisions) && RepliesOk(rs', events, decisions)
    requires StillPending(rs, t.seen.id) && t.decision.Replying? && ReplyOk(rs', events, t)
    ensures RepliesOk(rs', events, decisions[task := t])
  {
    forall u | u in decisions && decisions[u].decision.Replying? ensures decisions[u].seen.id != t.seen.id {
      assert ReplyOk(rs, events, decisions[u]);
    }
    forall u | u in decisions ensures ReplyOk(rs', events, decisions[u]) {
    }
  }

  lemma FlipKeepsRequestsAndHistories(roster: seq<SeedUser>, s: State, t: DecisionTask)
    requires Inv(roster, s)
    requires SeenOk(s.requests, t) && OwnsEntry(s.ledger, t)
    requires t.decision.Updates() && Update(s.requests, t).Ok?
    ensures var rs' := Update(s.requests, t).value;
      && RequestsOk(roster, rs') && Evolves(s.requests, rs')
      && WonOk(rs', MarkWon(s.ledger, t.decision))
      && LedgerOk(s.accounts, MarkWon(s.ledger, t.decision))
      && EventsOk(rs', s.events) && RepliesOk(rs', s.events, s.decisions)
      && StillPending(s.requests, t.seen.id) && ReplyOk(rs', s.events, t.(decision := Replying(Announce(t))))
  {
    var rs', i := Update(s.requests, t).value, Position(s.requests, t.seen.id);
    FlipSettles(s, t);
    SettleKeepsRequests(roster, s.requests, rs', i);
    EvolutionKeepsEvents(s.requests, rs', s.events);
    EvolutionKeepsReplies(s.requests, rs', s.events, s.decisions);
    PositionKept(s.requests, rs', t.seen.id);
    NoEarlierDecision(s.requests, s.events, i);
    if t.decision.Flipping? {
      ApprovalKeepsWon(s.requests, rs', i, s.ledger, t.decision.entry);
      WinningKeepsLedger(s.accounts, s.ledger, t.decision.entry);
    } else {
      SettleKeepsWon(s.requests, rs', i, s.ledger);
    }
  }

  /** A status update that takes effect, whether or not its reply is on its way then. */
  lemma UpdateKeeps(roster: seq<SeedUser>, s: State, task: nat)
    requires Inv(roster, s) && task in s.decisions && s.decisions[task].decision.Updates()
    requires Update(s.requests, s.decisions[task]).Ok?
    ensures var t := s.decisions[task];
      var rs', ledger' := Update(s.requests, t).value, MarkWon(s.ledger, t.decision);
      var waiting, gone := s.decisions[task := t.(decision := Replying(Announce(t)))], s.decisions - {task};
      && RequestsOk(roster, rs') && LedgerOk(s.accounts, ledger') && WonOk(rs', ledger') && EventsOk(rs', s.events)
      && DecisionsOk(rs', ledger', waiting) && RepliesOk(rs', s.events, waiting)
      && DecisionsOk(rs', ledger', gone) && RepliesOk(rs', s.events, gone)
  {
    var t, rs' := s.decisions[task], Update(s.requests, s.decisions[task]).value;
    assert SeenOk(s.requests, t) && OwnsEntry(s.ledger, t);
    FlipKeepsRequestsAndHistories(roster, s, t);
    EvolutionKeepsDecisions(s.requests, rs', s.ledger, s.decisions);
    WinningKeepsDecisions(rs', s.ledger, s.decisions, task);
    ChangeKeepsReplies(rs', s.events, s.decisions, task, t);
    NewReplyKeepsReplies(s.requests, rs', s.events, s.decisions, task, t.(decision := Replying(Announce(t))));
  }

  lemma FlipKeeps(roster: seq<SeedUser>, s: State, task: nat, delivered: bool)
    requires Inv(roster, s)
    ensures Inv(roster, Do(roster, s, Flip(task, delivered)))
  {
    if task in s.decisions && s.decisions[task].decision.Updates() {
      if Update(s.requests, s.decisions[task]).Ok? {
        UpdateKeeps(roster, s, task);
      } else {
        DropKeeps(roster, s, task);
      }
    }
  }

  /** The decision published is the stored one, and the first about its request. */
  lemma PublishingKeepsEvents(rs: seq<Req>, events: seq<Event>, t: DecisionTask)
    requires EventsOk(rs, events) && t.decision.Replying? && ReplyOk(rs, events, t)
    ensures EventsOk(rs, events + [t.decision.event])
  {
  }

  lemma HearReplyKeeps(roster: seq<SeedUser>, s: State, task: nat)
    requires Inv(roster, s)
    ensures Inv(roster, Do(roster, s, HearReply(task)))
  {
    DropKeeps(roster, s, task);
    if task in s.decisions && s.decisions[task].decision.Replying? {
      assert ReplyOk(s.requests, s.events, s.decisions[task]);
      PublishingKeepsEvents(s.requests, s.events, s.decisions[task]);
      EventKeepsReplies(s.requests, s.events, s.decisions - {task}, s.decisions[task].decision.event);
    }
  }

  lemma ReadBalanceKeeps(roster: seq<SeedUser>, s: State, task: nat)
    requires Inv(roster, s)
    ensures Inv(roster, Do(roster, s, ReadBalance(task)))
  {
  }

  lemma GiveUpKeeps(roster: seq<SeedUser>, s: State, task: nat)
    requires Inv(roster, s)
    ensures Inv(roster, Do(roster, s, GiveUp(task)))
  {
    if task in s.decisions {
      var t := s.decisions[task].(live := false);
      assert SeenOk(s.requests, s.decisions[task]);
      ChangeKeepsDecisions(s.requests, s.ledger, s.decisions, task, t);
      ChangeKeepsReplies(s.requests, s.events, s.decisions, task, t);
    }
  }

  lemma DropKeeps(roster: seq<SeedUser>, s: State, task: nat)
    requires Inv(roster, s)
    ensures Inv(roster, Do(roster, s, Drop(task)))
  {
  }

  lemma StepKeepsInv(roster: seq<SeedUser>, s: State, step: Step)
    requires Inv(roster, s)
    ensures Inv(roster, Do(roster, s, step))
  {
    match step
    case StartApply(task, employee, p, today) => StartApplyKeeps(roster, s, task, employee, p, today);
    case ReadBalance(task) => ReadBalanceKeeps(roster, s, task);
    case AbortApply(task) => AbortKeeps(roster, s, task);
    case FinishApply(task, id) => FinishApplyKeeps(roster, s, task, id);
    case CancelLeave(id, caller) => CancelKeeps(roster, s, id, caller);
    case LoadApprove(task, id, manager) => LoadApproveKeeps(roster, s, task, id, manager);
    case LoadReject(task, id, manager, reason) => LoadRejectKeeps(roster, s, task, id, manager, reason);
    case Deduct(task, delivered) => DeductKeeps(roster, s, task, delivered);
    case Flip(task, delivered) => FlipKeeps(roster, s, task, delivered);
    case HearReply(task) => HearReplyKeeps(roster, s, task);
    case GiveUp(task) => GiveUpKeeps(roster, s, task);
    case Drop(task) => DropKeeps(roster, s, task);
  }

  /** The invariant holds after every run. */
  lemma {:induction false} InvAlways(roster: seq<SeedUser>, s0: State, steps: seq<Step>)
    requires Init(s0)
    ensures Inv(roster, Exec(roster, s0, steps))
  {
    if steps != [] {
      InvAlways(roster, s0, steps[..|steps| - 1]);
      StepKeepsInv(roster, Exec(roster, s0, steps[..|steps| - 1]), steps[|steps| - 1]);
    }
  }
}

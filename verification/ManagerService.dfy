/** The Manager Service (manager_service/main.py): approving and rejecting as it happens when
    nothing else runs, with each remote call delivered, not sent, or answered in vain. */
module ManagerService {
  import opened Domain
  import opened Sequences
  import opened OrgChart
  import opened RequestLog
  import opened Balances
  import opened LeaveSystem
  import opened Endpoints
  import RequestStore
  import BalanceStore
  import RequestService

  // ------------------------------------------------------------ specification

  function Load(rs: seq<Req>, id: string, manager: string, call: Call): Result<Req> {
    if call != Delivered then Err(UNAVAILABLE) else LoadPending(rs, id, manager)
  }

  /** The status update and what follows it, for a loaded request. */
  function Settle(rs: seq<Req>, a: Accounts, id: string, manager: string, status: LeaveStatus,
                  reason: Option<string>, event: Event, call: Call): Outcome
  {
    if call == NotSent then Outcome(rs, a, Err(UNAVAILABLE), [])
    else
      match UpdateStatus(rs, id, manager, status, reason)
      case Err(e) => Outcome(rs, a, if call == ReplyLost then Err(UNAVAILABLE) else Err(e), [])
      case Ok(rs') =>
        if call == ReplyLost then Outcome(rs', a, Err(UNAVAILABLE), [])
        else Outcome(rs', a, Ok(rs'[Position(rs, id)]), [event])
  }

  /** Deducting the days of a loaded request, then flipping its status. */
  function DeductAndFlip(rs: seq<Req>, a: Accounts, r: Req, manager: string, deduct: Call, flip: Call): Outcome {
    if deduct == NotSent then Outcome(rs, a, Err(UNAVAILABLE), [])
    else
      match Balances.Deduct(a, r.Key(), r.days)
      case Err(e) => Outcome(rs, a, if deduct == ReplyLost then Err(UNAVAILABLE) else Err(e), [])
      case Ok(a') =>
        if deduct == ReplyLost then Outcome(rs, a', Err(UNAVAILABLE), [])
        else Settle(rs, a', r.id, manager, Approved, None, LeaveApproved(r.id), flip)
  }

  function Approve(
    rs: seq<Req>, a: Accounts, id: string, manager: string, load: Call, deduct: Call, flip: Call): Outcome
  {
    var seen := Load(rs, id, manager, load);
    if seen.Err? then Outcome(rs, a, seen, []) else DeductAndFlip(rs, a, seen.value, manager, deduct, flip)
  }

  function Reject(
    rs: seq<Req>, a: Accounts, id: string, manager: string, reason: string, load: Call, flip: Call): Outcome
  {
    var seen := Load(rs, id, manager, load);
    if seen.Err? then Outcome(rs, a, seen, [])
    else Settle(rs, a, id, manager, Rejected, Some(reason), LeaveRejected(id), flip)
  }

  /** What loading answers: the manager's own pending request, or which of its refusals. */
  lemma LoadOutcome(rs: seq<Req>, id: string, manager: string, call: Call)
    ensures var r, found := Load(rs, id, manager, call), Find(rs, id);
      && (r.Ok? <==>
            call == Delivered && found.Some? && found.value.manager == manager && found.value.status == Pending)
      && (r.Ok? ==> r == Ok(found.value))
      && (r == Err(503) <==> call != Delivered)
      && (r == Err(404) <==> call == Delivered && found.None?)
      && (r == Err(403) <==> call == Delivered && found.Some? && found.value.manager != manager)
      && (r == Err(409) <==>
            call == Delivered && found.Some? && found.value.manager == manager && found.value.status != Pending)
  {
  }

  // ------------------------------------------------------------ the endpoints

  function ById(id: string): Query {
    Query(None, None, Some(id), None, None, None)
  }

  lemma ListedById(rs: seq<Req>, id: string)
    ensures Listed(rs, ById(id)) == if Find(rs, id).Some? then [Find(rs, id).value] else []
  {
    NarrowIsFilter(Candidates(rs, ById(id)), ById(id));
    FilterKeepsAll(Candidates(rs, ById(id)), Rest(ById(id)));
  }

  /** `_load_team_request` and the PENDING check after it. */
  method LoadTeamRequest(requests: RequestStore.Store, id: string, manager: string, call: Call)
    returns (r: Result<Req>)
    requires requests.Valid()
    ensures r == Load(requests.View(), id, manager, call)
    ensures var found := Find(requests.View(), id);
      r == if call != Delivered then Err(503)
           else if found.None? then Err(404)
           else if found.value.manager != manager then Err(403)
           else if found.value.status != Pending then Err(409)
           else Ok(found.value)
  {
    LoadOutcome(requests.View(), id, manager, call);
    if call != Delivered {
      return Err(UNAVAILABLE);
    }
    var items := RequestService.ListRequests(requests, ById(id));
    ListedById(requests.View(), id);
    if items == [] {
      return Err(NOT_FOUND);
    }
    if items[0].manager != manager {
      return Err(FORBIDDEN);
    }
    if items[0].status != Pending {
      return Err(CONFLICT);
    }
    return Ok(items[0]);
  }

  lemma UpdatedPosition(rs: seq<Req>, id: string, manager: string, status: LeaveStatus, reason: Option<string>)
    requires UniqueIds(rs)
    ensures var r := UpdateStatus(rs, id, manager, status, reason);
      r.Ok? ==> Find(r.value, id) == Some(r.value[Position(rs, id)])
  {
    var r := UpdateStatus(rs, id, manager, status, reason);
    if r.Ok? { SameIdsSamePosition(rs, r.value, id); }
  }

  lemma SameIdsSamePosition(rs: seq<Req>, rs': seq<Req>, id: string)
    requires UniqueIds(rs) && |rs'| == |rs| && forall j :: 0 <= j < |rs| ==> rs'[j].id == rs[j].id
    ensures Position(rs', id) == Position(rs, id)
  {
  }

  /** The call to the Request Service changes nothing in the Balance Service. */
  method SetRequestStatus(requests: RequestStore.Store, balances: BalanceStore.Store, id: string, manager: string,
                          status: LeaveStatus, reason: Option<string>) returns (reply: Result<Req>)
    requires requests.Valid() && balances.Valid()
    modifies requests.insertionOrder
    ensures requests.Valid()
    ensures balances.Valid() && balances.accounts == old(balances.accounts)
    ensures Answers(
      UpdateStatus(old(requests.View()), id, manager, status, reason), old(requests.View()), requests.View(), id, reply)
  {
    reply := RequestService.UpdateRequestStatus(requests, id, manager, status, reason);
  }

  /** The status update and the publication: the end of both endpoints. */
  method SettleRequest(requests: RequestStore.Store, balances: BalanceStore.Store, id: string, manager: string,
                       status: LeaveStatus, reason: Option<string>, event: Event, call: Call)
    returns (reply: Result<Req>, published: seq<Event>)
    requires requests.Valid() && balances.Valid()
    modifies requests.insertionOrder
    ensures requests.Valid() && balances.Valid()
    ensures Outcome(requests.View(), balances.accounts, reply, published)
         == Settle(old(requests.View()), old(balances.accounts), id, manager, status, reason, event, call)
  {
    published := [];
    if call == NotSent {
      return Err(UNAVAILABLE), [];
    }
    requests.ViewHasUniqueIds();
    UpdatedPosition(requests.View(), id, manager, status, reason);
    reply := SetRequestStatus(requests, balances, id, manager, status, reason);
    if call == ReplyLost {
      return Err(UNAVAILABLE), [];
    }
    if reply.Ok? {
      published := [event];
    }
  }

  /** The call to the Balance Service changes nothing in the Request Service. */
  method DeductBalance(requests: RequestStore.Store, balances: BalanceStore.Store, r: Req) returns (d: Result<Account>)
    requires requests.Valid() && balances.Valid()
    modifies balances`accounts, balances.insertionOrder
    ensures requests.Valid() && requests.View() == old(requests.View())
    ensures balances.Valid()
    ensures match Balances.Deduct(old(balances.accounts), r.Key(), r.days)
      case Ok(a) => balances.accounts == a && d.Ok?
      case Err(status) => balances.accounts == old(balances.accounts) && d == Err(status)
  {
    d := balances.ApplyDeduction(r.employee, r.leaveType, r.days);
  }

  /** Deduct first, then flip the status, then publish; nothing is undone on a failure. */
  method ChargeAndApprove(requests: RequestStore.Store, balances: BalanceStore.Store, r: Req, manager: string,
                          deduct: Call, flip: Call)
    returns (reply: Result<Req>, published: seq<Event>)
    requires requests.Valid() && balances.Valid()
    modifies requests.insertionOrder, balances`accounts, balances.insertionOrder
    ensures requests.Valid() && balances.Valid()
    ensures Outcome(requests.View(), balances.accounts, reply, published)
         == DeductAndFlip(old(requests.View()), old(balances.accounts), r, manager, deduct, flip)
  {
    if deduct == NotSent {
      return Err(UNAVAILABLE), [];
    }
    var d := DeductBalance(requests, balances, r);
    if deduct == ReplyLost {
      return Err(UNAVAILABLE), [];
    }
    if d.Err? {
      return Err(d.status), [];
    }
    reply, published := SettleRequest(requests, balances, r.id, manager, Approved, None, LeaveApproved(r.id), flip);
  }

  method ApproveRequest(requests: RequestStore.Store, balances: BalanceStore.Store, id: string, manager: string,
                        load: Call, deduct: Call, flip: Call)
    returns (reply: Result<Req>, published: seq<Event>)
    requires requests.Valid() && balances.Valid()
    modifies requests.insertionOrder, balances`accounts, balances.insertionOrder
    ensures requests.Valid() && balances.Valid()
    ensures Outcome(requests.View(), balances.accounts, reply, published)
         == Approve(old(requests.View()), old(balances.accounts), id, manager, load, deduct, flip)
  {
    var seen := LoadTeamRequest(requests, id, manager, load);
    if seen.Err? {
      return seen, [];
    }
    reply, published := ChargeAndApprove(requests, balances, seen.value, manager, deduct, flip);
  }

  method RejectRequest(requests: RequestStore.Store, balances: BalanceStore.Store, id: string, manager: string,
                       reason: string, load: Call, flip: Call)
    returns (reply: Result<Req>, published: seq<Event>)
    requires requests.Valid() && balances.Valid()
    modifies requests.insertionOrder
    ensures requests.Valid() && balances.Valid()
    ensures Outcome(requests.View(), balances.accounts, reply, published)
         == Reject(old(requests.View()), old(balances.accounts), id, manager, reason, load, flip)
  {
    var seen := LoadTeamRequest(requests, id, manager, load);
    if seen.Err? {
      return seen, [];
    }
    reply, published :=
      SettleRequest(requests, balances, id, manager, Rejected, Some(reason), LeaveRejected(id), flip);
  }

  // ------------------------------------------------------------ properties

  /** The manager may approve the request now, and the balance covers it. */
  predicate CanApprove(rs: seq<Req>, a: Accounts, id: string, manager: string) {
    var found := Find(rs, id);
    && found.Some? && found.value.manager == manager && found.value.status == Pending
    && var k := found.value.Key();
       k in a && 0 < found.value.days && a[k].used + found.value.days <= a[k].total
  }

  /** Exactly the request at index i became APPROVED, exactly its days were deducted. */
  predicate FullyApproved(o: Outcome, rs: seq<Req>, a: Accounts, i: nat)
    requires i < |rs|
  {
    && rs[i].Key() in a
    && o.requests == rs[i := rs[i].(status := Approved, rejection := None)]
    && o.accounts == Charged(a, rs[i])
  }

  /** A loaded request fails to be approvable only for lack of balance. */
  lemma RefusedApproval(rs: seq<Req>, a: Accounts, id: string, manager: string, load: Call, deduct: Call, flip: Call)
    requires load != Delivered || !CanApprove(rs, a, id, manager)
    ensures var o := Approve(rs, a, id, manager, load, deduct, flip); Untouched(o, rs, a) && o.reply.Err?
  {
  }

  lemma PossibleApproval(rs: seq<Req>, a: Accounts, id: string, manager: string, deduct: Call, flip: Call)
    requires CanApprove(rs, a, id, manager)
    ensures var o, i := Approve(rs, a, id, manager, Delivered, deduct, flip), Position(rs, id);
      var paid := deduct != NotSent;
      var flipped := deduct == Delivered && flip != NotSent;
      && o.accounts == (if paid then Charged(a, rs[i]) else a)
      && o.requests == (if flipped then rs[i := rs[i].(status := Approved, rejection := None)] else rs)
      && o.published == (if flipped && flip == Delivered then [LeaveApproved(id)] else [])
      && o.reply == (if flipped && flip == Delivered then Ok(o.requests[i]) else Err(UNAVAILABLE))
  {
    var i := Position(rs, id);
    assert LoadPending(rs, id, manager) == Ok(rs[i]);
    assert Balances.Deduct(a, rs[i].Key(), rs[i].days) == Ok(Charged(a, rs[i]));
    assert UpdateStatus(rs, id, manager, Approved, None) == Ok(rs[i := rs[i].(status := Approved, rejection := None)]);
  }

  /** The answer to the manager, for every fate of the calls: which refusal means what. */
  lemma ApproveReply(
    rs: seq<Req>, a: Accounts, id: string, manager: string, load: Call, deduct: Call, flip: Call)
    ensures var reply, found := Approve(rs, a, id, manager, load, deduct, flip).reply, Find(rs, id);
      if load != Delivered then reply == Err(503)
      else if found.None? then reply == Err(404)
      else
        var r := found.value;
        if r.manager != manager then reply == Err(403)
        else if r.status != Pending then reply == Err(409)
        else if deduct != Delivered then reply == Err(503)
        else if r.Key() !in a then reply == Err(404)
        else if r.days <= 0 || a[r.Key()].used + r.days > a[r.Key()].total then reply == Err(409)
        else if flip != Delivered then reply == Err(503)
        else reply == Ok(r.(status := Approved, rejection := None))
  {
    LoadOutcome(rs, id, manager, load);
    if CanApprove(rs, a, id, manager) && load == Delivered {
      PossibleApproval(rs, a, id, manager, deduct, flip);
    } else if load == Delivered && Find(rs, id).Some? {
      DeductOutcome(a, Find(rs, id).value.Key(), Find(rs, id).value.days);
    }
  }

  lemma RejectReply(rs: seq<Req>, a: Accounts, id: string, manager: string, reason: string, load: Call, flip: Call)
    ensures var reply, found := Reject(rs, a, id, manager, reason, load, flip).reply, Find(rs, id);
      if load != Delivered then reply == Err(503)
      else if found.None? then reply == Err(404)
      else if found.value.manager != manager then reply == Err(403)
      else if found.value.status != Pending then reply == Err(409)
      else if flip != Delivered then reply == Err(503)
      else if IsBlank(reason) then reply == Err(400)
      else reply == Ok(found.value.(status := Rejected, rejection := Some(reason)))
  {
    LoadOutcome(rs, id, manager, load);
    UpdateOutcome(rs, id, manager, Rejected, Some(reason));
  }

  /** Alone and with every call delivered, an approval is all or nothing: it succeeds exactly
      when the request can be approved, and otherwise changes neither service. */
  lemma ApproveIsAllOrNothing(rs: seq<Req>, a: Accounts, id: string, manager: string)
    ensures var o, i := Approve(rs, a, id, manager, Delivered, Delivered, Delivered), Position(rs, id);
      && (o.reply.Ok? <==> CanApprove(rs, a, id, manager))
      && (o.reply.Ok? ==> i >= 0 && FullyApproved(o, rs, a, i) && o.reply.value == o.requests[i]
                          && o.published == [LeaveApproved(id)])
      && (o.reply.Err? ==> Untouched(o, rs, a))
  {
    if CanApprove(rs, a, id, manager) {
      PossibleApproval(rs, a, id, manager, Delivered, Delivered);
    } else {
      RefusedApproval(rs, a, id, manager, Delivered, Delivered, Delivered);
    }
  }

  /** With calls failing, the approval is still all or nothing unless the request could be
      approved and was loaded, the deduction took effect, and then either its reply was lost
      or the status update was never sent: exactly then days are deducted for nothing. */
  lemma ApproveAtomicIff(rs: seq<Req>, a: Accounts, id: string, manager: string, load: Call, deduct: Call, flip: Call)
    ensures var o, i := Approve(rs, a, id, manager, load, deduct, flip), Position(rs, id);
      Untouched(o, rs, a) || (i >= 0 && FullyApproved(o, rs, a, i)) <==>
      !(CanApprove(rs, a, id, manager) && load == Delivered
        && (deduct == ReplyLost || (deduct == Delivered && flip == NotSent)))
  {
    var i := Position(rs, id);
    if CanApprove(rs, a, id, manager) && load == Delivered {
      PossibleApproval(rs, a, id, manager, deduct, flip);
      assert Charged(a, rs[i])[rs[i].Key()].used != a[rs[i].Key()].used;
      assert rs[i := rs[i].(status := Approved, rejection := None)][i].status != rs[i].status;
    } else {
      RefusedApproval(rs, a, id, manager, load, deduct, flip);
    }
  }

  /** A rejection never touches a balance. It marks a request exactly when the request was
      loaded and its update sent, it is the manager's own and pending, and the reason is not
      blank; it is published, and the manager learns of it, exactly if the reply arrives too. */
  lemma RejectOnlyMarks(
    rs: seq<Req>, a: Accounts, id: string, manager: string, reason: string, load: Call, flip: Call)
    ensures var o, found, i := Reject(rs, a, id, manager, reason, load, flip), Find(rs, id), Position(rs, id);
      var marked := load == Delivered && flip != NotSent && !IsBlank(reason)
        && found.Some? && found.value.manager == manager && found.value.status == Pending;
      && o.accounts == a
      && o.requests == (if marked then rs[i := rs[i].(status := Rejected, rejection := Some(reason))] else rs)
      && o.published == (if marked && flip == Delivered then [LeaveRejected(id)] else [])
      && (o.reply.Ok? <==> marked && flip == Delivered)
      && (o.reply.Ok? ==> o.reply.value == o.requests[i])
  {
  }

  // ------------------------------------------------------------ as a run of the system

  /** What the calls of an approval are as steps of the running system. */
  function DeductStep(task: nat, call: Call): Step {
    if call == NotSent then Drop(task) else LeaveSystem.Deduct(task, call == Delivered)
  }

  function FlipStep(task: nat, call: Call): Step {
    if call == NotSent then Drop(task) else Flip(task, call == Delivered)
  }

  /** The status update, and the arrival of its reply if there is one. */
  function FlipSteps(task: nat, call: Call): seq<Step> {
    [FlipStep(task, call), HearReply(task)]
  }

  function ApproveSteps(task: nat, id: string, manager: string, load: Call, deduct: Call, flip: Call): seq<Step> {
    if load != Delivered then []
    else [LoadApprove(task, id, manager), DeductStep(task, deduct)] + FlipSteps(task, flip)
  }

  function WithTask(s: State, task: nat, t: DecisionTask): State {
    s.(decisions := s.decisions[task := t])
  }

  lemma CallEndsTask(roster: seq<SeedUser>, s: State, task: nat, t: DecisionTask, call: Call)
    requires task !in s.decisions && t.live && t.decision.Updates()
    requires call == Delivered ==> Update(s.requests, t).Err?
    ensures Do(roster, Do(roster, WithTask(s, task, t), FlipStep(task, call)), HearReply(task))
         == if call == NotSent || Update(s.requests, t).Err? then s
            else s.(requests := Update(s.requests, t).value, ledger := MarkWon(s.ledger, t.decision))
  {
    assert WithTask(s, task, t).decisions - {task} == s.decisions;
  }

  lemma ReplyEndsTask(roster: seq<SeedUser>, s: State, task: nat, t: DecisionTask)
    requires task !in s.decisions && t.live && t.decision.Updates() && Update(s.requests, t).Ok?
    ensures Do(roster, Do(roster, WithTask(s, task, t), Flip(task, true)), HearReply(task))
         == s.(requests := Update(s.requests, t).value, ledger := MarkWon(s.ledger, t.decision),
               events := s.events + [Announce(t)])
  {
    var replying := WithTask(s, task, t).decisions[task := t.(decision := Replying(Announce(t)))];
    assert Do(roster, WithTask(s, task, t), Flip(task, true)).decisions == replying;
    assert replying - {task} == s.decisions;
  }

  /** The task is over after the reply, whatever becomes of its call. */
  lemma TaskEnds(roster: seq<SeedUser>, s: State, task: nat, t: DecisionTask, call: Call)
    requires task !in s.decisions && t.live && t.decision.Updates()
    ensures var s', update := Exec(roster, WithTask(s, task, t), FlipSteps(task, call)), Update(s.requests, t);
      && s'.decisions == s.decisions && s'.accounts == s.accounts && s'.applies == s.applies
      && s'.requests == (if call != NotSent && update.Ok? then update.value else s.requests)
      && s'.events == (if call == Delivered && update.Ok? then s.events + [Announce(t)] else s.events)
  {
    ExecTwo(roster, WithTask(s, task, t), FlipStep(task, call), HearReply(task));
    if call == Delivered && Update(s.requests, t).Ok? {
      ReplyEndsTask(roster, s, task, t);
    } else {
      CallEndsTask(roster, s, task, t, call);
    }
  }

  lemma ApprovalSettles(roster: seq<SeedUser>, s: State, task: nat, r: Req, manager: string, e: nat, call: Call)
    requires task !in s.decisions
    ensures var t := DecisionTask(r, manager, true, Flipping(e));
      Shows(s, Exec(roster, WithTask(s, task, t), FlipSteps(task, call)),
            Settle(s.requests, s.accounts, r.id, manager, Approved, None, LeaveApproved(r.id), call))
  {
    var t := DecisionTask(r, manager, true, Flipping(e));
    TaskEnds(roster, s, task, t, call);
  }

  lemma RejectionSettles(roster: seq<SeedUser>, s: State, task: nat, r: Req, manager: string, reason: string,
                         call: Call)
    requires task !in s.decisions
    ensures var t := DecisionTask(r, manager, true, Rejecting(reason));
      Shows(s, Exec(roster, WithTask(s, task, t), FlipSteps(task, call)),
            Settle(s.requests, s.accounts, r.id, manager, Rejected, Some(reason), LeaveRejected(r.id), call))
  {
    var t := DecisionTask(r, manager, true, Rejecting(reason));
    TaskEnds(roster, s, task, t, call);
  }

  lemma FlipWithoutTask(roster: seq<SeedUser>, s: State, task: nat, call: Call)
    requires task !in s.decisions
    ensures Exec(roster, s, FlipSteps(task, call)) == s
  {
    ExecTwo(roster, s, FlipStep(task, call), HearReply(task));
    assert s.decisions - {task} == s.decisions;
  }

  /** The system after a deduction for r. */
  function Paying(s: State, r: Req): State
    requires r.Key() in s.accounts
  {
    s.(accounts := Charged(s.accounts, r), ledger := s.ledger + [Entry(r.id, r.Key(), r.days, false)])
  }

  lemma PaidThenFlipping(roster: seq<SeedUser>, s: State, task: nat, r: Req, manager: string)
    requires Balances.Deduct(s.accounts, r.Key(), r.days).Ok?
    ensures Do(roster, WithTask(s, task, DecisionTask(r, manager, true, Deducting)), DeductStep(task, Delivered))
         == WithTask(Paying(s, r), task, DecisionTask(r, manager, true, Flipping(|s.ledger|)))
  {
    assert Balances.Deduct(s.accounts, r.Key(), r.days).value == Charged(s.accounts, r);
  }

  /** The deduction and the flip of a loaded approval. */
  lemma DeductThenFlip(roster: seq<SeedUser>, s: State, task: nat, r: Req, manager: string, deduct: Call, flip: Call)
    requires task !in s.decisions && LoadPending(s.requests, r.id, manager) == Ok(r)
    ensures var s1 := WithTask(s, task, DecisionTask(r, manager, true, Deducting));
      Shows(s, Exec(roster, Do(roster, s1, DeductStep(task, deduct)), FlipSteps(task, flip)),
            Approve(s.requests, s.accounts, r.id, manager, Delivered, deduct, flip))
  {
    var s1 := WithTask(s, task, DecisionTask(r, manager, true, Deducting));
    var s2 := Do(roster, s1, DeductStep(task, deduct));
    assert s1.decisions - {task} == s.decisions;
    if deduct == Delivered && Balances.Deduct(s.accounts, r.Key(), r.days).Ok? {
      var paid := Paying(s, r);
      PaidThenFlipping(roster, s, task, r, manager);
      ApprovalSettles(roster, paid, task, r, manager, |s.ledger|, flip);
    } else {
      FlipWithoutTask(roster, s2, task, flip);
    }
  }

  lemma RefusedLoadRunsNothing(roster: seq<SeedUser>, s: State, task: nat, id: string, manager: string,
                               deduct: Call, flip: Call)
    requires task !in s.decisions && LoadPending(s.requests, id, manager).Err?
    ensures Exec(roster, Do(roster, Do(roster, s, LoadApprove(task, id, manager)), DeductStep(task, deduct)),
                 FlipSteps(task, flip)) == s
  {
    assert s.decisions - {task} == s.decisions;
    FlipWithoutTask(roster, s, task, flip);
  }

  /** The endpoint, run alone, is one of the interleavings of the running system: same
      stores, same publications, and the task is over. */
  lemma ApproveIsARun(roster: seq<SeedUser>, s: State, task: nat, id: string, manager: string,
                      load: Call, deduct: Call, flip: Call)
    requires task !in s.decisions
    ensures Shows(s, Exec(roster, s, ApproveSteps(task, id, manager, load, deduct, flip)),
                  Approve(s.requests, s.accounts, id, manager, load, deduct, flip))
  {
    if load == Delivered {
      var first := LoadApprove(task, id, manager);
      ExecTwo(roster, s, first, DeductStep(task, deduct));
      ExecConcat(roster, s, [first, DeductStep(task, deduct)], FlipSteps(task, flip));
      var seen := LoadPending(s.requests, id, manager);
      if seen.Ok? {
        DeductThenFlip(roster, s, task, seen.value, manager, deduct, flip);
      } else {
        RefusedLoadRunsNothing(roster, s, task, id, manager, deduct, flip);
      }
    }
  }

  function RejectSteps(task: nat, id: string, manager: string, reason: string, load: Call, flip: Call): seq<Step> {
    if load != Delivered then [] else [LoadReject(task, id, manager, reason)] + FlipSteps(task, flip)
  }

  /** The same for rejecting. */
  lemma RejectIsARun(roster: seq<SeedUser>, s: State, task: nat, id: string, manager: string, reason: string,
                     load: Call, flip: Call)
    requires task !in s.decisions
    ensures Shows(s, Exec(roster, s, RejectSteps(task, id, manager, reason, load, flip)),
                  Reject(s.requests, s.accounts, id, manager, reason, load, flip))
  {
    if load == Delivered {
      var first := LoadReject(task, id, manager, reason);
      ExecOne(roster, s, first);
      ExecConcat(roster, s, [first], FlipSteps(task, flip));
      var seen := LoadPending(s.requests, id, manager);
      if seen.Ok? {
        RejectionSettles(roster, s, task, seen.value, manager, reason, flip);
      } else {
        FlipWithoutTask(roster, s, task, flip);
      }
    }
  }
}

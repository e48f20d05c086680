/** Applying for leave (leave_request_service/main.py, `apply_leave`) as it happens when
    nothing else runs. */
module Applying {
  import opened Domain
  import opened OrgChart
  import opened RequestLog
  import opened Balances
  import opened LeaveSystem
  import opened Endpoints
  import RequestStore
  import BalanceStore
  import RequestService

  /** The checks, the read of the balance, and the insertion. `id` is the new UUID. */
  function Apply(rs: seq<Req>, a: Accounts, roster: seq<SeedUser>, employee: string, p: Payload, today: int,
                 id: string, read: Call): Outcome
  {
    var check := ApplyCheck(rs, roster, employee, p, today);
    if check.Err? then Outcome(rs, a, Err(check.status), [])
    else if read != Delivered then Outcome(rs, a, Err(UNAVAILABLE), [])
    else
      var r := ApplyResume(id, employee, p, check.value, Remaining(a, (employee, p.leaveType)));
      if r.Err? then Outcome(rs, a, r, []) else Outcome(rs + [r.value], a, r, [LeaveApplied(id)])
  }

  /** The insertion changes nothing in the Balance Service. */
  method StoreApplication(requests: RequestStore.Store, balances: BalanceStore.Store, id: string, employee: string,
                          p: Payload, manager: string, remaining: int) returns (reply: Result<Req>)
    requires requests.Valid() && balances.Valid()
    requires id !in requests.requestsStore
    modifies requests
    ensures requests.Valid() && balances.Valid() && balances.accounts == old(balances.accounts)
    ensures reply == ApplyResume(id, employee, p, manager, remaining)
    ensures requests.View() == old(requests.View()) + (if reply.Ok? then [reply.value] else [])
  {
    reply := RequestService.FinishApply(requests, id, employee, p, manager, remaining);
  }

  method ApplyLeave(requests: RequestStore.Store, balances: BalanceStore.Store, roster: seq<SeedUser>,
                    employee: string, p: Payload, today: int, id: string, read: Call)
    returns (reply: Result<Req>, published: seq<Event>)
    requires requests.Valid() && balances.Valid()
    requires id !in requests.requestsStore
    modifies requests
    ensures requests.Valid() && balances.Valid()
    ensures Outcome(requests.View(), balances.accounts, reply, published)
         == Apply(old(requests.View()), old(balances.accounts), roster, employee, p, today, id, read)
  {
    var manager := RequestService.BeginApply(requests, roster, employee, p, today);
    if manager.Err? {
      return Err(manager.status), [];
    }
    if read != Delivered {
      return Err(UNAVAILABLE), [];
    }
    var remaining := BalanceStore.FetchRemaining(balances, employee, p.leaveType);
    reply := StoreApplication(requests, balances, id, employee, p, manager.value, remaining);
    published := if reply.Ok? then [LeaveApplied(id)] else [];
  }

  /** The answer to the employee: 400 for the payload, 409 for an overlap or a balance that is
      short, 503 when the balance cannot be read. */
  lemma ApplyReply(rs: seq<Req>, a: Accounts, roster: seq<SeedUser>, employee: string, p: Payload, today: int,
                   id: string, read: Call)
    requires forall r :: r in rs ==> r.start <= r.end
    ensures var reply := Apply(rs, a, roster, employee, p, today, id, read).reply;
      var manager, k := GetManagerId(roster, employee), (employee, p.leaveType);
      if !(p.start <= p.end && today <= p.start && p.days == |DaysOf(p.start, p.end)|) then reply == Err(400)
      else if manager.None? || (p.provided.Some? && p.provided != manager) then reply == Err(400)
      else if !DaysFree(rs, employee, p.start, p.end) then reply == Err(409)
      else if read != Delivered then reply == Err(503)
      else if p.days > (if k in a then a[k].total - a[k].used else 0) then reply == Err(409)
      else reply == Ok(Req(id, employee, p.leaveType, p.start, p.end, p.days, p.reason, manager.value, Pending, None))
  {
    if p.start <= p.end {
      CheckOverlapIffDaysFree(rs, employee, p.start, p.end);
    }
  }

  /** Alone, an application succeeds exactly when its dates are valid, the manager named, if
      any, is the employee's own, its days are free, and the balance could be read and covers
      them. Then one request is added, pending and routed to that manager; otherwise nothing
      changes. */
  lemma ApplySucceedsIff(rs: seq<Req>, a: Accounts, roster: seq<SeedUser>, employee: string, p: Payload, today: int,
                         id: string, read: Call)
    requires forall r :: r in rs ==> r.start <= r.end
    ensures var o, manager := Apply(rs, a, roster, employee, p, today, id, read), GetManagerId(roster, employee);
      && (o.reply.Ok? <==>
            && p.start <= p.end && today <= p.start && p.days == |DaysOf(p.start, p.end)|
            && manager.Some? && (p.provided.Some? ==> p.provided == manager)
            && DaysFree(rs, employee, p.start, p.end)
            && read == Delivered
            && var k := (employee, p.leaveType); p.days <= if k in a then a[k].total - a[k].used else 0)
      && (o.reply.Ok? ==>
            && o.reply.value == Req(id, employee, p.leaveType, p.start, p.end, p.days, p.reason, manager.value,
                                    Pending, None)
            && o.requests == rs + [o.reply.value] && o.accounts == a && o.published == [LeaveApplied(id)])
      && (o.reply.Err? ==> Untouched(o, rs, a))
  {
    ApplyReply(rs, a, roster, employee, p, today, id, read);
  }

  /** What the endpoint does as steps of the running system. */
  function ApplySteps(task: nat, employee: string, p: Payload, today: int, id: string, read: Call): seq<Step> {
    [StartApply(task, employee, p, today)]
    + (if read == Delivered then [ReadBalance(task), FinishApply(task, id)] else [AbortApply(task)])
  }

  function WithApply(s: State, task: nat, t: ApplyTask): State {
    s.(applies := s.applies[task := t])
  }

  /** The steps after the checks, for an application that passed them. */
  lemma ReadThenFinish(roster: seq<SeedUser>, s: State, task: nat, t: ApplyTask, id: string)
    requires task !in s.applies && Find(s.requests, id).None?
    ensures var s' := Do(roster, Do(roster, WithApply(s, task, t), ReadBalance(task)), FinishApply(task, id));
      var r := ApplyResume(id, t.employee, t.payload, t.manager,
                           Remaining(s.accounts, (t.employee, t.payload.leaveType)));
      s' == if r.Err? then s
            else s.(requests := s.requests + [r.value], events := s.events + [LeaveApplied(id)])
  {
    var s1 := Do(roster, WithApply(s, task, t), ReadBalance(task));
    assert s1.applies - {task} == s.applies;
  }

  lemma RefusedReadsNothing(roster: seq<SeedUser>, s: State, task: nat, id: string)
    requires task !in s.applies
    ensures Do(roster, Do(roster, s, ReadBalance(task)), FinishApply(task, id)) == s
  {
  }

  lemma AbortForgets(roster: seq<SeedUser>, s: State, task: nat, t: ApplyTask)
    requires task !in s.applies
    ensures Do(roster, s, AbortApply(task)) == s == Do(roster, WithApply(s, task, t), AbortApply(task))
  {
    assert s.applies - {task} == s.applies == WithApply(s, task, t).applies - {task};
  }

  /** The endpoint, run alone, is one of the runs of the system; it deducts nothing. */
  lemma ApplyIsARun(roster: seq<SeedUser>, s: State, task: nat, employee: string, p: Payload, today: int,
                    id: string, read: Call)
    requires task !in s.applies && Find(s.requests, id).None?
    ensures var s' := Exec(roster, s, ApplySteps(task, employee, p, today, id, read));
      Shows(s, s', Apply(s.requests, s.accounts, roster, employee, p, today, id, read)) && s'.ledger == s.ledger
  {
    var first, check := StartApply(task, employee, p, today), ApplyCheck(s.requests, roster, employee, p, today);
    var s1, t := Do(roster, s, first), ApplyTask(employee, p, if check.Ok? then check.value else "", None);
    assert s1 == if check.Ok? then WithApply(s, task, t) else s;
    ExecOne(roster, s, first);
    if read == Delivered {
      ExecTwo(roster, s1, ReadBalance(task), FinishApply(task, id));
      ExecConcat(roster, s, [first], [ReadBalance(task), FinishApply(task, id)]);
      ReadThenFinish(roster, s, task, t, id);
      RefusedReadsNothing(roster, s, task, id);
    } else {
      ExecOne(roster, s1, AbortApply(task));
      ExecConcat(roster, s, [first], [AbortApply(task)]);
      AbortForgets(roster, s, task, t);
    }
  }
}

/** What an endpoint that calls other services does when it runs alone. */
module Endpoints {
  import opened Domain
  import opened Balances
  import opened LeaveSystem

  /** What becomes of one remote call. `NotSent` includes an open circuit breaker. */
  datatype Call = Delivered | NotSent | ReplyLost

  /** Both stores afterwards, the reply to the caller, and what was published. */
  datatype Outcome = Outcome(requests: seq<Req>, accounts: Accounts, reply: Result<Req>, published: seq<Event>)

  /** Nothing at all happened. */
  predicate Untouched(o: Outcome, rs: seq<Req>, a: Accounts) {
    o.requests == rs && o.accounts == a && o.published == []
  }

  /** From s to s' the stores and publications became the outcome's, and no task is left over. */
  ghost predicate Shows(s: State, s': State, o: Outcome) {
    && s'.requests == o.requests && s'.accounts == o.accounts && s'.events == s.events + o.published
    && s'.decisions == s.decisions && s'.applies == s.applies
  }
}

# Leave management: a model and its proofs

The leave management system spreads one business action over three services that share no
database. An employee applies at the Leave Request Service, which asks the Leave Balance Service
for the remaining days; a manager approves at the Manager Service, which first has the balance
deducted and then has the request's status flipped. Any of these calls can fail, and any number of
them can be under way at once. This project models the three services and the gateway's choice of
instances, and proves what holds in every run and exactly when what one would like to hold does.

`dafny verify dfyconfig.toml` checks the whole project.

## How the model is built

| file | models |
|---|---|
| Domain, Sequences | the shared records and enumerations; list comprehensions and sums |
| OrgChart | the roster and its lookups (shared/seed_config.py) |
| RequestLog | what the Leave Request Service computes, as functions of its requests in insertion order |
| RequestStore, RequestService | its store of mutable records with two indexes, and its endpoints, as a class and methods proved to compute those functions |
| Pagination | the paging arithmetic of the history |
| Balances, BalanceStore | the same for the Leave Balance Service, its seeding, and the cross-service balance read |
| LeaveSystem | the three services running together, as atomic steps |
| SystemInvariant | the inductive invariant over every step |
| Lifecycle, Conservation, CarefulRuns, Receipts, Calendar | what follows for every run |
| Races | runs that break tempting expectations |
| Endpoints, Applying, ManagerService | the applying, approving and rejecting endpoints on the two stores, alone but with failing calls |
| RoundRobin | the gateway's round-robin resolver |

Each service is one asyncio process, so a handler runs undisturbed between two awaits. `LeaveSystem`
makes each such stretch a step: applying is a check, a balance read by the other service and an
insertion; approving is a load, a deduction, a flip, and the arrival of its reply, on which the manager
service publishes. A run is any sequence of steps by any number of tasks. A manager's call may be dropped
before it takes effect (an open circuit breaker is one way), its reply may be lost at once or on its way,
and the manager may give up while the call or its reply is under way. A step that is not enabled changes
nothing. The state carries two histories that no service reads: a ledger with one entry per deduction,
marked when the approval it was made for flips the status, and the calls of `publish_event`. The functions behind the steps are the ones the methods on the stores are proved to compute.

Dates are day ordinals and integers are unbounded, as in Python. A new UUID is an id not in use: a
parameter with that precondition, or a step that waits for an unused id. The roster, the allocations
and today's date are arbitrary.

## Where the code and its description differ

- docs/INTER_SERVICE_COMMUNICATION.md says loading a request goes through a circuit breaker;
  manager_service/main.py:101 calls it directly. Either way the call may fail, which is all the model uses.
- docs/MICROSERVICES_DESIGN.md says deducting first avoids a half-applied state. It avoids an approval
  without a deduction, but not a deduction without an approval: `Conservation` and
  `ManagerService.ApproveAtomicIff` say exactly when that happens.
- leave_request_service/validators.py promises that no other active request covers the same days. The
  check is not repeated after the await, so this holds exactly under the condition of
  `Calendar.NeverDoubleBookedIff`.
- api_gateway/consul_resolver.py promises round-robin over healthy instances. A change of the reported
  list, even of its order alone, starts the cycle again. So among lists of one length the promise holds
  exactly when the list changes only after whole rounds (`RoundRobin.PicksGoRoundIff`); when it changes at
  every lookup, the first instance gets all the requests (`RoundRobin.FlappingAlwaysPicksFirst`).
- docs/MICROSERVICES_DESIGN.md ends an approval with its publication. The manager service publishes
  only after the reply to its status update has arrived, so a decision whose reply is lost is stored and
  never announced: `Lifecycle.PublishedIffDecided` says exactly when, and `Races.LostReplyMutes` is such a run.

## Model

| member | source | states |
|---|---|---|
| `RequestStore.Store.AddRequest` | leave_request_service/store.py:28-37 | Appends the request to the store and keeps both indexes equal to a filtered scan of it |
| `RequestStore.Store.GetRequestFinds` | leave_request_service/store.py:40-43 | The dictionary finds exactly the request a scan by id would find |
| `RequestStore.Store.GetRequestsForEmployee` | leave_request_service/store.py:46-52 | What the employee index resolves to is the insertion-ordered store filtered by employee: nothing missing, repeated or dangling |
| `RequestStore.Store.GetRequestsForManager` | leave_request_service/store.py:55-61 | The same for the manager index |
| `RequestStore.Store.SetStatus` | leave_request_service/store.py:64-81 | Changes one record in place: exactly that row of the view gets the new status, a reason survives only on a rejection, and both indexes stay correct |
| `BalanceStore.Store.AddBalance` | leave_balance_service/store.py:21-31 | Adds a record exactly when its employee and leave type have none, otherwise changes nothing; store and composite index keep determining each other |
| `BalanceStore.Store.GetBalance` | leave_balance_service/store.py:34-40 | The composite index finds the record of the key, if the key has an account |
| `BalanceStore.Store.ApplyDeduction` | leave_balance_service/store.py:53-77 | Succeeds exactly for a positive number of days that with those used does not exceed the allocation, and then raises that one `used` by the days; 404 without a record and 409 otherwise, and no account changes |
| `Balances.DeductOutcome` | leave_balance_service/store.py:64-77 | The same of the function behind the deduction steps of the system |
| `BalanceStore.FetchRemaining` | leave_request_service/balance_client.py:41-44 | The first matching row of the employee's listing, else 0, is the allocation less the days used of the account found through the composite index, or 0 without one |
| `BalanceStore.SeedBalances` | leave_balance_service/seed.py:38-46 | From an empty store, seeding succeeds if and only if no two employees share an id or there is no leave type to seed, and leaves exactly the seeded accounts; a store with records is left as it is |
| `Balances.SeededAccountsExact` | leave_balance_service/seed.py:26-46 | Seeding gives one account per employee and leave type and no other, with that type's allocation and nothing used |
| `Balances.SeededForEmployees` | leave_balance_service/seed.py:43-46 | Seeding a roster gives an account to each row with the employee role, and to nobody else, with the days allocated to the type |
| `Balances.ShippedAccounts` | shared/enums.py:46-50 | As shipped, the two employees start with 12 casual, 10 sick and 15 privilege days, and nobody else has an account |
| `BalanceStore.SeedTwice` | leave_balance_service/seed.py:38-46 | Seeding twice: the second time never fails, even if the first did, and leaves every account as the first time left it |
| `Balances.ManagersHaveNoAccount` | leave_balance_service/seed.py:6 | A manager of a roster with distinct ids has no account |
| `OrgChart.TeamQueriesAgree` | shared/seed_config.py:100-114 | For distinct ids, `is_team_member` agrees with membership in `get_team_member_ids` |
| `OrgChart.TeamQueriesAgreeIff` | shared/seed_config.py:79-114 | For an arbitrary roster they agree on all pairs if and only if the id index names every row's own manager |
| `OrgChart.ManagerOfRow` | shared/seed_config.py:88-97 | For distinct ids, an employee's manager is the one in their row |
| `OrgChart.LastRowWins` | shared/seed_config.py:79 | A duplicated id is answered by its last row |
| `OrgChart.ShippedRosterHasDistinctIds` | shared/seed_config.py:46-68 | The shipped roster has distinct ids |
| `OrgChart.ShippedTeam` | shared/seed_config.py:46-68 | As shipped, the two employees report to the one manager, who reports to nobody |
| `RequestLog.ValidateDates` | leave_request_service/validators.py:34-55 | Accepts exactly the ranges that start no earlier than today, do not end before they start, and whose day count is the number of days they cover |
| `RequestLog.ResolveManager` | leave_request_service/main.py:79-93 | Accepts exactly the employee's own manager: a client cannot route a request elsewhere |
| `RequestLog.CheckOverlapIffDaysFree` | leave_request_service/validators.py:58-72 | The overlap check passes if and only if the range shares no calendar day with any pending or approved request of the employee |
| `RequestService.CheckOverlap` | leave_request_service/validators.py:58-72 | The early-exit loop over the employee's records computes that check |
| `RequestService.BeginApply` | leave_request_service/main.py:111-113 | Applying up to its await is the atomic check of the system model |
| `RequestService.FinishApply` | leave_request_service/main.py:135-172 | Applying after its await stores exactly one pending request, or refuses and stores nothing |
| `RequestService.CancelLeave` | leave_request_service/main.py:214-242 | Cancels exactly an own pending request: that row alone becomes CANCELLED, without a reason; otherwise nothing changes, with 404 for an unknown request, 403 for that of another, and 409 for a settled one |
| `RequestLog.CancelOutcome` | leave_request_service/main.py:221-240 | The same of the function behind the cancellation step of the system |
| `RequestService.UpdateRequestStatus` | leave_request_service/main.py:295-333 | Settles exactly a pending request of the manager's own, to APPROVED, or to REJECTED with a reason that is not blank; otherwise nothing changes, with 404, 403, 409 or 400 by which of these fails first |
| `RequestLog.UpdateOutcome` | leave_request_service/main.py:305-326 | The same of the function behind the status update of the system |
| `Domain.BlankIffStripEmpty` | leave_request_service/main.py:318-320 | A reason is blank, made of white space only, if and only if stripping it leaves nothing |
| `RequestService.ListRequests` | leave_request_service/main.py:249-278 | Unless an id and a manager are both given, the listing is the whole store filtered by every supplied filter, in insertion order, whichever index was used |
| `RequestLog.ListedIsNaiveFilter` | leave_request_service/main.py:259-278 | The same, for every sequence of requests with distinct ids |
| `RequestLog.ListedByIdAndManagerIff` | leave_request_service/main.py:259-276 | With both given the manager is ignored; the answer is still the filtered store if and only if the request found is the manager's, is filtered out anyway, or does not exist |
| `RequestLog.ListedMembers` | leave_request_service/main.py:259-278 | Filter by filter, which requests every query lists: a manager beside an id is the only filter ignored |
| `RequestService.LeaveHistory` | leave_request_service/main.py:188-211 | A page of the caller's own requests, all of them or exactly those in the one status asked for, with their number as the total; 400 exactly for an invalid filter |
| `RequestService.OwnCount` | leave_request_service/main.py:190-200 | The total counts each of the caller's requests in the wanted status once |
| `Pagination.PagesPartition` | leave_request_service/main.py:200-203 | Pages 1 to `total_pages`, read in turn, give back the whole list |
| `Pagination.PageLengths` | leave_request_service/main.py:200-203 | Every page but the last is full, the last is not empty, pages past it are empty |
| `Pagination.ItemOnOnePage` | leave_request_service/main.py:200-203 | Item i is on page i / size + 1 at place i % size, and on no other page |
| `LeaveSystem.SeedingStartsTheSystem` | leave_balance_service/main.py:44 | Freshly seeded services are an initial state of the system |
| `SystemInvariant.StepKeepsInv` | manager_service/main.py:155-189 | Every atomic step of every task, delivered, lost or abandoned, keeps the invariant that ties requests, tasks, accounts, ledger and publications together |
| `SystemInvariant.InvAlways` | manager_service/main.py:155-189 | The invariant holds after every run from freshly seeded services |
| `Conservation.DaysAreConserved` | manager_service/main.py:167-189 | In every reachable state, used days are exactly the approved days plus the days of open ledger entries |
| `Conservation.ApprovedNeverExceedsAllocation` | leave_balance_service/store.py:64-76 | In every reachable state, approved days <= used <= the allocation made at the start, for every employee and leave type |
| `Conservation.RemainingIsWhatIsLeft` | leave_balance_service/models.py:27-30 | In every reachable state the remaining balance is the allocation made at the start less the approved days and those of open ledger entries |
| `Conservation.StepChargesIff` | manager_service/main.py:167-179 | A step charges an account exactly when it handles the deduction of an approval the account covers, and then by exactly its days, with one ledger entry |
| `Conservation.StepStrandsExactly` | manager_service/main.py:168-189 | A step leaves a deduction that nothing can win any more exactly when its guard says so: unlearned deduction, unsent flip, or flip of a request no longer pending |
| `Conservation.StrandedBySomeStep` | manager_service/main.py:168-189 | The deductions lost at the end of a run are exactly those some step of it stranded |
| `Conservation.AccountBalancesIff` | manager_service/main.py:167-189 | In every reachable state and for every employee and leave type: used days are exactly the approved days if and only if no step of the run stranded a deduction from this account and no approval is between deducting from it and updating the status |
| `Conservation.BooksBalanceIffNothingStranded` | manager_service/main.py:167-189 | With no decision under way, this is so for all accounts if and only if no step stranded any deduction |
| `CarefulRuns.CarefulRunsBalanceTheBooks` | manager_service/main.py:155-189 | After a run in which the manager service learns of every deduction and then sends the status update, and no two decisions, or a decision and a cancellation, overlap on one request, an account balances if and only if no approval is between the two |
| `CarefulRuns.CarefulApprovalCannotBeRefused` | manager_service/main.py:181-189 | In every state such a run reaches, an approval that has deducted cannot be refused its status update |
| `Races.RacingApprovalsOvercharge` | manager_service/main.py:158-179 | When two approvals overlap on one request it may fail: on fresh services, any request the balance covers twice is charged twice |
| `Receipts.ApprovedRequestsArePaidOnce` | manager_service/main.py:167-189 | In every reachable state each approved request has exactly one winning ledger entry, of its own employee, type and days, and no other entry has won |
| `Receipts.RefusalsAreJustified` | leave_request_service/main.py:115-142 | An application refused after its await is refused rightly even though the balance it read may be old: the present balance is short as well |
| `Receipts.ReadIsPresentPlusCharged` | leave_request_service/main.py:115-135 | In every reachable state the balance a waiting application has read is the present balance plus the days deducted from it since, whatever happened in between |
| `Receipts.StoredIffCoveredAtRead` | leave_request_service/main.py:135-154 | A waiting application is stored if and only if the present balance and the days deducted since its read cover it; a stored one is covered by the present balance alone if and only if no more was deducted since than it left of what it read |
| `Races.StaleReadAccepts` | leave_request_service/main.py:115-154 | It may not be: on fresh services, of any two requests that fit a balance one by one but not together, the second is stored although the approval of the first used up its days |
| `Calendar.RaceFreeNeverDoubleBooks` | leave_request_service/main.py:113-154 | While no two applications in flight ask for a common day of one employee (so in particular with one in flight per employee), no reachable state has two active requests of an employee sharing a day, whatever interleaves |
| `Calendar.StepKeepsBookingIff` | leave_request_service/main.py:113-154 | A step of any run creates a double booking exactly when it inserts a request that the overlap check would by then refuse |
| `Calendar.NeverDoubleBookedIff` | leave_request_service/main.py:113-154 | No state of a run has a double booking if and only if every insertion of it would pass the check again |
| `Races.ConcurrentApplicationsDoubleBook` | leave_request_service/main.py:113-154 | When two do, it fails: on fresh services, two applications for the same days are both stored |
| `Calendar.DaysAwayWithinAllocation` | leave_request_service/validators.py:47-65 | In every reachable state the calendar days an employee is away are at most the approved days, these are at most the allocations of all types together, and the first two are equal if and only if no two approved requests share a day |
| `Calendar.RaceFreeDaysAwayAddUp` | leave_request_service/validators.py:47-65 | So they are equal after every run in which no two applications in flight ask for a common day of one employee |
| `Calendar.AtMostThirtySevenDaysAway` | shared/enums.py:46-50 | As the platform is seeded, nobody is ever away for more than 37 days, in any run |
| `Lifecycle.StatusChangesAtMostOnce` | leave_request_service/store.py:76-80 | Over every run a request keeps its contents, leaves PENDING at most once, and never changes afterwards |
| `Lifecycle.RequestsAreBornPending` | leave_request_service/models.py:34-35 | A step adds one request at most, pending and without a reason |
| `Lifecycle.OnlyOwnerOrManagerSettles` | leave_request_service/main.py:226-324 | Only the applicant cancels; only the manager the org chart names for the applicant decides, and approves only with a deduction of exactly that request's days |
| `Lifecycle.StepSettlesIff` | leave_request_service/main.py:231-326 | In every reachable state a step settles a request if and only if the request is pending and the step is its applicant's cancellation or the status update of a task deciding it, and to exactly that status |
| `Lifecycle.ReasonExactlyOnRejection` | leave_request_service/main.py:318-326 | In every reachable state a reason is stored exactly on rejected requests, and is never blank |
| `Lifecycle.ApplicationsAreConserved` | leave_request_service/main.py:154-164 | In every reachable state the LEAVE_APPLIED publications are, in order, those of the stored requests, and as many as the pending, approved, rejected and cancelled ones together |
| `Lifecycle.AtMostOneDecisionPublished` | manager_service/main.py:189-248 | Over every run a request gets at most one LEAVE_APPROVED or LEAVE_REJECTED |
| `Lifecycle.PublishedDecisionStands` | manager_service/main.py:189-248 | Once a decision is published the stored status is that decision ever after |
| `Lifecycle.PublishedIffDecided` | manager_service/main.py:189-248 | After every run the published decisions are exactly the stored ones if and only if no reply to a status update that took effect was lost or given up on, and none is still on its way |
| `Lifecycle.StepHeardIff` | manager_service/main.py:181-198 | After a step every stored decision is published or its reply is awaited if and only if it was so before and the step loses no such reply |
| `Races.LostReplyMutes` | manager_service/main.py:181-198 | Such a run: on fresh services, any request the balance covers is approved and charged, and nothing but its application is published |
| `Lifecycle.ManagerQueueIsTeam` | leave_request_service/store.py:55-61 | In every reachable state a manager's requests are, in order, exactly those of the employees reporting to that manager |
| `ManagerService.LoadTeamRequest` | manager_service/main.py:96-113 | Loading through the listing endpoint: 503 if the call fails, 404 for no request, 403 for another manager's, with the PENDING check 409 for a settled one, else the request |
| `ManagerService.ApproveRequest` | manager_service/main.py:148-200 | The endpoint on the two stores computes the specified outcome for every fate of its three calls |
| `ManagerService.ApproveReply` | manager_service/main.py:155-189 | Which answer the manager gets for every fate of the calls: 404 also without an account, 409 also without the days, 503 for any call that fails, else the approved request |
| `ManagerService.RejectRequest` | manager_service/main.py:206-250 | The same for rejecting, with two calls; the balance store is left alone |
| `ManagerService.RejectReply` | manager_service/main.py:214-238 | The same for rejecting: 400 for a blank reason |
| `ManagerService.ApproveIsAllOrNothing` | manager_service/main.py:148-200 | Alone and with no call failing, an approval succeeds exactly when the request is the manager's, pending and covered; then one request and one account change, otherwise nothing does |
| `ManagerService.ApproveAtomicIff` | manager_service/main.py:167-189 | With calls failing it is all or nothing if and only if it is not the case that the deduction took effect and either its reply was lost or the status update was never sent |
| `ManagerService.RejectOnlyMarks` | manager_service/main.py:206-250 | For every fate of its calls, rejecting touches no balance; it marks exactly the manager's own pending request, if that was loaded, the update sent and the reason not blank, and publishes that exactly if the reply arrived too |
| `ManagerService.ApproveIsARun` | manager_service/main.py:148-200 | The endpoint run alone is one of the runs of the system model, for every fate of its calls |
| `ManagerService.RejectIsARun` | manager_service/main.py:206-250 | The same for rejecting |
| `Applying.ApplyLeave` | leave_request_service/main.py:101-172 | The endpoint on the two stores computes the specified outcome, whether the balance read succeeds or not |
| `Applying.ApplyReply` | leave_request_service/main.py:111-142 | Which answer the employee gets: 400 for dates, day count or manager, 409 for an overlap or a short balance, 503 when the balance cannot be read |
| `Applying.ApplySucceedsIff` | leave_request_service/main.py:111-172 | Alone, an application succeeds exactly when its dates are valid, the manager named is the own one, its days are free, and the balance can be read and covers it; then one pending request is added, otherwise nothing changes |
| `Applying.ApplyIsARun` | leave_request_service/main.py:101-172 | The endpoint run alone is one of the runs of the system model |
| `RoundRobin.CursorIsStreak` | api_gateway/consul_resolver.py:98-106 | After any history the cursor stands as far around the list as the list has been reported in a row |
| `RoundRobin.Resolver.Resolve` | api_gateway/consul_resolver.py:87-106 | Chooses the instance at that position; without instances answers the address with the service's own name as host and its static port, and moves no cursor |
| `RoundRobin.StaticAddressesAreOwn` | api_gateway/consul_resolver.py:35-41 | Every service falls back to the host of its own name and to a port that no other service has |
| `RoundRobin.StaticPorts` | api_gateway/consul_resolver.py:35-41 | The five services and their ports |
| `RoundRobin.DecimalStandsFor` | api_gateway/consul_resolver.py:55 | The port in the address is written with decimal digits that stand for it |
| `RoundRobin.StreakIsTail` | api_gateway/consul_resolver.py:98-106 | How often a list has been reported in a row is the length of its run at the end of all lists reported for the service |
| `RoundRobin.StablePicksGoRound` | api_gateway/consul_resolver.py:98-106 | While the reported list stays the same, choices go round it one by one, whatever is resolved for other services or falls back |
| `RoundRobin.EveryRoundVisitsEachOnce` | api_gateway/consul_resolver.py:98-106 | Then any n consecutive choices visit each of the n positions exactly once |
| `RoundRobin.NoInstanceIsFavoured` | api_gateway/consul_resolver.py:98-106 | Then the visits of any two positions differ by at most one |
| `RoundRobin.PicksGoRoundIff` | api_gateway/consul_resolver.py:98-106 | For lists of one length, after any history and from any place: choices go round one by one if and only if the first is at that place and the list changes only where a round is complete |
| `RoundRobin.FreshPicksGoRoundIff` | api_gateway/consul_resolver.py:98-106 | For a resolver just started: choices go round from the first place if and only if the list changes only after whole rounds |
| `RoundRobin.FlappingAlwaysPicksFirst` | api_gateway/consul_resolver.py:101-103 | After any history, if each list differs from the one before it, even in order only, the first instance is chosen every time |
| `RoundRobin.OnlyFlappingPicksFirst` | api_gateway/consul_resolver.py:98-106 | For a resolver just started and lists of two or more, that is the only way the first instance is chosen every time |

## Left out

- HTTP, JSON and schema validation: bounds such as a positive day count or a non-empty reason are checked before the handlers run; here an empty rejection reason gets the handler's 400 instead of the framework's 422.
- Error texts: a failure is its HTTP status.
- Timestamps, user names and passwords: no rule depends on them; the date of the past-date rule is a parameter.
- The spelling of the history's status parameter: it arrives decoded as all, one status, or invalid.
- The team listing of the Manager Service and its view with display names: it forwards one query to the internal listing and maps each row.
- The balance endpoints' authorization: a comparison of two ids and one call of `is_team_member`.
- The inside of the circuit breakers: pybreaker is not part of this model; a breaker is one more reason for a call to fail before or after it takes effect.
- Broker delivery and the Notification Service: only the call of `publish_event` is modelled.
- Authentication, the gateway's routing, registration with Consul, tracing and logging: input and output only. What Consul answers is a parameter of `RoundRobin.Resolver.Resolve`.
- The lock around the resolver's cursor: each lookup is one step.
- Restarts: a restarted service loses its memory and begins again in an initial state.

# Governance kernel of a company of agents: a verified model

The repository runs companies of LLM agents. Around the agents sits a kernel that keeps long-lived state and
makes promises over every run: who reports to whom, what may be spent, what must be approved, which messages
arrive, what time it is. This project models that kernel in Dafny and proves the promises.

Every service is modelled twice. A value with a step function per transaction says what the service does; the
lemmas about runs of any length are proved about it. A class with the source's fields carries the steps out,
loops included, and its methods are proved to do exactly what the steps say. The files named `...Outcomes` then tell
what each step comes to in the system's own terms, with plain numbers and names, independent of the step's definition.

| part | files | source |
|---|---|---|
| org chart and its drawing | `Forest`, `OrgRules`, `OrgOutcomes`, `Org`, `OrgChart`, `ChartShape`, `ChartOrder`, `ChartLayout`, `OrgChartOfCompany` | `modules/identity/org.py`, `modules/board_ui/components/org-chart.tsx` |
| money | `Money`, `MoneyOutcomes`, `Budget`, `Subscriptions`, `SubscriptionOutcomes`, `Holds` | `modules/cost/` |
| gated execution | `Approvals`, `ApprovalOutcomes`, `ApprovalService`, `Tools`, `ToolOutcomes`, `ToolRuns`, `ToolOnce`, `Connector`, `ConnectorOutcomes`, `ConnectorRuns`, `ConnectorOnce` | `modules/approvals/`, `modules/tools/`, `modules/connector/` |
| messages and rates | `Mail`, `MailOutcomes`, `Orchestrator`, `Outbox`, `TokenBucket`, `LinkWindow`, `Utf8`, `Sanitize` | `modules/orchestrator/`, `modules/inter_company/`, `modules/connector/rate_limit.py` |
| time | `Clock`, `ClockOutcomes`, `ClockSchedule` | `modules/clock/` |
| caches and the truth | `Workspace`, `WorkspaceOutcomes`, `Findings`, `FindingOutcomes`, `Reconcile` | `modules/storage/`, `modules/efficiency/` |

`Common` holds options, duplicate-free sequences, finite sums, sums along runs and ordering by time. `dafny verify dfyconfig.toml` checks it all.

Where the code does not keep what one might expect, the model follows the code and says exactly when it does:

- An unblocked reservation committed at its own amount is refused iff it used up a positive total exactly
  (`Money.ReserveThenCommit`; modules/cost/budget.py:264, 323).
- The clock's documentation says wall jumps cannot rewind company time (modules/clock/clock.py:7-9). That holds
  within a process (`Clocks.TimeNeverFalls`). Across a restart, in a pause or running, the time shown stays the
  same iff the wall is not before the start of the pause, unless nothing had elapsed, and the clamp, which no row
  keeps, was not holding the time up (`Clocks.RestartKeepsTime`); otherwise it falls. With a wall that never goes
  back neither can happen (`Clocks.CompanyTimeFromStart`).
- A pump that dies between appending DAY_TICK events and persisting repeats days (`Clocks.TicksAreDays`). No day is
  skipped, and a day that comes again charges nothing by itself. But a day's tick charges and then writes the
  subscription's row in a second transaction; one that dies in between charges the period once more when the row
  next comes up. The schedule is exact iff no charge is left unrecorded like that
  (`Subscriptions.ScheduleIsExact`, `ClockSchedule.ClockDrivesSchedule`; modules/cost/subscriptions.py:111-130).
- The results that make a repeated tool call or external call harmless are kept in memory
  (modules/tools/service.py:114, modules/connector/connector.py:91). Within a process an id runs once and is charged
  once. Each process that ends with its result allows one run and one charge more: a call that ran runs again iff
  its id is not in the cache and its estimate is affordable (`ToolOnce.RunsOncePerProcess`, `ToolOnce.RunsAgainIff`,
  and the same in `ConnectorOnce`). A process that dies with money held leaves the reservation open.
- A company's queues, dead letters and seen tags are in memory too: a restart loses what waits, and lets a
  cross-company message be queued again (`Mail.RunConservesMail`, `Outbox.DeliveredIff`).
- A write consumes a file lying where its temporary file goes, so the cache then over-counts; a temporary file that
  cannot be removed, or a write that goes unrecorded, is not counted. The cache never under-counts iff the second is
  always covered by the first (`Workspaces.NeverUnderCountsIff`; modules/storage/workspace.py:271-284).
- Reassigning commits and then raises, because AGENT_REASSIGNED has no payload model
  (modules/identity/org.py:400, modules/event_store/payloads.py:300-338): the outcome `MovedButEventRefused`.
- Approvals routed to SECURITY are shown to nobody (`Approvals.PendingIsShownOnce`; modules/approvals/service.py:360-379).
- `drain` counts failed attempts as delivered and rotates the queues of a paused company
  (`Orchestration.Orchestrator.Drain`; modules/orchestrator/orchestrator.py:297-301).
- A cross-company message queued by a replay that did not get to update its row is told REJECTED by the next one,
  though it was queued: exactly when the same process of the target company answers both and the next one does not
  leave the row waiting (`Outbox.RejectedThoughQueued`).
- An approval is looked up by the id alone: another agent, another tool or other arguments under the id of an
  approved request run. What was approved is what runs iff the call wants the same agent, tool and arguments as the
  one that put the request; likewise service, action and arguments at the gateway
  (`ToolRuns.RunsWhatWasApprovedIff`, `ConnectorRuns.RunsWhatWasApprovedIff`; modules/tools/service.py:361-374,
  modules/connector/connector.py:329-347).

## Model

| member | source | states |
|---|---|---|
| `Forest.RepointAcyclicIff` | modules/identity/org.py:376-395 | moving x under m keeps the table acyclic iff m is neither x nor below x, so the cycle walk refuses exactly the pointers that would close a loop |
| `Forest.AcyclicIsRanked` | modules/identity/org.py:449-460 | every forest has a ranking that falls along every manager pointer: the measure on which all upward walks end |
| `Forest.RankedIsAcyclic` | modules/identity/org.py:376-395 | conversely, a table with such a ranking and no dangling ids has no cycle |
| `Forest.KeepsForest` | modules/identity/org.py:136-198 | a new leaf, and changes to other columns or pointers set to null, keep the table a forest |
| `OrgRules.RunKeepsOrg` | modules/identity/org.py:104-664 | after any run of hire, reassign and fire: no dangling ids and no cycle over all rows, fired ones included; active agents have active managers; CEO at most 5 and others at most 4 active reports, at most 100 active agents; nobody but HR under HR unless bootstrapped; an HR once active always is one; an active CEO stays; ids never vanish, change role or come back |
| `OrgRules.HireKeepsInv` | modules/identity/org.py:104-224 | hiring keeps that invariant, whatever it is asked |
| `OrgRules.ReassignKeepsInv` | modules/identity/org.py:293-413 | reassigning keeps it, although appending its event raises after the commit |
| `OrgRules.FireKeepsInv` | modules/identity/org.py:481-528 | firing keeps it: reports of the fired agent become roots |
| `OrgRules.StepKeepsPeople` | modules/identity/org.py:496-528 | no step removes the last active HR, fires an active CEO, or brings a fired agent back |
| `OrgRules.HireKeepsReports` | modules/identity/org.py:160-179 | a hire adds one active report to its manager and none to anybody else |
| `OrgService.Org.constructor` | modules/identity/org.py:84-102 | an empty org satisfies the invariant |
| `OrgService.Org.AddAgent` | modules/identity/org.py:104-224 | raises exactly the first failing check of the source's order, else inserts the row in hired_at order with one event; the invariant holds after |
| `OrgService.Org.Reassign` | modules/identity/org.py:293-413 | the first failing check in order, with `descendant of the target` meaning really below it; otherwise one pointer moves |
| `OrgService.Org.ReachesUp` | modules/identity/org.py:376-395 | the cycle walk ends and answers whether the chain above passes through the target |
| `OrgService.Org.ChainUp` | modules/identity/org.py:449-460 | in a forest never raises CycleDetected and returns the managers in order up to the top; raises only where there is a real cycle |
| `OrgService.Org.Depth` | modules/identity/org.py:462-479 | the number of levels between the two, none if not below; ends in every forest |
| `OrgService.ReportsAre` | modules/identity/org.py:432-438 | direct_reports lists exactly the active rows pointing at the manager, each once |
| `OrgService.Org.AllDescendants` | modules/identity/org.py:440-447 | the worklist ends with exactly the active agents below a, each once |
| `OrgService.WalksAgree` | modules/identity/org.py:440-479 | a is d levels above x iff entry d - 1 of x's chain is a, for one d only: the downward walk and both upward walks agree |
| `OrgService.Org.Fire` | modules/identity/org.py:481-528 | fires iff every check passes, only a proper descendant of the actor and never the CEO or the last HR; the invariant holds after |
| `OrgService.Org.DoFire` | modules/identity/org.py:628-690 | target fired, its active reports cut loose, events for the firing, the notified manager and every orphan, in order |
| `OrgOutcomes.FiredIff` | modules/identity/org.py:496-528 | an active agent ends fired iff the request came through HR with a proper reason, the actor is active and the target is really below it, and it is neither a CEO nor an HR whom no other active HR could replace |
| `OrgOutcomes.FireRefusalIsFirst` | modules/identity/org.py:481-528 | fire goes through iff nothing speaks against it, and is refused for the first thing that does, in the source's order, each told from the table |
| `OrgOutcomes.FireLeavesOthers` | modules/identity/org.py:628-690 | a fire request changes the target, its active reports, who become roots, and nobody else |
| `OrgOutcomes.FireIsAnnounced` | modules/identity/org.py:628-690 | a firing is announced with its actor first, then to the target's manager unless that is the actor, and each active report as orphaned; nothing else is |
| `OrgOutcomes.RunFiresFromAbove` | modules/identity/org.py:481-690 | over every run the log tells exactly who is fired, and every firing it announces was of an active agent by an active agent above it at that moment |
| `OrgOutcomes.HiredIff` | modules/identity/org.py:104-224 | a new agent is there afterwards, active, in its role and under its manager, iff it is new, came through HR with a manager or from the factory, fewer than 100 are active, and the manager is another active agent with room, not HR unless the hire is HR or the factory's |
| `OrgOutcomes.HireRefusalIsFirst` | modules/identity/org.py:104-224 | a hire is refused for the first thing that speaks against it, in the source's order, each told from the table |
| `OrgOutcomes.MovedIff` | modules/identity/org.py:293-413 | a reassignment moves its target, and nobody else, iff the target is an active member, the new manager another active agent, not HR, with room and not below the target, and the actor an active CEO or the target's active manager |
| `OrgOutcomes.ReassignRefusalIsFirst` | modules/identity/org.py:293-395 | it is refused for the first thing that speaks against it, in the source's order; a target that is there already is told so before the actor is looked at |
| `OrgChartOfCompany.CompanyListingIsForest` | modules/board_ui/components/org-chart.tsx:74-110 | whatever rows the board lists after any run of the org service form a forest, so the layout's precondition always holds |
| `ChartLayout.LayoutChart` | modules/board_ui/components/org-chart.tsx:74-110 | for any forest: no two boxes overlap (gaps included), every agent has exactly one box, all fit in the width, roots are on top and each report 136 px below its manager, every manager stands over its reports and exactly midway between the outermost of those below it who have no reports, nobody below it further out, reports stand left to right in role order, and the width is 232 px per agent without reports |
| `ChartLayout.Layout.Group` | modules/board_ui/components/org-chart.tsx:75-84 | byParent holds, per manager, exactly its reports, sorted by role |
| `ChartLayout.Layout.Place` | modules/board_ui/components/org-chart.tsx:95-106 | place appends the boxes of exactly the subtree and moves the cursor past its leaf columns |
| `OrgChart.KidsAre` | modules/board_ui/components/org-chart.tsx:75-84 | the sorted reports of a manager are its reports in the listing, each once |
| `ChartOrder.SortIsStable` | modules/board_ui/components/org-chart.tsx:82-84 | sorting puts the roles in locale order and keeps agents of one role in the order of the listing |
| `OrgChart.RoundingIsExact` | modules/board_ui/components/org-chart.tsx:100-103 | Math.round never rounds: the centre of a span of columns is a whole pixel |
| `OrgChart.TreeSpread` | modules/board_ui/components/org-chart.tsx:95-106 | in one subtree, boxes of one level take disjoint, left-to-right intervals of leaf columns inside the subtree's own |
| `OrgChart.TreeOnce` | modules/board_ui/components/org-chart.tsx:95-106 | a subtree's agents are placed once each, as deep as they are levels below its root |
| `OrgChart.EverybodyPlaced` | modules/board_ui/components/org-chart.tsx:87-106 | every listed agent is placed, by descent from a root |
| `ChartOrder.TreeArranged` | modules/board_ui/components/org-chart.tsx:95-106 | in a subtree, every report takes columns inside those of its manager, and a report of an earlier role all of its columns left of one of a later role |
| `ChartOrder.BelowInside` | modules/board_ui/components/org-chart.tsx:95-106 | whoever sits below an agent, at any depth, takes columns inside those of that agent |
| `ChartOrder.Edge` | modules/board_ui/components/org-chart.tsx:95-104 | the outermost columns of a subtree are those of agents in it without reports |
| `ChartShape.TreeSpans` | modules/board_ui/components/org-chart.tsx:95-104 | a leaf takes one column; a manager's columns start with those of one report and end with those of another |
| `ChartShape.TreeLeaves` | modules/board_ui/components/org-chart.tsx:97-99 | a subtree takes exactly one column per leaf |
| `ChartShape.ReportOneLevelDown` | modules/board_ui/components/org-chart.tsx:99-103 | a report's level is its manager's plus one |
| `Money.RunKeepsOk` | modules/cost/budget.py:111-386 | over every run: last_warn_pct is 0, 80 or 100, blocked iff it is 100, and the log has one EXPENSE_CHARGED per expense with that expense's rounded cents, in order |
| `Money.StepSolvent` | modules/cost/budget.py:125-386 | no operation but set_total ends with spent plus open reservations above the total, unless it was above and did not grow |
| `Money.RunSolvent` | modules/cost/budget.py:125-386 | the same over every run between two changes of the total |
| `Money.BlockedIsAbsorbing` | modules/cost/budget.py:125-386 | once blocked, blocked until set_total: nothing more is spent and no reservation opens |
| `Money.ReserveThenCommit` | modules/cost/budget.py:228-386 | a reservation committed at once at its own amount is refused iff it brought usage exactly to a positive total |
| `Money.WholeBudgetReserved` | modules/cost/budget.py:264-334 | the concrete case: 100 of 100 units reserved cannot be spent |
| `Money.CentsDrift` | modules/cost/budget.py:513-515 | 100 times the announced cents stay within 50 units per event of what was spent |
| `Money.CanAffordForetells` | modules/cost/budget.py:102-109 | remark, by definition: can_afford holds iff charge would book, and iff reserve would open |
| `BudgetService.Budget.EvaluateThresholds` | modules/cost/budget.py:439-510 | the two ladders of comparisons leave last_warn_pct at the band of current usage and blocked iff that is 100%; one event exactly on an upward crossing, for the highest threshold crossed |
| `BudgetService.Budget.SetTotal` | modules/cost/budget.py:111-121 | new total, thresholds re-read |
| `BudgetService.Budget.Charge` | modules/cost/budget.py:125-224 | books iff affordable; a refusal blocks and is announced |
| `BudgetService.Budget.Reserve` | modules/cost/budget.py:228-275 | opens iff affordable; a refusal changes nothing |
| `BudgetService.Budget.Release` | modules/cost/budget.py:277-281 | frees an open reservation and re-reads no threshold |
| `BudgetService.Budget.Commit` | modules/cost/budget.py:283-386 | closes the reservation and books iff affordable without it; otherwise releases it and blocks |
| `MoneyOutcomes.SetTotalIs` | modules/cost/budget.py:111-121 | the new total stands, nothing is spent or let go of, and the budget is blocked iff the total is positive and used up, so that one below a positive total is open again |
| `MoneyOutcomes.ChargeIs` | modules/cost/budget.py:125-224 | exactly the amount is booked, under its category and memo, iff the budget is not blocked and spent, held and amount fit the total; a refusal blocks, spends nothing and is announced; amounts are told in cents, half a cent up |
| `MoneyOutcomes.ReserveIs` | modules/cost/budget.py:228-275 | a reservation opens iff there is that room, and a refusal changes nothing |
| `MoneyOutcomes.ReleaseIs` | modules/cost/budget.py:277-281 | releasing frees exactly what an open reservation held and touches nothing else |
| `MoneyOutcomes.CommitIs` | modules/cost/budget.py:283-386 | with what it held out of the way, the actual amount is booked under its reference iff there is room; otherwise the reservation is released, nothing spent and the budget blocked |
| `MoneyOutcomes.ReadingIsRight` | modules/cost/budget.py:439-510 | reading the thresholds blocks iff a positive total is used up, marks 100, 80 or 0 by exact fractions, and announces once, iff the mark rose |
| `Subscriptions.Due` | modules/cost/subscriptions.py:93-102 | exactly the uncancelled rows due, each once, by due day and then id |
| `Subscriptions.TickIsPrefix` | modules/cost/subscriptions.py:104-130 | one tick charges a prefix of the due list, each advancing by its period, and cancels the whole rest with due days unchanged; it charges none iff the first is not affordable |
| `Subscriptions.PrefixSpends` | modules/cost/subscriptions.py:104-130 | what is spent grows by exactly the amounts of the charged prefix |
| `Subscriptions.DayTick` | modules/cost/subscriptions.py:104-130 | both for the tick of a day over the whole table |
| `Subscriptions.ChargesAreRecorded` | modules/cost/subscriptions.py:104-130 | over every run, ticks that die between a charge and its row's update included: a subscription is charged exactly as often as its due day moves on by a period, and once more for each charge left unrecorded |
| `Subscriptions.ScheduleIsKeptIff` | modules/cost/subscriptions.py:104-130 | over every run, whichever days are ticked: the due day d0 has moved on at most floor((d - d0) / period) + 1 times, d being the highest day whose tick got to the subscription, and exactly that often iff it is now due after d |
| `Subscriptions.ScheduleIsExact` | modules/cost/subscriptions.py:104-130 | if no day is skipped from before its due day d0 on, however often days come again and ticks die, a subscription not cancelled in the end was charged floor((d - d0) / period) + 1 times and once more for each charge left unrecorded, and is next due after d: on schedule iff none is unrecorded |
| `Subscriptions.ChargedTwice` | modules/cost/subscriptions.py:113-125 | the concrete case: a tick dies after booking, the day is ticked again, and one day is charged twice |
| `SubscriptionOutcomes.DueIs` | modules/cost/subscriptions.py:93-102 | the due list holds each row not cancelled and due by then, once, by due day and then id |
| `SubscriptionOutcomes.AtItsTurn` | modules/cost/subscriptions.py:111-130 | each due row at its turn, with what those before it left: if its amount fits, exactly that is booked under its name and category and it is due one period later; otherwise nothing is spent, the budget is blocked and the row cancelled with its due day unchanged |
| `SubscriptionOutcomes.DiesThere` | modules/cost/subscriptions.py:111-130 | a tick that dies leaves the rows from its place on alone, but for the one charge it may have booked there |
| `SubscriptionOutcomes.AddedAndRemoved` | modules/cost/subscriptions.py:39-80 | adding, removing and budget operations touch no other subscription; one that is removed keeps its due day |
| `Subscriptions.SubscriptionLedger.AddSubscription` | modules/cost/subscriptions.py:39-73 | refuses a non-positive period, else adds one row |
| `Subscriptions.SubscriptionLedger.RemoveSubscription` | modules/cost/subscriptions.py:75-80 | cancels the row |
| `Subscriptions.SubscriptionLedger.OnDayTick` | modules/cost/subscriptions.py:104-130 | does to budget and table what the tick of the model does, wherever it dies: after any number of due rows, before or after charging the next |
| `Subscriptions.SubscriptionLedger.SettleAll` | modules/cost/subscriptions.py:111-130 | the loop over the due rows is the fold of the model |
| `Approvals.RunKeepsQueue` | modules/approvals/service.py:113-457 | over every run: terminal rows never change, and no row changes what it asks for; a request has one DECIDED or TIMEOUT event if terminal and none before; approved rows that need security have its approval; a security veto is final |
| `Approvals.StepKeepsQueue` | modules/approvals/service.py:196-347 | the same for one step |
| `Approvals.SweepIsComplete` | modules/approvals/service.py:414-457 | a sweep leaves no pending row expired at its time, and a second sweep then changes nothing |
| `Approvals.PendingIsShownOnce` | modules/approvals/service.py:360-379 | a pending row is shown to exactly one decider, or, if routed to SECURITY, to nobody |
| `ApprovalService.ApprovalQueue.Request` | modules/approvals/service.py:113-192 | idempotent on the id: the row that is there or a fresh pending one |
| `ApprovalService.ApprovalQueue.Decide` | modules/approvals/service.py:196-304 | two-stage decision: denied iff denied, approved iff approved with nothing open, else pending; not found, conflict and repeat told apart |
| `ApprovalService.ApprovalQueue.Cancel` | modules/approvals/service.py:308-348 | cancels pending rows only |
| `ApprovalService.ApprovalQueue.ProcessTimeouts` | modules/approvals/service.py:414-457 | exactly the expired rows end, SECURITY_FLAG as denied, each with one event |
| `ApprovalService.ApprovalQueue.PendingFor` | modules/approvals/service.py:360-379 | exactly the rows the decider is shown, each once, oldest first |
| `ApprovalOutcomes.DecidedIs` | modules/approvals/service.py:196-304 | a decision on a pending row ends it as denied iff it denies, leaves it pending iff it approves while security's decision is open, and approves it otherwise; what ends is announced with its decision and decider |
| `ApprovalOutcomes.OnlyPendingChanges` | modules/approvals/service.py:196-348 | a decided row stays as it is, and so does an unknown one |
| `ApprovalOutcomes.CancelledIs` | modules/approvals/service.py:308-348 | cancelling ends a pending row and is announced as a denial |
| `ApprovalOutcomes.RequestedIs` | modules/approvals/service.py:113-192 | a fresh request is undecided and says what was asked, by whom, of whom and until when, security joining in for money and the outside world; times in literal seconds |
| `ApprovalOutcomes.SweptIs` | modules/approvals/service.py:414-457 | a sweep ends exactly the pending rows whose time has come: security flags as denied, all others as timed out |
| `ApprovalOutcomes.RunTells` | modules/approvals/service.py:113-457 | over every run a request is approved iff the log has a decision approving it, and one with a denying decision in the log is denied or cancelled |
| `Holds.HoldAndRelease` | modules/cost/budget.py:228-281 | reserving and releasing leaves the open set and the money as they were |
| `Holds.HoldAndCommit` | modules/cost/budget.py:228-386 | reserving and committing spends exactly the amount, or nothing if the reservation used up a positive total exactly; either way nothing stays open |
| `Holds.HoldAndDie` | modules/cost/budget.py:228-275 | a process that dies with a reservation leaves it open, and with it the amount out of reach; nothing is spent |
| `Tools.ToolService.constructor` | modules/tools/service.py:82-114 | a new process has no results and no tools, over the expenses, approvals and events there are |
| `Tools.ToolService.Invoke` | modules/tools/service.py:173-349 | cached ids answer from the cache and touch nothing; otherwise the first failing gate answers with its own code, or what the execution comes to; the only request ever put is for this agent, tool and arguments; open reservations as before; spent grows by exactly the reported cost; results cached except a pending approval; on its way it passes exactly the worlds of its trail |
| `Tools.TrailHasStages` | modules/tools/service.py:249-327 | the worlds between the transactions of a call: money held, approval asked for, execution announced, money paid, each exactly where the call gets that far |
| `Tools.ToolService.PastHold` | modules/tools/service.py:256-349 | the part of it that runs with the estimate held |
| `Tools.ToolService.Admit` | modules/tools/service.py:258-276 | with the estimate held: asks for approval if needed, releases or goes on |
| `Tools.ToolService.TurnAway` | modules/tools/service.py:265-276 | a pending approval releases and is not cached, a denied one releases and is |
| `Tools.ToolService.HandleApproval` | modules/tools/service.py:353-374 | puts the request once, by the tool's kind, to the board; approved, pending or denied as the row with this id stood before |
| `Tools.ToolService.Execute` | modules/tools/service.py:278-349 | one start and one finish event, and the hold released or committed on every path |
| `Tools.ToolService.Fail` | modules/tools/service.py:376-406 | a failure is announced and cached |
| `Tools.ToolService.Register` | modules/tools/service.py:133-138 | a name is registered once |
| `Tools.SuccessNeedsAll` | modules/tools/service.py:184-349 | remark, by definition: an uncached call succeeds iff every gate passes, the approval stands, the estimate fits, the executor returns and the reservation did not use up a positive total exactly; then at the estimated cost |
| `ToolOutcomes.ExecutesIff` | modules/tools/service.py:184-276 | the executor is reached iff every gate is open and the request, where one is needed, stands approved |
| `ToolOutcomes.AnswerHolds` | modules/tools/service.py:184-349 | every answer to an uncached call is true: of a failure the gate it names is closed, of a success all were open, the executor returned and the cost is the estimate |
| `ToolOutcomes.InvokedLeaves` | modules/tools/service.py:278-406 | what a call leaves in cache and log: a run announced and finished as it ended, anything else announced as denied, all of it cached but a pending approval; one expense of its cost for a success, and nothing held after |
| `ToolOutcomes.InvokedAsks` | modules/tools/service.py:353-374 | a request is put iff the tool needs one and the id has none: to the board, for this agent, tool and arguments, as an expense or an external action as the tool says |
| `ToolOutcomes.DeathLeaves` | modules/tools/service.py:249-327 | what a process leaves that dies in the middle of a call, stage by stage: the estimate held, or paid unless the hold used up a positive total exactly; the request there from the approval on; the start announced; nothing cached |
| `ToolRuns.RunIsSafe` | modules/tools/service.py:173-406 | over every run with the budget and approvals moving in between, processes ending anywhere, in the middle of a call too: where a gated tool ran its approval stands approved, by security too if the pipeline created it; nothing registered or asked for changes, decided approvals stay |
| `ToolRuns.BothLegsBeforeRunning` | modules/tools/service.py:258-276 | where nobody else puts requests with an id, the executor of a gated tool ran for it only if that request stands approved by the board and by security |
| `ToolOutcomes.RefusedNeverRuns` | modules/tools/service.py:258-276 | over every run, processes that end included, a gated tool has run for an id only if a decision approving it is in the log, and never if a denial, cancellation or timeout of its request is |
| `ToolOutcomes.AnsweredAsRequestStands` | modules/tools/service.py:258-374 | at any time of any run, a gated call whose other gates are open is answered by its request's status: refused and cached once denied, cancelled or timed out, told to wait and not cached while pending or not put yet, run when approved |
| `ToolRuns.RunsWhatWasApprovedIff` | modules/tools/service.py:353-374 | a gated call running under a request that some earlier operation put runs what was approved, agent, tool and arguments, iff that operation wanted these: later calls are not compared with the request |
| `ToolRuns.ApprovedCallRan` | modules/tools/service.py:353-374 | where all that use an id, or put a request with it, name one tool and one text of arguments, only that runs, and it is what the request names |
| `ToolRuns.OtherToolRuns` | modules/tools/service.py:361-374 | the concrete case: tool a approved, gated tool b run under the same id |
| `ToolRuns.OtherArgumentsRun` | modules/tools/service.py:361-374 | the concrete case: approved with arguments that cost 1, run with arguments that cost 3 |
| `ToolOnce.RunsOncePerProcess` | modules/tools/service.py:113-114 | over every run, an id's executor runs at most once, and at most once more for every process that ended with its result or after starting it: the cache is the process's own |
| `ToolOnce.EarlierRunsAreForgotten` | modules/tools/service.py:183-187 | where a call runs, its id has not run since the process began |
| `ToolOnce.ChargedOncePerProcess` | modules/tools/service.py:183-349 | over every run in which nobody else books in its name, an id is charged exactly once for its paid result in the cache and once for every process that ended having charged it |
| `ToolOnce.RunsAgainIff` | modules/tools/service.py:183-256 | a call that ran once runs again, any time later in any run, iff its id is not in the cache then and its estimate is affordable |
| `ToolOnce.ChargedTwice` | modules/tools/service.py:113-114 | the concrete case: called, restarted, called again with the same id: run and charged twice |
| `ToolOnce.SpentIsAccounted` | modules/tools/service.py:249-349 | while only the pipeline moves money, spent is the sum of the cached costs, each id once, and of what the processes that ended had spent; the open reservations are those of the start and one for each process that died with money held |
| `Connector.ConnectorService.constructor` | modules/connector/connector.py:72-91 | a new process has no results, over the expenses, approvals and events there are |
| `Connector.ConnectorService.Call` | modules/connector/connector.py:166-309 | as for tools, first failing gate and its code included, with the rate limit taken first and every failure cached but a rate limit; executor attempts only where everything admits the call, and with no approval standing only at LOW risk within a set threshold; on its way it passes exactly the worlds of its trail |
| `Connector.TrailHasStages` | modules/connector/connector.py:222-292 | the worlds between the transactions of a call: approval asked for, money held, money paid, each exactly where the call gets that far |
| `Connector.ConnectorService.PastRate` | modules/connector/connector.py:222-309 | the part of it behind the rate limit |
| `Connector.ConnectorService.Admit` | modules/connector/connector.py:222-309 | from the approval on: hold, execute, sanitize, commit |
| `Connector.ConnectorService.EvaluateApproval` | modules/connector/connector.py:313-353 | auto-approved only at LOW risk within the threshold; every other call leaves a row under its id and is approved iff that stood approved before |
| `Connector.ConnectorService.ExecuteWithRetry` | modules/connector/connector.py:355-372 | succeeds iff a permitted attempt returns after only transient failures; at most 3 attempts, 1 if not idempotent |
| `Connector.ConnectorService.Spend` | modules/connector/connector.py:246-309 | approved: held if affordable, then executed |
| `Connector.ConnectorService.Execute` | modules/connector/connector.py:256-309 | the hold is released or committed on every path |
| `Connector.ConnectorService.Fail` | modules/connector/connector.py:397-426 | failures are cached for good, except a rate limit |
| `Connector.SuccessNeedsAll` | modules/connector/connector.py:177-309 | remark, by definition: an uncached call succeeds iff it is known, allowed, well-formed, within the rate, approved and affordable, a permitted attempt returns, the output is well-formed and the reservation did not use up a positive total exactly |
| `ConnectorOutcomes.ExecutesIff` | modules/connector/connector.py:177-254 | the executor is reached iff every gate is open, the call fits the money, and its request stands approved unless the service is of LOW risk and the estimate within a set threshold |
| `ConnectorOutcomes.AnswerHolds` | modules/connector/connector.py:177-196 | an uncached call is told that service or action is unknown iff it is |
| `ConnectorOutcomes.OfferedAnswerHolds` | modules/connector/connector.py:196-220 | for an action that is offered, the next three failures are told iff their gate is the first that is closed, the rate limit last |
| `ConnectorOutcomes.AdmittedAnswerHolds` | modules/connector/connector.py:222-309 | past the rate limit, each answer, from the denied approval to success at the estimate, is given iff request, budget, executor and sanitizer are as it says |
| `ConnectorOutcomes.CalledLeaves` | modules/connector/connector.py:176-426 | one event that says how the call ended, its result cached but for a pending approval and a rate limit, and at most 3 attempts, 1 if the action is not idempotent |
| `ConnectorOutcomes.CalledSpends` | modules/connector/connector.py:246-309 | one expense of its cost under its id for a success, nothing otherwise, and nothing held after |
| `ConnectorOutcomes.CalledTakesToken` | modules/connector/connector.py:216-220 | one token from the bucket of its own service and action, whatever comes of the call, once service, action and arguments are in order; from no other |
| `ConnectorOutcomes.CallAsksIff` | modules/connector/connector.py:313-353 | a request is put iff the call gets past the rate limit, is not of LOW risk within its threshold, and its id has none; so every other call past the rate limit leaves a row under its id |
| `ConnectorOutcomes.DeathLeaves` | modules/connector/connector.py:222-292 | the same at the gateway, where the request comes before the money and nothing is announced |
| `ConnectorOutcomes.TriedBeforeDeath` | modules/connector/connector.py:355-372 | how often a call that dies can have tried its executor: never while it asked, up to three times or once with the money held, once at least when paid |
| `ConnectorOutcomes.RestartLeaves` | modules/connector/connector.py:72-91 | a new process starts with no results and full buckets, over the money, requests and log there are |
| `ConnectorRuns.RunIsSafe` | modules/connector/connector.py:166-426 | over every run, processes ending anywhere: an action not auto-approved ran only with its approval standing, by security too if the gateway created it; decided approvals stay |
| `ConnectorRuns.RunsWhatWasApprovedIff` | modules/connector/connector.py:313-353 | a call running under a request that some earlier operation put runs what was approved, agent, service, action and arguments, iff that operation wanted these |
| `ConnectorRuns.ApprovedCallRan` | modules/connector/connector.py:313-353 | where all that use an id, or put a request with it, want one service, action and arguments, the request under that id is for these |
| `ConnectorRuns.OtherArgumentsRun` | modules/connector/connector.py:336-350 | the concrete case: approved with arguments that cost 1, run with arguments that cost 3 |
| `ConnectorOnce.TriedOncePerProcess` | modules/connector/connector.py:90-91 | over every run, at most 3 executor attempts per id, in one call, and at most 3 more for every process that ended with its result or after starting it |
| `ConnectorOnce.EarlierAttemptsAreForgotten` | modules/connector/connector.py:176-180 | where a call starts its executor, its id has not been tried since the process began |
| `ConnectorOnce.ChargedOncePerProcess` | modules/connector/connector.py:176-309 | an id is charged exactly once for its paid result in the cache and once for every process that ended having charged it |
| `ConnectorOnce.RunsAgainIff` | modules/connector/connector.py:176-254 | a call that reached its executor once reaches it again, any time later in any run, iff its id is not in the cache then, the rate limit lets it through and its estimate is affordable |
| `ConnectorOnce.RestartRunsAgain` | modules/connector/connector.py:90-91 | the concrete case: a cached answer, a restart, and the approved call runs again |
| `ConnectorRuns.BothLegsBeforeRunning` | modules/connector/connector.py:313-353 | the same for actions that are not auto-approved |
| `ConnectorOutcomes.RiskyRunsAreApproved` | modules/connector/connector.py:313-353 | over every run, whenever a call started the executor of a service not of LOW risk, or of an action without a threshold, or above it, the request of its id stands approved, by security too if the gateway created it: the threshold alone never opens a riskier service |
| `ConnectorOutcomes.RiskyRunsHaveBothLegs` | modules/connector/connector.py:313-353 | and where nobody but the gateway puts requests with the id, by both legs |
| `ConnectorOnce.SpentIsAccounted` | modules/connector/connector.py:246-309 | while only the gateway moves money, spent is the sum of the cached costs and of what the processes that ended had spent; the open reservations are those of the start and one for each process that died with money held |
| `TokenBucket.WindowBound` | modules/connector/rate_limit.py:39-57 | in any window of requests at most capacity + refill * elapsed are granted |
| `TokenBucket.TokensAreConserved` | modules/connector/rate_limit.py:39-57 | tokens left plus requests granted never exceed the start plus what flowed in |
| `TokenBucket.RetryTimeIsRight` | modules/connector/rate_limit.py:48-55 | waiting the reported time gets a token iff capacity >= 1 and refill >= 1e-9 |
| `TokenBucket.GrantedIff` | modules/connector/rate_limit.py:39-57 | a request is granted iff the bucket can hold a token and one is there or has flowed in since; a clock set back adds none |
| `TokenBucket.TokensAreAccounted` | modules/connector/rate_limit.py:39-57 | over any run every token that was there or flowed in is still there, was granted, or found the bucket full: none is lost otherwise |
| `TokenBucket.BurstIsGranted` | modules/connector/rate_limit.py:39-57 | as many requests as there are tokens are all granted, however fast they come |
| `TokenBucket.RateLimiter.Configure` | modules/connector/rate_limit.py:32-37 | a configured service starts full |
| `TokenBucket.RateLimiter.Acquire` | modules/connector/rate_limit.py:39-57 | refill, then take one or report the wait; other services untouched |
| `LinkWindow.LinkRateHolds` | modules/inter_company/service.py:363-380 | the window holds exactly the accepted timestamps of the last hour, and accepted sends i and i + cap are more than 3600 s apart |
| `LinkWindow.AcceptedIff` | modules/inter_company/service.py:363-380 | after any attempts, under whatever caps the link had then, the next one goes through iff the link is unlimited or fewer than `cap` messages were accepted in the 3600 s up to it |
| `LinkWindow.LinkRates.EnforceRate` | modules/inter_company/service.py:363-380 | prunes from the front, then accepts or refuses; other links untouched |
| `Mail.RunConservesMail` | modules/orchestrator/orchestrator.py:203-305 | over every run of queueing, dispatching, rotating and restarting, whatever agents take: each message is in exactly one of its recipient's queue, delivered, dead and lost with a process; it was tried as often as recorded, at most 3 times; delivered after failures only, dead after exactly 3; no process queues a recipient two messages with one tag |
| `Mail.NoMailOk` | modules/orchestrator/streams.py:21-26 | remark, by definition: the first process starts with all of that, as one after a process that left nothing |
| `Mail.RestartOk` | modules/orchestrator/streams.py:21-26 | a restart loses what waits and the dead letters, which are in memory, and nothing else |
| `Mail.FateOfMessage` | modules/orchestrator/orchestrator.py:259-282 | a message neither pending nor lost is delivered iff one of its three possible attempts succeeds, dead iff none does |
| `Mail.SeenIsSent` | modules/orchestrator/streams.py:55-58 | in every reachable state a tag has been seen by an agent iff a message with it has been queued for the agent since the process started |
| `Mail.TriedOk` | modules/orchestrator/orchestrator.py:259-282 | one attempt keeps all of that |
| `Mail.TurnWorks` | modules/orchestrator/orchestrator.py:293-302 | a turn uses up at least one remaining attempt of its agent's queue or leaves it empty, and touches no other queue |
| `Orchestration.MessageQueue.Push` | modules/orchestrator/streams.py:49-59 | to the tail of the recipient's bucket, the tag remembered |
| `Orchestration.MessageQueue.Pop` | modules/orchestrator/streams.py:61-68 | from the head; a missing bucket appears empty |
| `Orchestration.MessageQueue.HasCorrelation` | modules/orchestrator/streams.py:73-74 | whether the tag was ever queued for the recipient |
| `Orchestration.MessageQueue.ToDlq` | modules/orchestrator/streams.py:76-85 | appended to the dead letters |
| `Orchestration.SendQueuesAtMostOne` | modules/orchestrator/orchestrator.py:165-240 | a send queues nothing or one envelope with a fresh id and a tag new to its recipient, only while accepting, only for an active, registered, unsuspended agent and a text that fits; a refused send queues at most a system notice |
| `Orchestration.Orchestrator.constructor` | modules/orchestrator/orchestrator.py:58-92 | a new process: nothing queued or seen, nobody registered, suspended or struck, whatever the last one left behind |
| `Orchestration.Orchestrator.Register` | modules/orchestrator/orchestrator.py:99-102 | registering again keeps an agent's place in the rounds |
| `Orchestration.Orchestrator.Send` | modules/orchestrator/orchestrator.py:165-240 | answers by the first closed gate in the source's order; queues the message iff all are open, under its own sender, recipient, text and tag; one notice for an undeliverable recipient or a rate limit; the third loop strike suspends |
| `MailOutcomes.QueuedIff` | modules/orchestrator/orchestrator.py:165-206 | a message is queued iff its text fits, its recipient can receive, the company accepts, its sender may speak, and it is no repeat |
| `MailOutcomes.RefusalHolds` | modules/orchestrator/orchestrator.py:165-206 | every refusal is true: the gate it names is closed, and those looked at before are open |
| `MailOutcomes.SendCarries` | modules/orchestrator/orchestrator.py:208-240 | an accepted send puts its own message in the mail, under its sender, to its recipient, with its text and tag; a refused one at most the notice to its sender, from the system |
| `MailOutcomes.UnreachableIsTold` | modules/orchestrator/orchestrator.py:426-431 | a sender whose recipient is inactive or suspended is told so whenever a system message reaches it |
| `MailOutcomes.TooFastIsTold` | modules/orchestrator/orchestrator.py:433-441 | and so is one that is too fast |
| `MailOutcomes.HeardAsSent` | modules/orchestrator/orchestrator.py:165-305 | over every run of sends, turns and restarts, whatever is delivered, waiting or dead has the sender, recipient, text and tag of one accepted message, or is a notice about a refused one: nobody is heard under another name |
| `MailOutcomes.TraceIsRun` | modules/orchestrator/orchestrator.py:165-305 | every run of sends, turns and restarts is a run of the mail, so all that is proved of those holds of it |
| `MailOutcomes.ThirdStrikeSuspends` | modules/orchestrator/orchestrator.py:412-424 | an agent is suspended iff loops were found for it three times, however they alternate with those of others |
| `Orchestration.Orchestrator.Notify` | modules/orchestrator/orchestrator.py:426-441 | a system message, queued iff its own gates are open |
| `Orchestration.Orchestrator.HandleLoop` | modules/orchestrator/orchestrator.py:412-424 | one strike more; three suspend |
| `Orchestration.Orchestrator.Dispatch` | modules/orchestrator/orchestrator.py:259-282 | delivered, or queued again with one attempt more, or dead after the third |
| `Orchestration.Orchestrator.Round` | modules/orchestrator/orchestrator.py:293-302 | one turn per registered agent; without progress while accepting, all registered queues are empty |
| `Orchestration.Orchestrator.Drain` | modules/orchestrator/orchestrator.py:284-305 | while accepting, every registered agent whose queue has no more attempts left than rounds are allowed ends with an empty queue; the count is that of attempts, failed ones included; while paused nothing is dispatched and each head moves to the tail |
| `MailOutcomes.AttemptsLeft` | modules/orchestrator/orchestrator.py:259-282 | a queue of n envelopes has at most 3 n attempts left, exactly that many if none was tried: so that many rounds empty it |
| `Outbox.OutboxService.DeliverPending` | modules/inter_company/service.py:225-290 | the company's mail gains exactly one envelope per row that becomes DELIVERED, in order of creation, over links approved by then and to where they should go, none while paused; while accepting no row stays waiting but those whose text cannot be encoded; other rows untouched; the count is that of rows settled; stops with an error only at a row whose link is unknown |
| `Outbox.OutboxService.DeliverOne` | modules/inter_company/service.py:246-288 | one row: refused for its link or for want of an inbox agent, or answered as the orchestrator answers |
| `Outbox.RowEnds` | modules/inter_company/service.py:246-288 | a replayed row whose link is not approved by then, or that has nobody to receive it, is rejected for that and sends nothing; otherwise it is delivered, its text going out once under the row's id, left as it was, or rejected for a true reason |
| `Outbox.QueuedOnce` | modules/inter_company/service.py:262-288 | a message that the target's process has queued is not queued by it again even if its row was never updated: the mail stays as it is and the row does not become DELIVERED |
| `Outbox.DeliveredIff` | modules/inter_company/service.py:262-288 | a replayed row becomes DELIVERED iff its text is well-formed and fits, its target is active, registered and not suspended, the company accepts messages, and the target's process has not queued it before |
| `Outbox.RejectedThoughQueued` | modules/inter_company/service.py:262-288 | a replayed row ends REJECTED with its message in the mail of the target's process iff that process had queued the message before and this replay does not leave the row waiting (text that cannot be encoded, or nothing but the pause in its way) |
| `Outbox.ReplayedTwice` | modules/inter_company/service.py:262-288 | the concrete case: two replays without the update in between, delivered and then refused as a duplicate |
| `Outbox.ReplayedAcrossRestart` | modules/inter_company/service.py:262-288 | the concrete case with a restart of the target's process in between: queued twice |
| `Utf8.DecodeOfEncode` | modules/inter_company/service.py:71-77 | decoding the UTF-8 of a text (section 3 of RFC 3629) gives the text back |
| `Utf8.FirstIsEncoded` | modules/inter_company/service.py:76 | nothing else decodes: only the encoding of a character that is no surrogate, in its shortest form |
| `Utf8.ExamplesOfTheStandard` | modules/inter_company/service.py:71-77 | the examples of section 7 of RFC 3629 |
| `Utf8.CutDecodes` | modules/inter_company/service.py:75-76 | cutting the bytes anywhere and decoding with errors ignored loses the one character cut and no other |
| `Utf8.TruncatedDropped` | modules/inter_company/service.py:76 | dropping a truncated character whole is the same as dropping it byte by byte |
| `Sanitizing.SanitizeIsLongestFit` | modules/inter_company/service.py:71-77 | the result is the longest prefix of the text without control characters whose encoding fits; an error iff there is a lone surrogate |
| `Sanitizing.SanitizeIsIdempotent` | modules/inter_company/service.py:71-77 | sanitizing twice changes nothing more |
| `Sanitizing.SanitizeIsMonotone` | modules/inter_company/service.py:71-77 | a larger budget keeps at least as much |
| `Sanitizing.CleanedInOrder` | modules/inter_company/service.py:60-72 | character by character and in order: each control vanishes, each other character stays |
| `Clocks.CompanyTimeFromStart` | modules/clock/clock.py:160-225 | for wall readings that never go back and a fixed rate, now_company is the start plus factor times the time on a stopwatch that only pauses stop: through any interleaving of readings, pauses, resumes, pumps and restarts |
| `Clocks.CompanyTimeIsRunningTime` | modules/clock/clock.py:160-225 | the same from any state the stopwatch agrees with |
| `Clocks.RestartKeepsTime` | modules/clock/clock.py:89-180 | any restart, in a pause or running: the time shown never rises, and stays the same iff the wall is not before the start of the pause it is in (or nothing had elapsed) and the clamp, which is not in the row, was not holding the time up |
| `Clocks.RestartShows` | modules/clock/clock.py:89-131 | what a new process first shows, from the row and the wall alone: a time shown before is taken back iff this lies below it |
| `Clocks.RestartForgetsClamp` | modules/clock/clock.py:169-171 | the concrete case: the wall falls, then a pause; a restart later than the pause's start still halves the time shown |
| `Clocks.RunningRestartLosesTime` | modules/clock/clock.py:115-120 | the concrete case without a pause |
| `Clocks.RestartLosesTime` | modules/clock/clock.py:122-131 | the concrete case: wall set back across a restart halves the company time shown |
| `Clocks.TimeNeverFalls` | modules/clock/clock.py:160-172 | within one process the time shown never falls, for arbitrary wall readings |
| `Clocks.TicksAreDays` | modules/clock/clock.py:238-247 | over every run, with arbitrary wall readings, the DAY_TICK events are exactly 1 .. last_day_ticked iff no pump died between appending and persisting; each event such a pump appended is one too many |
| `Clocks.RunSkipsNone` | modules/clock/clock.py:238-247 | over every run, dying pumps and any wall readings included, no day is skipped: each is at most one above the highest before it, and the row is never ahead of the log |
| `ClockOutcomes.DaysComeWhenDue` | modules/clock/clock.py:238-247 | over every run, dying pumps and any wall readings included, each day d in the log was announced by a pump that showed at least d * 86400 s since the company's start: no day comes early |
| `ClockOutcomes.AllDueAnnounced` | modules/clock/clock.py:238-247 | after a pump that lives, at any point of any run, every day that has come by the time shown is in the log and at most the row's last day |
| `ClockOutcomes.DiesAnywhere` | modules/clock/clock.py:243-247 | a pump may die after any number of the days it has to announce: they stay in the log and the row does not know of them |
| `ClockOutcomes.PhasesMove` | modules/clock/clock.py:187-225 | only a pause leaves the running phase and only a resume comes back to it; a pause is complete once the agents are idle |
| `ClockOutcomes.PausesAreMarked` | modules/clock/clock.py:187-213 | a pause starts where the wall reads, once, and ends with the resume |
| `Clocks.DayAnnouncedTwice` | modules/clock/clock.py:244-247 | the concrete case: day 1 announced twice |
| `Clocks.Clock.constructor` | modules/clock/clock.py:89-131 | a first start writes a fresh row; a later one restores it, a gap in a pause counting as paused |
| `Clocks.Clock.NowCompany` | modules/clock/clock.py:160-180 | frozen in a pause, clamped to what was shown before |
| `Clocks.Clock.Pause` | modules/clock/clock.py:187-198 | running to pausing, to paused if idle; repeated pauses do nothing |
| `Clocks.Clock.Resume` | modules/clock/clock.py:200-213 | the pause's length, never negative, is added to the paused total |
| `Clocks.Clock.MaybeFinalisePause` | modules/clock/clock.py:215-225 | pausing to paused iff idle |
| `Clocks.Clock.PumpOnce` | modules/clock/clock.py:229-236 | the same day ticks, then the pause if the agents are idle |
| `Clocks.Clock.EmitDayTicks` | modules/clock/clock.py:238-247 | one event per day, in order: for exactly the days d after the row's last one with epoch + d * 86400 s at most the time shown; then the row |
| `ClockSchedule.ClockDrivesSchedule` | modules/clock/clock.py:238-247 | driven by the ticks of any run of the clock, ticks dying where the pump that announced them dies: a subscription in the table from any point on, due on a day not ticked before and not cancelled in the end, was charged on schedule up to the highest day that got to it and once more for each charge left unrecorded; that day is at least last_day_ticked and at most the highest day ticked, and is the latter if no tick died |
| `Clocks.DeadDaysComeAgain` | modules/clock/clock.py:238-247 | in the log of any run each day is at most the one after the day before it, and not even that after the last event of a pump that died |
| `Workspaces.NeverUnderCountsIff` | modules/storage/workspace.py:134-417 | over a run the cached used_bytes is at least the bytes on disk all along, for every agent, iff no write leaves more bytes uncounted than the row over-counts by then |
| `Workspaces.StepKeepsCacheIff` | modules/storage/workspace.py:196-370 | the same for one operation |
| `Workspaces.RunNeverUnderCounts` | modules/storage/workspace.py:134-417 | so it holds over every run whose failed writes remove their temporary file and whose writes are recorded |
| `Workspaces.BytesStranded` | modules/storage/workspace.py:275-279 | the concrete case: replacing and removing the temporary file both fail, 5 bytes are there and none counted |
| `Workspaces.StepDrift` | modules/storage/workspace.py:196-370 | an operation changes an agent's over-count by exactly the bytes that go but stay counted (a file where the temporary one goes, an unrecorded deletion), less those that come uncounted (a temporary file that cannot be removed, an unrecorded write), plus what a deletion stopping at zero forgives |
| `Workspaces.DriftIsConsumed` | modules/storage/workspace.py:239-370 | between reconciliations a row drifts by exactly the sum of these, so an exact cache stays exact iff they balance |
| `Workspaces.TemporaryFileConsumed` | modules/storage/workspace.py:271-284 | the concrete case: writing a loses a.tmp, whose bytes stay counted |
| `Workspaces.RunStaysWithinQuota` | modules/storage/workspace.py:239-284 | while no limit is set below what is used and what writes leave behind is covered, the bytes on disk stay within each agent's quota and all together within the company's |
| `Workspaces.ReconcileIsExact` | modules/storage/workspace.py:374-401 | remark, by definition: reconciled numbers are the real ones and no file moves; that the code computes this is Workspace.ReconcileQuota |
| `WorkspaceOutcomes.LetThroughIff` | modules/storage/workspace.py:239-262 | a write is let through iff its result fits both quotas, the replaced file's size deducted; a refusal names one it does not fit |
| `WorkspaceOutcomes.WrittenIs` | modules/storage/workspace.py:239-307 | a write that goes through leaves its file with the new size, no temporary file, every other file alone, and the difference counted; a refused one changes nothing |
| `WorkspaceOutcomes.FailedWriteIs` | modules/storage/workspace.py:263-284 | one that fails half way leaves the file and the row as they were, one that goes unrecorded the row |
| `WorkspaceOutcomes.WriteAnnounces` | modules/storage/workspace.py:239-307 | refusals are announced with what the write would have come to, and crossing nine tenths of a quota upwards is, once |
| `WorkspaceOutcomes.DeletedIs` | modules/storage/workspace.py:356-370 | a deletion takes the file and, where recorded, its size off the row, down to nothing at most |
| `WorkspaceOutcomes.ProvisionedIs` | modules/storage/workspace.py:134-184 | a new workspace starts empty with its quota in bytes, one that exists keeps what it holds and counts, unsafe ids and negative quotas are refused |
| `WorkspaceOutcomes.ReconciledIs` | modules/storage/workspace.py:374-401 | reconciling counts in every row what its directory holds and reports exactly the rows that were off, by how much |
| `WorkspaceOutcomes.DriftIsAnnounced` | modules/storage/workspace.py:374-401 | each reported row is announced once, with its change |
| `WorkspaceOutcomes.RemovedAndLimited` | modules/storage/workspace.py:186-192 | removing takes the row and the files of one agent; setting limits changes quotas, in bytes, and nothing else |
| `Workspaces.Workspace.CreateForAgent` | modules/storage/workspace.py:134-152 | refuses bad ids, negative quotas and existing rows |
| `Workspaces.Workspace.EnsureForAgent` | modules/storage/workspace.py:154-184 | keeps the usage of an existing row and refreshes its quota |
| `Workspaces.Workspace.DeleteForAgent` | modules/storage/workspace.py:186-192 | row and directory go |
| `Workspaces.Workspace.Write` | modules/storage/workspace.py:196-307 | refused and reported over either quota, judged by the cache; else the file replaced, the temporary one consumed, the row updated, 90% crossings announced; a write that fails or goes unrecorded leaves the row alone, and the disk as the failure left it |
| `Workspaces.Workspace.Delete` | modules/storage/workspace.py:356-370 | the file goes and its size comes off the row, not below zero, unless that goes unrecorded |
| `Workspaces.Workspace.SumUsed` | modules/storage/workspace.py:234-237 | the sum over all rows |
| `Workspaces.Workspace.DirSize` | modules/storage/workspace.py:404-417 | the sum over all files of a directory |
| `Workspaces.Workspace.ReconcileQuota` | modules/storage/workspace.py:374-401 | every row set to its directory's size; exactly the differences returned and announced, once each |
| `Workspaces.Workspace.SetAgentLimit` | modules/storage/quota.py:67-85 | only the quota of an existing row changes |
| `Workspaces.Workspace.SetCompanyLimit` | modules/storage/quota.py:67-76 | only the company's quota changes |
| `Findings.RunKeepsBoard` | modules/efficiency/store.py:112-249 | over every run: at most one live finding per key, a closed finding never changes, and the log announces each opening exactly once and a closing iff it is closed, by a detector at most once |
| `Findings.StepKeepsBoard` | modules/efficiency/store.py:151-249 | the same for one step |
| `Reconciliation.Efficiency.Reconcile` | modules/efficiency/service.py:172-196 | afterwards the live keys of the detector are exactly those firing; live findings still firing were refreshed by each candidate in turn, the others closed, missing ones opened; all other rows as they were; one event per opening and per closing |
| `FindingOutcomes.ReconciledShowsLast` | modules/efficiency/service.py:172-196 | after a reconciliation every live finding of the detector shows severity and evidence of the last candidate of its key, and one occurrence more for each |
| `FindingOutcomes.ClosedIffSilent` | modules/efficiency/service.py:186-196 | a reconciliation closes exactly the findings of its detector that no candidate is about, and leaves closed ones and those of others alone |
| `FindingOutcomes.HeardOf` | modules/efficiency/store.py:151-206 | a finding that was heard of shows what the last candidate about it said and when, the last recommendation made, and one occurrence more for each; its opening and whether it was acknowledged stay |
| `FindingOutcomes.OpenedFor` | modules/efficiency/store.py:151-206 | one that was opened shows the same of the candidates about it, opened by the first |
| `FindingOutcomes.UpsertIs` | modules/efficiency/store.py:151-206 | a candidate of a key with a live finding can only refresh it, with one occurrence more; any other opens one, announced, with one occurrence |
| `FindingOutcomes.ByHandIs` | modules/efficiency/store.py:223-235 | acknowledging marks a live finding only; closing by hand ends any finding and announces it, even once more |
| `Reconciliation.Efficiency.HearAll` | modules/efficiency/service.py:175-184 | the first loop: candidates of other detectors ignored, each key refreshed or opened |
| `Reconciliation.Efficiency.Sweep` | modules/efficiency/service.py:186-196 | the second loop: exactly the live rows of the detector that do not fire are closed |
| `Reconciliation.Efficiency.FindOpen` | modules/efficiency/store.py:112-138 | the live finding of the key, if there is one |
| `Reconciliation.Efficiency.ListOpen` | modules/efficiency/store.py:140-147 | exactly the live findings of the detector, each once, in order of opening |
| `Reconciliation.Efficiency.Upsert` | modules/efficiency/store.py:151-206 | refreshes the open finding or opens one and announces it |
| `Reconciliation.Efficiency.Resolve` | modules/efficiency/store.py:208-221 | closes a live finding and announces it |
| `Reconciliation.Efficiency.Acknowledge` | modules/efficiency/store.py:223-235 | only live findings can be acknowledged |
| `Reconciliation.Efficiency.Close` | modules/efficiency/service.py:241-244 | closing by hand announces an already closed finding again |

## Left out

- Collaborators seen only through their answers: tool executors, connector executors and sanitizers, detectors, permission and schema checks, `deliver`, the loop detector and `try_consume`, the idle probe, company and link directories. Each is an arbitrary outcome given to the call; that an executor or an agent calls back into the kernel while it runs is not modelled.
- Two calls at once: one call, tick or replay ends, or dies, before the next begins. Two concurrent calls with one correlation id can both miss the result cache.
- Deaths of a process other than those of pumps, day ticks, tool and gateway calls between their transactions, replays and workspace writes; in particular between a transaction and the append of its event.
- A restart registers the same tools, services and rate limits as before.
- LinkWindow.LinkRateHolds: of one process, because the windows are in memory; a new one starts with empty windows.
- SQLite, migrations and locking. Tables start empty, with total 0, not blocked and last_warn_pct 0.
- Event appends are taken to succeed, except AGENT_REASSIGNED, which always raises in the source. Subscribers, broadcasts and the mirrored cross-company events are not modelled.
- Row ids drawn at random are the row's place in its table, and message ids the place in the sent log. Where a query orders by a random id, as the due subscriptions do, the row also carries where its id sorts.
- The text checks of reasons for reassigning and firing are one truth value; display fields of agents, memos of expenses and closing times of findings are not kept.
- The locale order of roles in the chart is any map from roles to integers.
- Money is whole units of 0.0001 USD and percentages are compared by cross-multiplication; Decimal contexts are not modelled, and a negative amount cannot be made (modules/cost/models.py:31-32).
- Times, tokens and company seconds are exact reals; binary floating point and the microseconds of `timedelta` are not modelled.
- TokenBucket.WindowBound: of one process, because the buckets are in memory and a new one starts with full ones; and for a bucket within its capacity, and capacity and refill that are not negative, as every configured limit is meant to be.
- `complete_fire` and `_enqueue_pending_fire` of the org, and the factory's repair of managers, which ignores the CEO's limit (modules/factory/bootstrap.py:480-485): the span of control is proved of the org's own methods.
- Exceptions from a tool's or an action's cost estimator, ToolError included, and exceptions other than ToolError from a permission check: none is caught, and each ends the call before anything is held. Tools registered without an executor.
- Arguments are one text, compared as a whole; what a payload derives from them, the estimated cost and the risk, is not kept apart.
- Registering connector services and setting their thresholds: the registry of a gateway is fixed.
- `unregister`, `suspend`, `resume`, the sweeps and the consumer tasks of the orchestrator; the queue's switch for being unavailable; a pause that begins in the middle of one drain.
- Who decides an approval: `decide` compares the decider with nobody, and neither does the model. The kind of a message and the time it was queued are not kept.
- `send_cross` apart from its sanitizing and its rate limit; link and company management.
- Files are keyed by their resolved path and known by their size; path resolution, symbolic links, directories as targets and reading are not modelled. A process that dies inside the creation or removal of a whole workspace.
- HTTP, the user interface other than `layout`, LLM clients, secrets, authentication and memory: input, output and presentation around the kernel.

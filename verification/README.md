# Charging quota, rules and rating: a verified model

This project models the part of an online charging system in which mistakes cost money: the quota
ledger of a subscriber, the rule evaluator, and the rating and accounting code around the ledger. It
proves what that code promises.

## The system in brief

A subscriber's **quota** is a list of **counters**. A counter has a balance (service units or money), a
map of live **reservations**, perhaps a loan, an expiry and a priority. Calls of the quota manager
reserve units (service units first, then money with tax), debit used units against a reservation,
release a reservation, provision a counter (which may pay outstanding loans) and expire what is past.
Every call runs in one loop: load the row, expire, operate, expire again, and save on condition that
the version loaded is still the one stored.

A **session** holds grants: for each, the id of the reservation that backs it and the units not yet
used. The **rule evaluator** runs tokens on a stack of values and a stack of operators. **Rating**
selects rate lines by specificity, normalises units and looks up number ranges.

## How the model is built

- `Basics`, `Charging`, `Ledger`: values. Decimals are `real` with truncation toward zero written out
  as `IntPart`, times are `int`, ids are numbers. Products of reals go through `Mul` and `Quotient` so that
  proofs stay linear.
- `QuotaOps`: what each operation does to a list of counters, as functions. Where the program sorts with
  `sort.Slice`, whose order of equal priorities is unspecified, the functions take the list of
  positions visited (`Visit`) and every theorem holds for each list the sort may produce (`Picks`).
- `QuotaObjects`, `QuotaStore`, `QuotaManager`: the program's own form. Counters, quota, loaded quota,
  repository and manager are classes updated in place; each method is proved to do to the objects what
  the function of `QuotaOps` does to the values. What is published on the journal is the ghost field
  `journal`.
- `ExpiryCases`, `ReserveCases`, `DebitCases`, `ProvisionCases`, `RuleLayout`, `RuleSense`: what the operations and
  the evaluator do, told a second time without their functions, from fields, amounts and words alone, and proved
  equal to what they do.
- `Solvency`, `Journal`, `Expiry`, `Reserving`, `Debiting`, `Loans`, `Attempts`, `Publication`, `Grants`:
  the properties of those functions. `Retries`, `Dwindling`, `RetryCases`: the attempts of one call, what others
  leave of its reservations in between, and inputs on which a retry goes wrong.
- `Protocol`: any number of workers over one stored row as a state machine, and properties of whole runs;
  `Versions` and `Repayment`: which versions are safe, and loans over whole runs.
- `RuleMachine`, `RuleTokens`, `RulePanics`, `RuleMeaning`, `RuleEvaluator`: the stack machine, the tokenizer
  and when it panics, the recursive meaning of expressions, and the evaluator's classes and loops.
- `RateKeys`, `Rating`, `NumberPlans`: rate keys, units, the best rate line and the number plan.
- `Sessions`, `SessionSteps`: grants against reservations, and the rating and accounting steps.

`Sound` is the invariant of the ledger: reserved units are within the truncated balance, reserved value
within the balance, every reservation is positive with a positive multiplier, loans are not negative,
counter ids are distinct. `SoundCall` states what callers owe: used units are positive, initial
balances, fees and repayments are not negative, a clawback percentage is between 0 and 1, multipliers
are positive, and prices are positive wherever money may be reserved.

## Where code and documentation part, and what was found

- The comments at internal/quota/provisioning.go:69-71 and :99-100 say a loan's transaction fee is the initial
  balance. The code takes it from the request (internal/quota/provisioning.go:144-151), and so does the model.
- The loop retries on `ErrConflict` only, which `QuotaRepository` never returns: its `Save` reports a version
  mismatch as `PessimisticLockError`, which ends the call. So with this repository no call is ever retried. The
  model has both errors, as the loop does, and every property holds for both; what is said of retries here is
  about a repository that returns the error the loop waits for.
- The version saved is the caller's clock, so versions may repeat. That loses an update exactly when a worker's
  instant is the version first stored while there is another worker, or two share an instant while there is a
  third (`Versions.SerialExactly`, with a run for each shape); two equal instants alone lose nothing.
- Usage entries are published while an attempt runs, so an attempt whose save fails leaves them
  published; write-offs are published only after a save. `QuotaManager.Manager.ExecuteWithQuota` states both. All
  that a call publishes adds up to what it changes exactly when the posts of its beaten attempts come to nothing
  (`Retries.AllPublished`, `RetryCases.PublishedTwice`).
- The entries of an operation are published before the write-offs of the expiry that precedes it. The running
  balance is wrong exactly when a call provisions a counter that this expiry wrote off
  (`Publication.PublishedExplained`, `Publication.ReopenedOutOfOrder`).
- After a retry, a debit that needs no money this time still reports the value an earlier attempt of the call
  computed (`Retries.ReportExactly`). That cannot happen while no one else reserves under its id and the
  counters reserved on have different priorities, or the multiplier is a whole number (`Retries.ReportAlways`).
  It does happen when the id is reserved again in between (`RetryCases.StaleValue`), and with a multiplier of
  1.5 when the sort orders two counters of one priority in another way the second time (`RetryCases.TiedValue`).
- `reserveMonetaryUnits` divides by the price with tax, and panics if that is zero; exactly when it gets there is
  in `QuotaManager.Manager.ReserveQuota` and `Reserving.DivisionReached`.
- `NormaliseUnits` rounds a negative number one increment too far (`Rating.NormalisesUp`,
  `Rating.NegativeRoundedTooFar`).
- The evaluator has no precedence; `&&` and `||` mean what they usually mean under the exact condition of
  `RuleMeaning.NoPrecedence`. A parenthesised ternary whose condition is itself parenthesised always
  fails (`RuleMeaning.ClosedConditionRejected`). `x is not ( y )` is read as an inequality
  (`RuleEvaluator.IsNotMerged`). A literal left open at a last backslash makes the tokenizer panic, if a token
  precedes it (`RulePanics.PanicsExactly`).
- The number plan is keyed by network, so of two ranges of one network only the last loaded is kept
  (`NumberPlans.RangeLost`). `NumberPlans.LookupsRight` says when lookups are right all the same;
  `NumberPlans.LostButRight` is such a plan.
- While a grant is valid and has units, session and ledger part over it exactly when a debit or a release commits
  that the session's copy of the grant does not take into account (`Sessions.SessionAgreement`). That happens when
  - a request fails after debiting a grant, because a later container is larger than what is left, because another
    writer beats a debit, or because a later step fails (`SessionSteps.AccountUnit`, `SessionSteps.SixAndSix`,
    `Sessions.FailureDisagrees`): the session keeps the units it had, and the ledger has fewer;
  - an update fails after it has stored the session, as its trace cannot be written: it releases the grants it has
    just stored (`Sessions.SavedThenReleased`);
  - two requests of one session overlap, which nothing prevents: both load a grant and both use it, and the second
    finds only what the first has left (`Sessions.OverlapUnaccounted`).
- A debit in money releases the reservations on the counters it visits after the one that covers it, whether or not
  unused units are to be reclaimed (`DebitCases.ValueDrawnExactly`).
- A negation without parentheses reaches to the end of the rule: `! a && b` denies `a && b`
  (`RuleSense.DenialReaches`).
- The tax rate of 0.15 is a parameter of the manager here.

## Model

| member | source | states |
|---|---|---|
| QuotaObjects.Counter.IsMatching | internal/quota/quota.go:79-89 | a counter matches exactly when its unit type is the one wanted and some selection key matches the rate key |
| QuotaObjects.Counter.AvailableValue | internal/quota/quota.go:91-103 | the balance less everything reserved, whatever order the map is gone through in |
| QuotaObjects.Counter.AvailableServiceUnits | internal/quota/quota.go:105-118 | the truncated balance less everything reserved, in any map order |
| QuotaObjects.Counter.ReserveServiceUnits | internal/quota/quota.go:61-77 | new counter state and units returned, for every request |
| QuotaObjects.Counter.ReserveValue | internal/quota/quota.go:120-148 | new counter state and amount returned: stored with the multiplier, returned without it |
| QuotaObjects.Counter.DebitBalance | internal/quota/quota.go:150-156 | only the balance changes, and never below zero |
| QuotaObjects.Counter.ReleaseReservation | internal/quota/quota.go:158-160 | only the reservation named is gone |
| QuotaObjects.Counter.ClawbackLoan | internal/quota/quota.go:330-370 | only the loan changes; the fee and principal paid |
| QuotaObjects.Quota.FindCountersByReservationAndType | internal/quota/quota.go:162-180 | exactly the counters of the type that hold the reservation, each once, by descending priority |
| QuotaObjects.Quota.ReleaseReservations | internal/quota/quota.go:182-187 | the reservation is gone from every counter, all else as it was |
| QuotaObjects.Quota.AddCounter | internal/quota/quota.go:196-198 | one counter more, last, the others as they were |
| QuotaObjects.Quota.FindCounterByID | internal/quota/quota.go:200-207 | the first counter of the id; none exactly when there is none |
| QuotaObjects.Quota.FindCounters | internal/quota/quota.go:209-231 | exactly the matching counters (convertible ones for a conversion), each once, by descending priority |
| QuotaObjects.Quota.FindCountersWithLoans | internal/quota/quota.go:233-242 | exactly the counters that owe, oldest first |
| QuotaObjects.PicksExist | internal/quota/quota.go:162-231 | there always is an order in which the counters wanted can be visited, so no theorem over visits is vacuous |
| QuotaStore.LoadedQuota.RemoveExpiredEntries | internal/quota/loadedquota.go:33-114 | the counters kept, as they are kept, and the write-offs, as the expiry function gives them |
| QuotaStore.LoadedQuota.ExpireOne | internal/quota/loadedquota.go:37-110 | cases A to D for one counter |
| QuotaStore.Repository.Load | internal/quota/quotarepository.go:45-69 | fresh objects holding exactly the stored values and version |
| QuotaStore.Repository.Save | internal/quota/quotarepository.go:97-117 | overwrites the row exactly when the version loaded is stored; otherwise changes nothing and says how |
| QuotaManager.Manager.ReserveServiceUnits | internal/quota/quotareserve.go:108-141 | quota and grant after visiting the matching counters by priority |
| QuotaManager.Manager.ReserveMonetaryUnits | internal/quota/quotareserve.go:143-189 | quota and grant after pricing with tax and reserving over the monetary counters; it panics exactly when the price with tax is zero |
| QuotaManager.Manager.ReserveQuota | internal/quota/quotareserve.go:72-106 | service units first, money only if allowed and short; it panics exactly when it asks for money and the price with tax is zero |
| QuotaManager.Manager.DebitServiceReservations | internal/quota/quotadebit.go:89-134 | quota, units debited and entries published |
| QuotaManager.Manager.DebitMonetaryReservations | internal/quota/quotadebit.go:136-198 | quota, response and entries published |
| QuotaManager.Manager.Debit | internal/quota/quotadebit.go:53-87 | quota, entries and response, including the value kept from an earlier attempt |
| QuotaManager.Manager.ApplyProvisioning | internal/quota/provisioning.go:112-186 | nothing for a known id; otherwise the counter added, loans paid, entries published |
| QuotaManager.Manager.ApplyClawback | internal/quota/provisioning.go:188-237 | quota and entries after paying the loans oldest first until nothing is left |
| QuotaManager.Manager.Release | internal/quota/quotarelease.go:11-17 | only the reservation is gone |
| QuotaManager.Manager.PublishExpiry | internal/quota/manager.go:171-193 | one write-off entry a counter, in order, with balance zero |
| QuotaManager.Manager.ExecuteWithQuota | internal/quota/manager.go:64-119 | against any rows other writers leave: the call saves exactly at the first attempt that is not beaten and stores exactly what that attempt makes of what it loaded; otherwise the row is the others'; when it retries, how often, exactly what is published, and exactly what is reported, values left by earlier attempts included |
| Retries.ReportExactly | internal/quota/quotadebit.go:64-86 | after any number of attempts a debit reports the units its last attempt found; it reports the value found there exactly when that attempt needed money or no money was left over from earlier ones |
| Retries.ReportAlways | internal/quota/quotadebit.go:64-86 | whatever calls other writers make between the attempts, if none reserves under the debit's id and what is reserved is without ties or with whole multipliers, it reports exactly what its last attempt found, value included |
| Dwindling.ReplayDwindles | internal/quota/quotareserve.go:72-189 | over any calls at any instants that do not reserve under an id, its reservations only get fewer, each with its terms and at most its units, in the same order |
| Dwindling.LeavesNoLess | internal/quota/quotadebit.go:89-134 | a service debit leaves no less over on what is left of reservations than on all of them, for any multiplier without ties and for whole multipliers in any visiting order |
| Dwindling.DebitLeavesWhole | internal/quota/quotadebit.go:89-134 | with whole multipliers a service debit leaves over exactly what exceeds the reservations, each without its multiplier and rounded up, in any visiting order |
| RetryCases.StaleValue | internal/quota/quotadebit.go:64-86 | a reservation made on money, and while a debit retries released and made again on service units, all by calls: the debit commits one service unit and reports a value of 1 |
| RetryCases.TiedValue | internal/quota/quota.go:162-180 | no one touches the reservations, but the sort orders two counters of one priority differently in the second attempt: with multiplier 1.5 the debit commits service units only and reports a value of 1.5 |
| Retries.AllPublished | internal/quota/manager.go:71-108 | all that a call publishes, beaten attempts included, adds up to what it changes exactly when the posts of the beaten attempts come to nothing on every counter |
| RetryCases.PublishedTwice | internal/quota/quotadebit.go:114-127 | a debit of one unit, beaten once, whose published entries do not add up |
| Retries.TryIsWorker | internal/quota/manager.go:71-115 | whatever one turn of the loop promises to do, one worker of the protocol that loaded the same row can do, and is then where the loop is |
| Publication.OperationPosts | internal/quota/quotadebit.go:114-183 | an operation posts only for counters holding the reservation it debits, or for the counter it provisions |
| Publication.PublishedExplained | internal/quota/manager.go:75-108 | what a saved attempt publishes adds up to what it changes; in the order of publication each entry carries the running balance exactly when the call does not reopen a counter that the expiry before it writes off |
| Publication.ReopenedOutOfOrder | internal/quota/manager.go:104-108 | a call after which the last balance published is 0 while 10 is stored |
| Publication.PublishedEntries | internal/quota/manager.go:104-108 | a saved attempt publishes each entry of the attempt once and no other |
| Solvency.ReserveUnitsSound | internal/quota/quotareserve.go:108-141 | reserving units keeps the ledger sound and touches no other reservation |
| Solvency.ReserveValueSound | internal/quota/quotareserve.go:171-186 | reserving value keeps the ledger sound and touches no other reservation |
| Solvency.DebitUnitsSound | internal/quota/quotadebit.go:89-134 | a service debit keeps the ledger sound and touches nothing but the reservation and the balances |
| Solvency.DebitValueSound | internal/quota/quotadebit.go:151-189 | the same for a monetary debit |
| Attempts.ProvisionSound | internal/quota/provisioning.go:115-237 | provisioning keeps the ledger sound and explained; a known id changes nothing; what a new counter lost is what the loans were reduced by |
| Attempts.AttemptSound | internal/quota/manager.go:64-119 | solvency survives every attempt at every call |
| Attempts.AttemptExplained | internal/quota/loadedquota.go:33-114 | taken in the order in which they take effect, the entries of an attempt add up to every balance change, and each carries the balance its counter has by then |
| Journal.ExplainsTrans | internal/quota/quotajournal.go:126-151 | explained changes compose |
| Reserving.UnitsGranted | internal/quota/quotareserve.go:108-141 | with multiplier one the grant is the smaller of the request and of all that matching counters have, in any visiting order |
| Reserving.UnitsGreedy | internal/quota/quotareserve.go:119-138 | with multiplier at least one and a fresh id a counter is drawn on only when every matching counter of higher priority is used up |
| ReserveCases.UnitsStoredExactly | internal/quota/quota.go:61-77 | for any multiplier and a fresh id each counter visited stores the smaller of what it has and of what is still to be granted with the multiplier, rounded down, and the grant is the sum of what is stored |
| ReserveCases.ReservedIsDebited | internal/quota/quotadebit.go:89-134 | with any multiplier of at least one: if the first counter has the units asked for with the multiplier, a debit of all that was asked for leaves nothing unaccounted for |
| ReserveCases.BoughtExactly | internal/quota/quotareserve.go:157-169 | the units bought are the most that the money pays for at price times one plus tax, up to the request; if it pays for none, nothing is reserved |
| ReserveCases.ValueStoredExactly | internal/quota/quotareserve.go:171-186 | the value reserved is price times multiplier times units times one plus tax, or all the money there is |
| ReserveCases.ReservedAsAsked | internal/quota/quotareserve.go:72-94 | every reservation under a new id carries the call's price, multiplier, reason and tax rate, and runs out when the validity is over |
| ReserveCases.VisitsServing | internal/quota/quota.go:209-231 | the counters visited are exactly those of the unit type with a selection key that agrees in all five fields, and convertible ones only for a conversion |
| Reserving.AffordableMost | internal/quota/quotareserve.go:164-169 | the monetary grant is the largest number of whole units the money buys, up to the request |
| Reserving.MoneyReserved | internal/quota/quotareserve.go:143-189 | what is stored is the smaller of the price with tax and multiplier and of all there is; with multiplier at most one the grant is fully funded |
| Reserving.DivisionReached | internal/quota/quotareserve.go:88-103 | with multiplier one the division by the price with tax is reached exactly when money is asked for, or allowed and matching counters have fewer units than asked for; that price is zero exactly when the unit is free or tax takes all of it |
| Debiting.MultipliedDebit | internal/quota/quotadebit.go:89-134 | with a whole multiplier m over k counters, m times the units reported exceeds what the balances lost by between 0 and k(m-1) |
| Debiting.ExactAlong | internal/quota/quotadebit.go:89-134 | with multiplier one a debit leaves over exactly what exceeds the reservations and takes exactly the rest out of them, or all of it when reclaiming |
| Debiting.ValueConserved | internal/quota/quotadebit.go:151-189 | value debited plus value left is the value asked for, and monetary balances fall by exactly what is debited |
| Debiting.ValueExactAlong | internal/quota/quotadebit.go:151-189 | a monetary debit leaves over exactly what exceeds the value reserved |
| DebitCases.UnitsDrawnExactly | internal/quota/quotadebit.go:94-134 | for any multipliers: what each counter visited gives, keeps reserved and leaves over, rounding included, and the entry posted for it, with its reason |
| DebitCases.ValueDrawnExactly | internal/quota/quotadebit.go:151-189 | what each monetary counter visited pays and keeps reserved; the reservation goes when used up, when reclaimed, and also when nothing is due any more |
| DebitCases.ValuePostedExactly | internal/quota/quotadebit.go:151-183 | an entry is posted for it, with its reason, exactly as long as something is due |
| DebitCases.MoneyReportedExactly | internal/quota/quotadebit.go:136-198 | due is price times multiplier times units times one plus tax; what the money reserved does not cover is reported in units, at price times multiplier and rounded down; the others count as debited, and the value reported is the smaller of what is due and what is reserved |
| Debiting.DebitConserves | internal/quota/quotadebit.go:64-83 | units debited plus units unaccounted for are the units used on every path; value reported plus value uncovered is the price due; monetary balances fall by exactly the value reported |
| Debiting.DebitExplained | internal/quota/quotadebit.go:89-198 | the usage entries account for every balance a debit changed |
| Debiting.DebitDefined | internal/quota/quotadebit.go:130-193 | on a sound ledger a debit never divides by zero |
| Loans.ClawbackBounds | internal/quota/quota.go:330-370 | never more than was provisioned or is owed, fee before principal, and the loan falls by exactly what is paid |
| Loans.ClawbackConserves | internal/quota/provisioning.go:191-237 | over any list of loans the new counter pays exactly what the loans fall by, within its balance, and the journal says so |
| ProvisionCases.ClawbackExactly | internal/quota/quota.go:334-370 | exactly what a loan is paid: the smaller of what it asks and its fee, then the smaller of the rest and its balance; what it asks follows the three cases of minimum repayment and percentage |
| ProvisionCases.ClawbackListExactly | internal/quota/provisioning.go:191-237 | each loan of a list is paid exactly that out of what those before it have left |
| ProvisionCases.ClawbackPostsPayments | internal/quota/provisioning.go:200-236 | what is posted as fees is what fees fall by, and what is posted as repayments what balances fall by |
| ProvisionCases.ProvisionedExactly | internal/quota/provisioning.go:115-186 | the new counter field by field as asked for, its balance less what is paid to loans, each older counter unchanged but for its loan, and the opening entry |
| ProvisionCases.ProvisionedExpires | internal/quota/provisioning.go:133 | a counter just provisioned is written off exactly from the expiry asked for on |
| Repayment.RepaidLoansOweNoFee | internal/quota/quota.go:330-370 | in every reachable state, reused versions included, a stored loan with no principal left has no fee left |
| Repayment.StartsSettled | internal/quota/provisioning.go:144-151 | a new loan starts that way exactly when something is lent or no fee is asked |
| Expiry.ExpiryScheduleIrrelevant | internal/quota/loadedquota.go:33-114 | expiring at t1 and then t2 leaves the quota, and writes off the amounts, of expiring at t2 alone |
| Expiry.ExpiryIsIdempotent | internal/quota/loadedquota.go:33-114 | a second expiry at the same instant changes nothing and writes nothing off |
| Expiry.ExpiryConserves | internal/quota/loadedquota.go:33-114 | counters kept stay in order, and balances before are balances after plus what is written off |
| Expiry.ExpirySound | internal/quota/loadedquota.go:33-114 | expiry keeps the ledger sound and its write-offs explain every balance that changed |
| ExpiryCases.WrittenOffExactly | internal/quota/loadedquota.go:37-110 | in terms of a counter's own fields: a balance is written off exactly when the counter's expiry date is not after the instant, no reservation on it outlives the instant and the balance is not zero; then all of it is |
| ExpiryCases.KeptExactly | internal/quota/loadedquota.go:37-110 | a counter is kept exactly when it is neither past its expiry with nothing reserved or owed nor without balance and debt before it; it keeps exactly the reservations that outlive the instant, and its balance unless it has lapsed |
| ExpiryCases.DroppedExactly | internal/quota/loadedquota.go:51-110 | with distinct ids, a counter is gone exactly in those two cases |
| ExpiryCases.AttemptLeavesCurrent | internal/quota/manager.go:79-104 | whatever a call does, what it stores has no reservation that has run out, no balance on a lapsed counter and no counter to be dropped |
| ExpiryCases.RunOutNotDebited | internal/quota/manager.go:79-94 | a debit of reservations that have run out debits nothing and reports all usage unaccounted for |
| Grants.ExpireSlots | internal/quota/loadedquota.go:40-70 | on a sound ledger expiry keeps, under every id, exactly the reservations that have not expired |
| Grants.OperateOther | internal/quota/quotareserve.go:72-189 | no call changes a reservation it does not name |
| Grants.ReserveFunds | internal/quota/quotareserve.go:72-189 | a reservation with multiplier one under a fresh id funds exactly what it grants, in units, money or both |
| Grants.GrantHonoured | internal/quota/quotadebit.go:55-198 | whatever other calls come in between, before the reservation expires a debit of up to the units granted is accounted for in full |
| Protocol.Do | internal/quota/manager.go:71-115 | every step of every worker keeps the stored and all loaded ledgers sound |
| Protocol.Run | internal/quota/manager.go:64-119 | solvency in every reachable state, reused versions included |
| Protocol.NoLostUpdate | internal/quota/quotarepository.go:99-117 | if no save reuses a version, or the workers' instants are apart, the stored quota is what the committed calls make of the first one, in commit order, and a call commits exactly once if it reports success and never otherwise |
| Versions.SerialExactly | internal/quota/quotarepository.go:99-117 | every run is serial, for all calls and quotas, exactly when no worker has the instant of the version first stored while there is another, and no two have the same instant while there is a third |
| Versions.FirstVersionLoses | internal/quota/manager.go:104 | for any instants of which one is the first version, a run in which a committed call is lost |
| Versions.SharedInstantLoses | internal/quota/manager.go:104 | for any instants of three workers of which two are equal, over a row of any version, such a run |
| Protocol.LedgerReplays | internal/quota/manager.go:64-119 | each stored balance is the first one plus what the committed calls published, signed by reason; calls in commit order and each as it publishes, every entry carries the running balance exactly when no call reopened a counter written off just before |
| Protocol.GrantHonouredInRun | internal/quota/manager.go:64-119 | grants are honoured under concurrency |
| RuleMachine.CompareDefined | internal/ruleevaluator/RuleEvaluator.go:55-154 | which comparisons are defined: with nil only equality, otherwise two values of one comparable type |
| RuleMachine.CompareOrders | internal/ruleevaluator/RuleEvaluator.go:72-149 | where defined, the six comparisons agree with one another: exactly one of less, equal and greater, and the others follow |
| RuleMachine.CompareTransitive | internal/ruleevaluator/RuleEvaluator.go:72-149 | less is transitive, so they are those of one total order |
| RuleMachine.RunConcat | internal/ruleevaluator/RuleEvaluator.go:712-761 | tokens run one list after another |
| RuleMeaning.RunsMeaning | internal/ruleevaluator/RuleEvaluator.go:703-761 | from any stacks whose top operator is neither a negation nor a call, the tokens of a tree push exactly its strict meaning and leave the operators below alone, or fail exactly when it has none |
| RuleMeaning.CallArgs | internal/ruleevaluator/RuleEvaluator.go:277-307 | a call gets exactly the values above its marker, in order |
| RuleMeaning.EvaluatesChain | internal/ruleevaluator/RuleEvaluator.go:763-772 | a chain of any length without parentheses evaluates to its right-associated fold |
| RuleMeaning.NoPrecedence | internal/ruleevaluator/RuleEvaluator.go:763-769 | exactly when a && b \|\| c means what precedence would make it mean |
| RuleMeaning.ClosedConditionRejected | internal/ruleevaluator/RuleEvaluator.go:746-754 | a parenthesised ternary with a parenthesised condition always fails |
| RuleMeaning.OpenChoice | internal/ruleevaluator/RuleEvaluator.go:742-769 | outside parentheses such a ternary evaluates, eagerly |
| RuleSense.MeansWhatItSays | internal/ruleevaluator/RuleEvaluator.go:703-761 | the meaning the machine computes is what the words of the expression say, told without the machine: constants, numbers, quoted texts, fields, calls, the order of integers, floats, texts and truth values, and what each operator asks |
| RuleSense.TextSays | internal/ruleevaluator/RuleEvaluator.go:703-772 | the text of an expression in any layout evaluates to what it says, and fails exactly when that is nothing |
| RuleSense.PairSays | internal/ruleevaluator/RuleEvaluator.go:712-772 | two operands and one of the ten operators, with any white space between or, around signs, none |
| RuleSense.IntegersCompared | internal/ruleevaluator/RuleEvaluator.go:113-131 | for numerals read as x and y, the texts with >, >=, <, <=, ==, !=, is and is not evaluate to the comparison of x and y |
| RuleSense.FloatsCompared | internal/ruleevaluator/RuleEvaluator.go:133-150 | the same for floats |
| RuleSense.TextsCompared | internal/ruleevaluator/RuleEvaluator.go:93-111 | a quoted text is its inside, and quoted texts compare lexicographically |
| RuleSense.ConstantsSay | internal/ruleevaluator/RuleEvaluator.go:644-656 | true, false, null and nil, and their comparisons and connectives |
| RuleSense.ChoiceSays | internal/ruleevaluator/RuleEvaluator.go:742-761 | a ternary outside parentheses is the one or the other branch, in any layout |
| RuleSense.DenialReaches | internal/ruleevaluator/RuleEvaluator.go:730-769 | a negation before an operand without parentheses negates everything after it |
| RuleTokens.Tokenize | internal/ruleevaluator/RuleEvaluator.go:309-442 | the loop reads exactly what the recursive scanner reads, errors and the panic included |
| RuleTokens.EndOfLiteral | internal/ruleevaluator/RuleEvaluator.go:385-408 | where a literal ends, escapes included, or that it does not |
| RuleTokens.ScansBack | internal/ruleevaluator/RuleEvaluator.go:309-442 | tokens printed with spaces are read back with every `is` directly followed by `not` merged |
| RuleTokens.RoundTrip | internal/ruleevaluator/RuleEvaluator.go:421-436 | they are read back unchanged exactly when there is no such pair |
| RuleLayout.OneCharacter | internal/ruleevaluator/RuleEvaluator.go:312-326 | which single characters are passed over, are words, are signs, or are errors |
| RuleLayout.TwoSigns | internal/ruleevaluator/RuleEvaluator.go:343-368 | two signs are one token exactly for the six operators of two signs |
| RuleLayout.ReadsLayout | internal/ruleevaluator/RuleEvaluator.go:336-439 | any tokens are read back from any layout: white space and commas between them do not matter, and may be missing where tokens do not run together |
| RulePanics.PanicsExactly | internal/ruleevaluator/RuleEvaluator.go:385-407 | the tokenizer panics exactly on a text that reads as at least one token up to a quote from which no quote closes the literal and the text ends in an odd number of backslashes |
| RulePanics.LexBeforeQuote | internal/ruleevaluator/RuleEvaluator.go:343-439 | what is read before a quote does not depend on what follows it |
| RulePanics.PanicExample | internal/ruleevaluator/RuleEvaluator.go:388-404 | one word, a quote and a backslash |
| RuleEvaluator.Stack.Push | internal/ruleevaluator/stack.go:14-16 | adds on top and changes nothing below |
| RuleEvaluator.Stack.Pop | internal/ruleevaluator/stack.go:18-26 | takes the top off, or is an error that changes nothing |
| RuleEvaluator.Stack.Peek | internal/ruleevaluator/stack.go:28-34 | the top, if there is one |
| RuleEvaluator.Evaluator.ProcessFunc | internal/ruleevaluator/RuleEvaluator.go:277-307 | pops to the topmost marker and pushes the result, or fails |
| RuleEvaluator.Evaluator.ProcessOp | internal/ruleevaluator/RuleEvaluator.go:156-239 | the value stack after one operator, or failure |
| RuleEvaluator.Evaluator.ProcessParen | internal/ruleevaluator/RuleEvaluator.go:241-275 | both stacks after a closing parenthesis, or failure |
| RuleEvaluator.Evaluator.EvaluateWithVars | internal/ruleevaluator/RuleEvaluator.go:703-773 | the outcome of tokenizing and running the machine |
| RuleEvaluator.TextMeaning | internal/ruleevaluator/RuleEvaluator.go:703-773 | the printed text of an expression evaluates to exactly what the expression means, or fails exactly when it means nothing |
| RuleEvaluator.IsNotMerged | internal/ruleevaluator/RuleEvaluator.go:421-436 | what text with `is not (` evaluates to |
| RuleEvaluator.IsNotAgrees | internal/ruleevaluator/RuleEvaluator.go:421-436 | exactly when that agrees with comparing to the negation |
| RateKeys.MatchMeaning | internal/charging/ratekey.go:60-110 | a match is agreement of all five fields, whichever key is asked; its score is the number of fields where neither is a wildcard |
| RateKeys.KeyRoundTrip | internal/charging/ratekey.go:17-24 | a key is read back from its text exactly when no field holds a dot |
| RateKeys.TextRoundTrip | internal/charging/ratekey.go:112-134 | text that parses is the text of its key, but for the dot of an empty window |
| Rating.NormalisesUp | internal/model/rateline.go:80-97 | the least multiple of the increment that covers units and minimum, exactly when that is not a negative number to be rounded |
| Rating.NegativeRoundedTooFar | internal/model/rateline.go:80-97 | minus five in threes comes to 0, although -3 covers it |
| Rating.NormalisesOnce | internal/model/rateline.go:80-97 | normalised units are left alone |
| Rating.NormalisesMonotonically | internal/model/rateline.go:80-97 | more units, normalised, are no fewer |
| Rating.FindBestRateLine | internal/chargeengine/engine/business/rating.go:11-40 | for every order of the map: the last line of greatest specificity; none exactly when no line matches |
| Rating.BestIsUnique | internal/chargeengine/engine/business/rating.go:23-31 | there is only one such line |
| NumberPlans.NumberPlanContainer.FindNumberPlan | internal/chargeengine/engine/providers/numberplan/numberplanprovider.go:89-121 | for every order of the map: a longest range that begins the nationalised number; an error exactly when no non-empty range does, the number is empty or nothing is loaded |
| NumberPlans.NumberPlanContainer.ReloadNumbers | internal/chargeengine/engine/providers/numberplan/numberplanprovider.go:32-50 | replaces map and dial code, or keeps both when loading fails |
| NumberPlans.LongestRange | internal/chargeengine/engine/providers/numberplan/numberplanprovider.go:107-115 | the range found is the same in every order |
| NumberPlans.KeptRows | internal/chargeengine/engine/providers/numberplan/numberplanprovider.go:39-42 | a row is kept exactly when no later row is of its network |
| NumberPlans.LookupsRight | internal/chargeengine/engine/providers/numberplan/numberplanprovider.go:39-121 | every lookup of a number, nationalised as the code does, finds the longest range over all rows loaded exactly when every range that can be the longest for some number is also the range of a row kept |
| NumberPlans.RangeLost | internal/chargeengine/engine/providers/numberplan/numberplanprovider.go:39-42 | ranges 11 and 27 of one network: 11 is lost whatever the dial code |
| NumberPlans.LostButRight | internal/chargeengine/engine/providers/numberplan/numberplanprovider.go:100-105 | ranges 0 and 27 of one network with dial code 27: 0 is lost, and every lookup is right |
| Sessions.GrantBacked | internal/chargeengine/engine/steps/rating-step.go:126-170 | a new grant is for exactly the units reserved under its id |
| Sessions.FilterIsSafe | internal/chargeengine/engine/steps/accounting-step.go:201-208 | a grant that passes the filter has an unexpired reservation; the two end together exactly when the window is in whole seconds |
| Sessions.UsedInIncrements | internal/chargeengine/engine/steps/accounting-step.go:131-135 | usage of a charged grant counts as the least multiple of the increment that covers it and the minimum, that of a free one not at all |
| Sessions.UseTakes | internal/quota/quotadebit.go:89-134 | the debit made for a valid grant takes the units used out of what is reserved for it, as far as that goes, and reports exactly the rest unaccounted for |
| Sessions.UseBacked | internal/chargeengine/engine/steps/accounting-step.go:129-178 | usage within a backed grant is accounted for in full, what is left is still backed, and once used up or reclaimed nothing stays reserved |
| Sessions.NeverOverused | internal/chargeengine/engine/steps/accounting-step.go:131-141 | one report of no more than a fully granted request never exceeds the grant |
| Sessions.StepAccounted | internal/chargeengine/chargeservice.go:103-178 | every step by anyone, of any number of overlapping requests, storing, failing, releasing and deleting included, keeps what is reserved for each valid grant exact for the copies that are up to date and short for the others |
| Sessions.RunEvents | internal/chargeengine/chargeservice.go:103-178 | every state of any run, calls committing in any order of their instants, keeps that for each stored copy and each copy a request has |
| Sessions.SessionAgreement | internal/chargeengine/chargeservice.go:103-178 | over any run, overlapping and failing requests included, a valid charged grant as stored or as any request has it is for exactly the units reserved under its id exactly when that copy takes every debit and release committed for the grant into account or has no units left; otherwise less is reserved; the stored session agrees with the ledger exactly when all its grants do |
| Sessions.FailureDisagrees | internal/chargeengine/chargeservice.go:113-135 | a request that fails after debiting a grant, for whatever reason, leaves a stored session that no longer agrees with the ledger |
| Sessions.SavedThenReleased | internal/chargeengine/engine/steps/error-step.go:9-31 | an update that makes a grant, stores the session and then fails releases the grant it has stored: nothing is reserved for it, and the session disagrees |
| Sessions.OverlapHappens | internal/chargeengine/engine/steps/chargedata-step.go:61-87 | two requests can load one grant and both use it |
| Sessions.OverlapUnaccounted | internal/chargeengine/engine/steps/chargedata-step.go:61-87 | then what the second cannot account for is exactly what exceeds the first one's rest: nothing exactly when the first did not reclaim and the grant covers both |
| SessionSteps.CallLedger | internal/chargeengine/engine/business/accounting.go:33-92 | a call of the manager made while others write: it commits on rows that hold the session's reservations, or leaves them to the others |
| SessionSteps.ProcessUsed | internal/chargeengine/engine/steps/accounting-step.go:128-186 | one container, while others write: where and why it stops, the grants left, every debit full, and how far the ledger got |
| SessionSteps.LeftExactly | internal/chargeengine/engine/steps/accounting-step.go:137-174 | a grant is left exactly when nothing is reclaimed and it is not used up, less exactly what the usage counts for it |
| SessionSteps.ProcessUnitsUsed | internal/chargeengine/engine/steps/accounting-step.go:92-190 | any number of containers: the grants left in agreement with the ledger, or where the report stopped, what is then left of each grant in the ledger, and whether the session as it was is short of a grant |
| SessionSteps.AccountUnit | internal/chargeengine/engine/steps/accounting-step.go:196-221 | undisturbed it succeeds exactly when every grant covers every container; then session and ledger agree; if it fails, at whichever grant and for whichever reason, they agree exactly when no charged grant was debited before |
| SessionSteps.SixAndSix | internal/chargeengine/engine/steps/accounting-step.go:137-141 | a ledger with ten units reserved for a grant of ten, and containers of six and six: the first debit commits, the second container stops the report, four units are reserved and the session of ten disagrees |
| SessionSteps.RateUnit | internal/chargeengine/engine/steps/rating-step.go:122-170 | for any unit type, multiplier and out-of-bundle setting: free, reserved or beaten by another writer; what is granted is what the ledger granted, and final exactly when less than asked for; with multiplier one what is reserved pays for it; of service units only, session and ledger agree again |

## Left out

- Creating a row for a subscriber who has none, and races between such calls: runs start from an existing row.
- Counters without a balance: a counter here always has one.
- Rounding of decimal division at 16 digits, and overflow of 64-bit integers: arithmetic is exact.
- Usage notifications and balance queries: they read the quota and publish messages; the threshold remembered on a counter is not modelled.
- Fields of counters and journal entries that only describe (names, tax shown on an entry, metadata, external references).
- A loan is a value inside its counter: no two counters share one.
- The price, multiplier, tax rate, reason and expiry of a reservation are kept together as its terms.
- Protocol.LedgerReplays: calls are taken in commit order; how the publications of different workers interleave, and what beaten attempts published, is not part of it.
- Sessions.SessionAgreement: multiplier one, service units only, as these are the grants whose units the ledger keeps; a grant paid with money holds value, for which GrantHonoured is the promise. A grant counts as valid until the latest instant of any call committed: for a request whose clock is behind that, the ledger may have expired the reservation already.
- SessionSteps.AccountUnit: one rating group; the stable sort of its grants by sequence number changes nothing, since a session's grants all come from one request.
- SessionSteps.RateUnit: tariff calculation, request scaling and choosing the plans come before it; the units asked for, price and window are arguments.
- Protocol.GrantHonouredInRun: stated for the first debit after the grant; later debits of service grants are in SessionAgreement.
- Evaluator: numbers, registered functions and field lookup are an abstract environment, functions have no effects, floats are reals without NaN, characters are bytes, error texts are dropped.
- The mutex of the number plan and its reload timer.
- HTTP, Diameter, Kafka, SQL, JSON, logging, metrics, rate plan approval and classification.

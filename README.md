# EchoPay core, modelled in Dafny

EchoPay is a payment platform for central-bank digital currency (CBDC) whose transactions
can be reversed when fraud is reported. This project models its core and proves
properties of that model:

- **Fraud cases.** The case lifecycle (OPEN → INVESTIGATING → RESOLVED → CLOSED), its
  state machine and deadlines, and the enums' string forms (`fraud_case.dfy`).
- **Case repository.** The repository queries the services run (`case_store.dfy`).
- **Reversibility services.**
  - fraud-report intake (`fraud_report_service.dfy`);
  - automated and manual reversal (`automated_reversal.dfy`);
  - arbitration (`arbitration_service.dfy`);
  - the reversal-time tracker behind the one-hour promise (`reversal_tracker.dfy`);
  - the simulated fraud-confidence service (`fraud_detection.dfy`).
- **Token management.** The service's validators and lifecycle operations over a ledger
  (`token_service.dfy`), and the HTTP handler's listing, pagination and error-to-status
  mapping (`token_handler.dfy`).
- **Transactions.** Transaction processing with its balance transfer and metrics
  (`transaction_service.dfy`), and the real-time status tracker with its filters and
  bounded subscriber buffers (`status_tracker.dfy`).
- **Shared libraries.** The structured error type with its HTTP mapping (`errors.dfy`),
  and the request-id, CORS and rate-limit middleware (`middleware.dfy`).
- **Fraud-detection scoring.** The rule-based score, the fallback weighted average and the
  simple risk factors (`fraud_scoring.dfy`).

`common.dfy` holds the shared vocabulary: `Option`, identifiers, and Java's 32-bit
integers with their truncating `/`, `%` and `Math.abs`.

How the source is modelled:

- **Mutable objects are classes.** Objects the source updates in place are Dafny classes
  with `modifies` clauses: a fraud case, the reversal tracker, the token ledger, the
  transaction service and its metrics, the status tracker, the rate limiter and the error
  object.
- **Specification functions.** Each such method is proved against a function of the old
  state: `Process` for a transaction, `Published` for a status update, `AfterRequest` for
  the rate limiter, and the `*Fault` functions for the token operations.
- **The repository.** It is the sequence of stored case objects.
- **Collaborators.** Calls to services the core does not own are recorded as a trace of
  `Effect` values: notifications, logging, token invalidation and reissue, and marking a
  transaction reversed.
- **Their answers.** The answers of those collaborators come in a `Collaborators` record.
  So does the clock reading at which the reversal of a case finishes, which the reversal
  tracker stamps as the record's end, so a tracked reversal takes the time it took.
- **Time, generated ids and storage failures.** Clocks and generated identifiers are
  parameters. Database failures are boolean parameters (`storeFails`, `createFails`).
- **Messages.** The messages the core writes itself are modelled exactly, except where
  it formats a value into them. Messages that come from collaborators the model leaves
  out are stand-ins (see "Left out").

## Model

| member | source | states |
|---|---|---|
| Common.JavaRem | services/reversibility-service/src/main/java/com/echopay/reversibility/service/FraudDetectionService.java:27-33 | Java's `%`: the remainder has the sign of the dividend and is smaller in size than the divisor |
| Common.JavaAbs | services/reversibility-service/src/main/java/com/echopay/reversibility/service/FraudDetectionService.java:113 | `Math.abs` on an `int`: a non-negative result equal to the input or its negation, except `Integer.MIN_VALUE`, which stays negative |
| Common.JavaDiv | services/reversibility-service/src/main/java/com/echopay/reversibility/service/ReversalTimeTracker.java:44-57 | Java's `/` truncates toward zero: the quotient brackets the dividend from below for non-negative inputs and from above for negative ones |
| Common.FindByValue | services/reversibility-service/src/main/java/com/echopay/reversibility/model/FraudCase.java:39-46 | an enum's `fromString` loop: a hit carries the value looked for; a miss means no constant has that value |
| FraudCases.StatusFromString | services/reversibility-service/src/main/java/com/echopay/reversibility/model/FraudCase.java:23-47 | `Status.fromString` finds the status with the given value and fails exactly when no status has it |
| FraudCases.CaseTypeFromString | services/reversibility-service/src/main/java/com/echopay/reversibility/model/FraudCase.java:49-74 | `CaseType.fromString` finds the type with the given value and fails exactly when no type has it |
| FraudCases.PriorityFromString | services/reversibility-service/src/main/java/com/echopay/reversibility/model/FraudCase.java:76-100 | `Priority.fromString` finds the priority with the given value and fails exactly when none has it |
| FraudCases.ResolutionFromString | services/reversibility-service/src/main/java/com/echopay/reversibility/model/FraudCase.java:102-129 | `Resolution.fromString` finds the resolution with the given value and fails exactly when none has it |
| FraudCases.AllListed | services/reversibility-service/src/main/java/com/echopay/reversibility/model/FraudCase.java:23-129 | each enum's list of constants, the one `fromString` scans, names every constant |
| FraudCases.StatusRoundTrip | services/reversibility-service/src/main/java/com/echopay/reversibility/model/FraudCase.java:23-47 | parsing a status's value gives back that status |
| FraudCases.CaseTypeRoundTrip | services/reversibility-service/src/main/java/com/echopay/reversibility/model/FraudCase.java:49-74 | parsing a case type's value gives back that type |
| FraudCases.PriorityRoundTrip | services/reversibility-service/src/main/java/com/echopay/reversibility/model/FraudCase.java:76-100 | parsing a priority's value gives back that priority |
| FraudCases.ResolutionRoundTrip | services/reversibility-service/src/main/java/com/echopay/reversibility/model/FraudCase.java:102-129 | parsing a resolution's value gives back that resolution |
| FraudCases.CanTransition | services/reversibility-service/src/main/java/com/echopay/reversibility/model/FraudCase.java:215-232 | the allowed moves are exactly one step forward along OPEN, INVESTIGATING, RESOLVED, or a jump to CLOSED from any status other than CLOSED; every allowed move goes forward |
| FraudCases.ActiveXorResolved | services/reversibility-service/src/main/java/com/echopay/reversibility/model/FraudCase.java:257-263 | every status is either active (OPEN, INVESTIGATING) or resolved (RESOLVED, CLOSED), never both |
| FraudCases.TransitionNeverReactivates | services/reversibility-service/src/main/java/com/echopay/reversibility/model/FraudCase.java:215-232 | an allowed move never leads from a resolved status back to an active one |
| FraudCases.TimeRemainingHours | services/reversibility-service/src/main/java/com/echopay/reversibility/model/FraudCase.java:419-431 | the hours left are never negative and never more than 72; they are 0 unless the case is INVESTIGATING before its deadline; a positive count of hours fits before the deadline and is the whole number of hours left |
| FraudCases.OverdueMeansNoTimeLeft | services/reversibility-service/src/main/java/com/echopay/reversibility/model/FraudCase.java:404-431 | an overdue case is INVESTIGATING and has 0 hours left |
| FraudCases.FraudCase.constructor | services/reversibility-service/src/main/java/com/echopay/reversibility/model/FraudCase.java:200-213 | a new case carries the given transaction, reporter, type and priority, is OPEN and has no resolution, evidence, arbitrator or escalation |
| FraudCases.FraudCase.TransitionTo | services/reversibility-service/src/main/java/com/echopay/reversibility/model/FraudCase.java:234-246 | the move happens exactly when `canTransitionTo` allows it, otherwise it throws the formatted message and nothing changes; `resolvedAt` is stamped only the first time the case becomes RESOLVED |
| FraudCases.FraudCase.Resolve | services/reversibility-service/src/main/java/com/echopay/reversibility/model/FraudCase.java:248-255 | only an INVESTIGATING case is resolved, taking the resolution and stamping `resolvedAt` once; any other case throws and is left as it was |
| FraudCases.FraudCase.AssignToArbitrator | services/reversibility-service/src/main/java/com/echopay/reversibility/model/FraudCase.java:381-389 | only an INVESTIGATING case takes the arbitrator and the assignment time; any other case throws unchanged |
| FraudCases.FraudCase.Escalate | services/reversibility-service/src/main/java/com/echopay/reversibility/model/FraudCase.java:393-400 | only an INVESTIGATING case is stamped as escalated; any other case throws unchanged |
| CaseStore.Views | services/reversibility-service/src/main/java/com/echopay/reversibility/repository/FraudCaseRepository.java:19 | the query view of every stored case, in storage order |
| CaseStore.FindById | services/reversibility-service/src/main/java/com/echopay/reversibility/service/FraudReportService.java:113-116 | `findById`: a hit is a stored case with that id; a miss means no stored case has it |
| CaseStore.FindStored | services/reversibility-service/src/main/java/com/echopay/reversibility/service/FraudReportService.java:113-116 | with unique ids, looking up a stored case's id finds that very case |
| CaseStore.Where | services/reversibility-service/src/main/java/com/echopay/reversibility/repository/FraudCaseRepository.java:21-135 | a derived query returns exactly the stored cases whose view satisfies its condition |
| CaseStore.WhereNone | services/reversibility-service/src/main/java/com/echopay/reversibility/repository/FraudCaseRepository.java:21-135 | a query whose condition no stored case satisfies returns nothing |
| CaseStore.WhereUnique | services/reversibility-service/src/main/java/com/echopay/reversibility/repository/FraudCaseRepository.java:21-135 | a query result never holds two cases with the same id |
| CaseStore.FindActiveByTransactionId | services/reversibility-service/src/main/java/com/echopay/reversibility/repository/FraudCaseRepository.java:21-27 | finds an OPEN or INVESTIGATING case of the transaction, and finds none exactly when the transaction has no active case |
| ReversalTracking.TotalRemove | services/reversibility-service/src/main/java/com/echopay/reversibility/service/ReversalTimeTracker.java:118-143 | a sum over records splits into one record plus the sum over the rest |
| ReversalTracking.TotalOfIndicator | services/reversibility-service/src/main/java/com/echopay/reversibility/service/ReversalTimeTracker.java:138-143 | counting records by a yes/no test gives at most the number of records |
| ReversalTracking.TotalMonotone | services/reversibility-service/src/main/java/com/echopay/reversibility/service/ReversalTimeTracker.java:118-143 | a sum over records grows with the summed quantity |
| ReversalTracking.ReversalTimeTracker.constructor | services/reversibility-service/src/main/java/com/echopay/reversibility/service/ReversalTimeTracker.java:18-19 | a new tracker has no active and no completed reversals |
| ReversalTracking.ReversalTimeTracker.StartReversal | services/reversibility-service/src/main/java/com/echopay/reversibility/service/ReversalTimeTracker.java:24-35 | the case gets an IN_PROGRESS record started now (replacing any earlier one) |
| ReversalTracking.ReversalTimeTracker.CompleteReversal | services/reversibility-service/src/main/java/com/echopay/reversibility/service/ReversalTimeTracker.java:40-63 | a tracked case moves from active to completed as COMPLETED with its end time and duration; an untracked case changes nothing |
| ReversalTracking.ReversalTimeTracker.FailReversal | services/reversibility-service/src/main/java/com/echopay/reversibility/service/ReversalTimeTracker.java:68-90 | a tracked case moves from active to completed as FAILED with its duration and reason; an untracked case changes nothing |
| ReversalTracking.ReversalTimeTracker.GetReversalTime | services/reversibility-service/src/main/java/com/echopay/reversibility/service/ReversalTimeTracker.java:95-98 | the duration of a finished reversal; nothing for a case that has not finished |
| ReversalTracking.ReversalTimeTracker.WasReversalWithinOneHour | services/reversibility-service/src/main/java/com/echopay/reversibility/service/ReversalTimeTracker.java:103-106 | a case with no finished record never qualifies; otherwise it qualifies exactly when its end came at most 60 whole minutes after its start, completed or failed |
| ReversalTracking.ReversalTimeTracker.GetTotalReversals | services/reversibility-service/src/main/java/com/echopay/reversibility/service/ReversalTimeTracker.java:111-113 | the number of finished reversals |
| ReversalTracking.ReversalTimeTracker.CountsOrdered | services/reversibility-service/src/main/java/com/echopay/reversibility/service/ReversalTimeTracker.java:111-143 | reversals within the hour are among the successful ones, which are among all finished ones |
| ReversalTracking.ReversalTimeTracker.SumCompleted | services/reversibility-service/src/main/java/com/echopay/reversibility/service/ReversalTimeTracker.java:118-143 | the stream sum over all finished records |
| ReversalTracking.ReversalTimeTracker.GetReversalsWithinOneHour | services/reversibility-service/src/main/java/com/echopay/reversibility/service/ReversalTimeTracker.java:138-143 | the number of successful reversals that took at most 60 minutes, at most the number of successful ones |
| ReversalTracking.ReversalTimeTracker.GetAverageReversalTime | services/reversibility-service/src/main/java/com/echopay/reversibility/service/ReversalTimeTracker.java:118-133 | the mean duration in minutes of the successful reversals, 0 when there are none |
| ReversalTracking.ReversalTimeTracker.GetStatistics | services/reversibility-service/src/main/java/com/echopay/reversibility/service/ReversalTimeTracker.java:164-182 | the counts are ordered; the average is the mean whole minutes of the COMPLETED records, 0.0 when there are none; the success and one-hour compliance rates are their percentages, 0 for an empty base, and both lie in 0..100 |
| ReversalTracking.RatioAtMostHundred | services/reversibility-service/src/main/java/com/echopay/reversibility/service/ReversalTimeTracker.java:164-182 | a part of a whole as a percentage lies between 0 and 100 |
| FraudDetection.FraudConfidence | services/reversibility-service/src/main/java/com/echopay/reversibility/service/FraudDetectionService.java:18-34 | the confidence is 0.95, 0.65 or 0.35, chosen by the hash's remainder mod 10 being below 2, below 5, or neither |
| FraudDetection.NegativeHashIsHighConfidence | services/reversibility-service/src/main/java/com/echopay/reversibility/service/FraudDetectionService.java:18-34 | a negative hash, whose Java remainder is never positive, always gives the 0.95 confidence |
| FraudDetection.FraudScore | services/reversibility-service/src/main/java/com/echopay/reversibility/service/FraudDetectionService.java:106-117 | the score is within [0.05, 0.95], and is the hash's absolute value mod 100 as a fraction, clamped, for every hash but `Integer.MIN_VALUE` |
| FraudDetection.MinValueScore | services/reversibility-service/src/main/java/com/echopay/reversibility/service/FraudDetectionService.java:106-117 | for `Integer.MIN_VALUE` the absolute value stays negative, the remainder is -48, and the clamp raises the score to 0.05 |
| FraudDetection.RiskFactors | services/reversibility-service/src/main/java/com/echopay/reversibility/service/FraudDetectionService.java:52-70 | four factors above 0.8 confidence, two above 0.5, otherwise only "Normal transaction pattern" |
| FraudDetection.DetailedFraudAnalysis | services/reversibility-service/src/main/java/com/echopay/reversibility/service/FraudDetectionService.java:39-50 | the component scores are fixed fractions (0.8, 0.9, 0.7) of the overall confidence, ordered anomaly < behavioral < graph < overall, and the risk factors match the confidence |
| FraudDetection.FactorCountByBucket | services/reversibility-service/src/main/java/com/echopay/reversibility/service/FraudDetectionService.java:18-70 | the number of risk factors (4, 2 or 1) is decided by the hash's remainder mod 10 alone |
| FraudReports.ValidateFraudReport | services/reversibility-service/src/main/java/com/echopay/reversibility/service/FraudReportService.java:186-209 | a report passes exactly when it is well formed; otherwise the first failing check, in source order, gives its message; the 2000 limit is on UTF-16 code units, as Java's `length()` counts them |
| FraudReports.Utf16Length | services/reversibility-service/src/main/java/com/echopay/reversibility/service/FraudReportService.java:199 | a string's Java length lies between its character count and twice it: equal to the count without characters beyond the Basic Multilingual Plane, twice it when all are |
| FraudReports.SupplementaryCharactersCountTwice | services/reversibility-service/src/main/java/com/echopay/reversibility/service/FraudReportService.java:199-201 | a description of more than 1000 characters all beyond the Basic Multilingual Plane is refused as too long |
| FraudReports.DeterminePriority | services/reversibility-service/src/main/java/com/echopay/reversibility/service/FraudReportService.java:211-229 | never LOW; CRITICAL exactly above 10000; HIGH above 1000; at or below 1000, HIGH exactly for account takeover and technical fraud |
| FraudReports.PriorityMonotoneInAmount | services/reversibility-service/src/main/java/com/echopay/reversibility/service/FraudReportService.java:211-229 | a larger amount never lowers the priority of the same fraud type |
| FraudReports.EstimatedResolutionTime | services/reversibility-service/src/main/java/com/echopay/reversibility/service/FraudReportService.java:231-244 | "5 business days" is quoted exactly for LOW priority |
| FraudReports.IntakeEstimateWithinWindow | services/reversibility-service/src/main/java/com/echopay/reversibility/service/FraudReportService.java:211-244 | every estimate quoted at intake is 24, 48 or 72 hours |
| FraudReports.InitialEvidence | services/reversibility-service/src/main/java/com/echopay/reversibility/service/FraudReportService.java:76-81 | the evidence map has exactly the four keys, the report text and the time; `Map.of` fails on a missing screenshot list or missing additional information |
| FraudReports.OpenCase | services/reversibility-service/src/main/java/com/echopay/reversibility/service/FraudReportService.java:83-95 | a new case for the report, moved from OPEN to INVESTIGATING, with the report's evidence |
| FraudReports.SubmitFraudReport | services/reversibility-service/src/main/java/com/echopay/reversibility/service/FraudReportService.java:49-109 | each rejection (invalid report, ineligible transaction, duplicate active case, null evidence) has its own message and stores nothing; acceptance appends one INVESTIGATING case with the parsed type, the priority and the evidence; ids stay unique and each transaction keeps at most one active case |
| FraudReports.AppendCase | services/reversibility-service/src/main/java/com/echopay/reversibility/service/FraudReportService.java:59-99 | storing a case with a new id keeps the ids unique, and keeps one active case per transaction when the transaction had none |
| FraudReports.UpdateCaseStatus | services/reversibility-service/src/main/java/com/echopay/reversibility/service/FraudReportService.java:139-160 | a missing case fails with not-found; an illegal move fails and changes no case at all; a legal move sets the status, stamps `resolvedAt` on the first entry into RESOLVED, keeps every other field and notifies the reporter; no other case changes |
| FraudReports.MergeEvidence | services/reversibility-service/src/main/java/com/echopay/reversibility/service/FraudReportService.java:165-184 | the merged map keeps every earlier key and takes every added value |
| FraudReports.AddEvidence | services/reversibility-service/src/main/java/com/echopay/reversibility/service/FraudReportService.java:165-184 | a missing case fails with not-found; an inactive case refuses evidence and no case changes; an active case gets the merged evidence and keeps every other field; no status and no other case changes |
| FraudReports.GetActiveFraudCases | services/reversibility-service/src/main/java/com/echopay/reversibility/service/FraudReportService.java:129-134 | exactly the stored OPEN and INVESTIGATING cases |
| Reversals.ValidateReversalRequest | services/reversibility-service/src/main/java/com/echopay/reversibility/service/AutomatedReversalService.java:194-214 | a request passes exactly when reversal is allowed; otherwise the first failing check, in source order, gives its message |
| Reversals.ResolvedCaseCannotBeReversed | services/reversibility-service/src/main/java/com/echopay/reversibility/service/AutomatedReversalService.java:194-214 | a RESOLVED or CLOSED case is always refused, with "Cannot reverse inactive fraud case" once the earlier checks pass |
| Reversals.ExecuteReversal | services/reversibility-service/src/main/java/com/echopay/reversibility/service/AutomatedReversalService.java:140-175 | a refused request does nothing; otherwise the four steps run in order and a failing step leaves exactly the earlier ones done; success reports the transaction's amount; success exactly when allowed and no step fails |
| Reversals.ReverseAndResolve | services/reversibility-service/src/main/java/com/echopay/reversibility/service/AutomatedReversalService.java:93-134 | success resolves an INVESTIGATING case as FRAUD_CONFIRMED after the reversal steps; a failure leaves status and resolution as they were |
| Reversals.ExecuteAutomatedReversal | services/reversibility-service/src/main/java/com/echopay/reversibility/service/AutomatedReversalService.java:93-134 | the case's reversal time is always recorded, from the start time to the finishing clock reading; success resolves the case as FRAUD_CONFIRMED and notifies the reporter of the amount; failure records FAILED, leaves the case and ends with the escalation to arbitration |
| Reversals.ProcessAutomatedReversal | services/reversibility-service/src/main/java/com/echopay/reversibility/service/AutomatedReversalService.java:76-87 | below the 0.8 confidence threshold the case is only escalated; at or above it, the automated reversal runs and is tracked |
| Reversals.ProcessCandidates | services/reversibility-service/src/main/java/com/echopay/reversibility/service/AutomatedReversalService.java:58-71 | every candidate is handled, and cases that are not candidates are untouched |
| Reversals.ProcessAutomatedReversals | services/reversibility-service/src/main/java/com/echopay/reversibility/service/AutomatedReversalService.java:58-71 | the candidates are exactly the HIGH or CRITICAL INVESTIGATING cases older than one hour; each is handled; other cases are untouched |
| Reversals.ExecuteManualReversal | services/reversibility-service/src/main/java/com/echopay/reversibility/service/AutomatedReversalService.java:254-275 | the reversal is tracked; success exactly when allowed and no step fails, reporting the case and amount, and records a COMPLETED time from the start to the finishing clock reading, within the hour exactly when that span is at most 60 minutes; a failing step leaves exactly the earlier steps done; any failure leaves the case IN_PROGRESS in the tracker |
| Arbitration.AssignCaseToArbitrator | services/reversibility-service/src/main/java/com/echopay/reversibility/service/ArbitrationService.java:62-100 | only an existing, INVESTIGATING, unassigned case is assigned, keeping every other field, followed by the log entry and the two notifications in order; every failure changes nothing; no status changes |
| Arbitration.DecisionFailure | services/reversibility-service/src/main/java/com/echopay/reversibility/service/ArbitrationService.java:149-167 | a decision is accepted exactly for an existing, INVESTIGATING, assigned case and a valid resolution; otherwise the first failing check gives its failure |
| Arbitration.DecisionEvidence | services/reversibility-service/src/main/java/com/echopay/reversibility/service/ArbitrationService.java:170-181 | non-empty additional evidence is stored with the decision time and every other key is kept; otherwise the evidence is unchanged |
| Arbitration.RecordDecision | services/reversibility-service/src/main/java/com/echopay/reversibility/service/ArbitrationService.java:170-188 | the case is RESOLVED with the resolution, the reasoning and the decision evidence |
| Arbitration.ProcessArbitrationDecisionAsWritten | services/reversibility-service/src/main/java/com/echopay/reversibility/service/ArbitrationService.java:149-221 | as written: a rejected decision changes nothing; a FRAUD_CONFIRMED decision resolves the case and then always fails the reversal, leaving an IN_PROGRESS tracker record; other decisions resolve and unfreeze |
| Arbitration.ProcessArbitrationDecision | services/reversibility-service/src/main/java/com/echopay/reversibility/service/ArbitrationService.java:149-221 | corrected: a FRAUD_CONFIRMED decision succeeds exactly when the transaction is eligible and no step fails, reversing first and then resolving with a COMPLETED tracker record; a failed reversal leaves the case unchanged, reports the ineligibility or the failing step with exactly the earlier steps done, and leaves an IN_PROGRESS tracker record; other decisions resolve and unfreeze |
| Arbitration.NatToString | services/reversibility-service/src/main/java/com/echopay/reversibility/service/ArbitrationService.java:240-245 | a number prints as a non-empty string of decimal digits, one digit exactly below 10 |
| Arbitration.NatToStringRoundTrip | services/reversibility-service/src/main/java/com/echopay/reversibility/service/ArbitrationService.java:240-245 | reading the printed digits back gives the number |
| Arbitration.TimeRemainingTextMeaning | services/reversibility-service/src/main/java/com/echopay/reversibility/service/ArbitrationService.java:240-245 | the text `TimeRemainingText` builds is "OVERDUE" exactly when no hour is left; otherwise it ends in the hours suffix and the number before it reads back as the hours |
| Arbitration.CaseTimeRemainingText | services/reversibility-service/src/main/java/com/echopay/reversibility/service/ArbitrationService.java:240-245 | an overdue case shows OVERDUE; a case that shows hours is INVESTIGATING and has at most 72 of them |
| Arbitration.GetCasesForArbitrator | services/reversibility-service/src/main/java/com/echopay/reversibility/service/ArbitrationService.java:226-250 | exactly the summaries of the arbitrator's INVESTIGATING cases |
| Arbitration.SummaryMeaning | services/reversibility-service/src/main/java/com/echopay/reversibility/service/ArbitrationService.java:232-246 | a summary keeps the case id, shows the type and priority by values that read back to the case's own, and says OVERDUE exactly when no hour is left, as for every overdue case |
| Arbitration.EscalationEffectsCount | services/reversibility-service/src/main/java/com/echopay/reversibility/service/ArbitrationService.java:300-324 | escalating a batch makes three calls per case |
| Arbitration.EscalateAll | services/reversibility-service/src/main/java/com/echopay/reversibility/service/ArbitrationService.java:283-295 | every case of the batch is stamped escalated and nothing else of it changes; the calls are those of each case in order; other cases are untouched |
| Arbitration.CheckForOverdueCases | services/reversibility-service/src/main/java/com/echopay/reversibility/service/ArbitrationService.java:283-295 | exactly the cases needing escalation are escalated, after which none needs it; the batch log follows only a non-empty batch; other cases are untouched |
| Arbitration.NeedsEscalation | services/reversibility-service/src/main/java/com/echopay/reversibility/repository/FraudCaseRepository.java:111-116 | a case needs escalation exactly when it is overdue (INVESTIGATING past the 72-hour window) and not yet escalated; such a case has no hour left |
| Arbitration.Count | services/reversibility-service/src/main/java/com/echopay/reversibility/service/ArbitrationService.java:329-364 | a filtered count never exceeds the number of cases |
| Arbitration.CountPositive | services/reversibility-service/src/main/java/com/echopay/reversibility/service/ArbitrationService.java:329-364 | a case that passes the filter makes the count positive |
| Arbitration.CountComplement | services/reversibility-service/src/main/java/com/echopay/reversibility/service/ArbitrationService.java:329-364 | the counts of a filter and of its negation add up to the number of cases |
| Arbitration.PriorityCountsSum | services/reversibility-service/src/main/java/com/echopay/reversibility/service/ArbitrationService.java:329-364 | the four priority counts add up to the number of cases |
| Arbitration.PriorityGroups | services/reversibility-service/src/main/java/com/echopay/reversibility/service/ArbitrationService.java:346-352 | each priority's entry is the number of cases with that priority, present only when it is positive; the counts add up to the number of cases |
| Arbitration.Workload | services/reversibility-service/src/main/java/com/echopay/reversibility/service/ArbitrationService.java:354-361 | every arbitrator with a case appears, with the positive number of their cases |
| Arbitration.GetArbitrationStatistics | services/reversibility-service/src/main/java/com/echopay/reversibility/service/ArbitrationService.java:329-364 | over the cases under investigation: the assigned count is the number with an arbitrator, the rest are unassigned; the overdue count is the number past their deadline; the priority groups are the per-priority counts of those cases; the workload counts each arbitrator's cases |
| Arbitration.WorkloadPositive | services/reversibility-service/src/main/java/com/echopay/reversibility/service/ArbitrationService.java:354-361 | an arbitrator who appears in the workload has at least one case |
| Errors.HTTPStatus | shared/libraries/errors/errors.go:136-157 | the status is 500 exactly for codes the table does not list, 503 exactly for the two unavailability codes, and always between 400 and 503 |
| Errors.RetryableIsNotUserError | shared/libraries/errors/errors.go:106-133 | no code is both retryable and a user error |
| Errors.RetryableIsServerStatus | shared/libraries/errors/errors.go:106-157 | every retryable code maps to a 5xx status |
| Errors.UserErrorsReportedAsServerErrors | shared/libraries/errors/errors.go:119-157 | of the user-error codes exactly three are reported with a 5xx status |
| Errors.IsRetryableCode | shared/libraries/errors/errors.go:105-116 | a retryable code is never a user-error code |
| Errors.IsUserErrorCode | shared/libraries/errors/errors.go:118-133 | a user-error code is never retryable |
| Errors.ErrorText | shared/libraries/errors/errors.go:23-25 | the text is the service in brackets, the code and the message, with five characters of punctuation |
| Errors.EchoPayError.Error | shared/libraries/errors/errors.go:23-25 | the service, code and message read back from the text, for a service without ']' and a code without ':' |
| Errors.IndexOf | shared/libraries/errors/errors.go:23-25 | the first position of a character, or none when it does not occur |
| Errors.ErrorTextRoundTrip | shared/libraries/errors/errors.go:23-25 | service, code and message are recovered from the error text |
| Errors.CodeAndMessageRoundTrip | shared/libraries/errors/errors.go:23-25 | the code and message are recovered from the part after the bracket |
| Errors.IndexOfPrefix | shared/libraries/errors/errors.go:23-25 | the first occurrence after a prefix free of the character is at the prefix's length |
| Errors.ErrorTextInjective | shared/libraries/errors/errors.go:23-25 | two errors with the same text have the same service, code and message |
| Errors.EchoPayError.New | shared/libraries/errors/errors.go:69-77 | the error carries the code, message, service and time, with no cause, context or details |
| Errors.EchoPayError.Wrap | shared/libraries/errors/errors.go:80-89 | as `NewError`, with the wrapped cause kept |
| Errors.EchoPayError.WithContext | shared/libraries/errors/errors.go:92-97 | sets the three ids in place and returns the same error; details are kept |
| Errors.EchoPayError.WithDetails | shared/libraries/errors/errors.go:100-103 | replaces the details in place and returns the same error |
| Errors.NewTransactionError | shared/libraries/errors/errors.go:172-174 | a new error of the transaction service with the given code and message |
| Errors.NewFraudDetectionError | shared/libraries/errors/errors.go:176-178 | a new error of the fraud-detection service |
| Errors.NewTokenManagementError | shared/libraries/errors/errors.go:180-182 | a new error of the token-management service |
| Errors.NewReversibilityError | shared/libraries/errors/errors.go:184-186 | a new error of the reversibility service |
| Errors.NewComplianceError | shared/libraries/errors/errors.go:188-190 | a new error of the compliance service |
| Middleware.RequestID | shared/libraries/http/middleware.go:15-31 | the caller's request id is kept, and a generated one is used only when the header is empty |
| Middleware.Cors | shared/libraries/http/middleware.go:34-48 | the four CORS headers are always set, and exactly an OPTIONS request is answered 204 without going on |
| Middleware.Recent | shared/libraries/http/middleware.go:132-140 | the pruned list keeps only timestamps less than a minute old, in order |
| Middleware.RecentComplete | shared/libraries/http/middleware.go:132-140 | every timestamp less than a minute old survives pruning |
| Middleware.RecentIdempotent | shared/libraries/http/middleware.go:132-140 | pruning twice at the same moment is pruning once |
| Middleware.RecentAppend | shared/libraries/http/middleware.go:132-154 | pruning a list with a new timestamp prunes the old part and keeps the new one when it is recent |
| Middleware.OtherClientsUntouched | shared/libraries/http/middleware.go:127-158 | a request changes no other client's record |
| Middleware.AdmittedWithinLimit | shared/libraries/http/middleware.go:143-154 | an admitted request is recorded last and the client stays within the limit; a rejected one only prunes |
| Middleware.RejectionIsStable | shared/libraries/http/middleware.go:143-151 | a rejected client is rejected again at the same moment, and the second rejection changes nothing |
| Middleware.AfterRequestWithinLimit | shared/libraries/http/middleware.go:127-158 | no client ever holds more timestamps than the limit |
| Middleware.RateLimiter.constructor | shared/libraries/http/middleware.go:122-125 | a limiter with the given rate and no clients |
| Middleware.RateLimiter.Prune | shared/libraries/http/middleware.go:132-140 | the pruning loop computes the recent timestamps |
| Middleware.RateLimiter.Handle | shared/libraries/http/middleware.go:127-158 | the request goes on exactly when the client is under the limit and is otherwise answered 429; the record becomes the after-request state |
| TokenService.StatusRoundTrip | services/token-management/src/migrations/migrations.go:19 | parsing a token status's value gives the status back |
| TokenService.ParseStatusAcceptsExactly | services/token-management/src/service/token_service.go:771-784 | exactly the four status strings parse, each to the status of that value |
| TokenService.ValidateIssueRequest | services/token-management/src/service/token_service.go:600-665 | a request passes exactly when type, denomination, owner, issuer, series and quantity are valid; every failure is an invalid-state error of the token service, the first check deciding the message |
| TokenService.ValidateTransferRequest | services/token-management/src/service/token_service.go:667-690 | a transfer request passes exactly when the token, the new owner and the transaction are all non-nil |
| TokenService.ValidateOwnershipTransfer | services/token-management/src/service/token_service.go:692-710 | a non-transferable token gives the frozen-token error; a transfer to the current owner is refused; otherwise it passes |
| TokenService.ValidateTokenDestruction | services/token-management/src/service/token_service.go:712-722 | only an invalid token is refused destruction |
| TokenService.ValidateTokenFreeze | services/token-management/src/service/token_service.go:724-742 | a freeze passes exactly for a token that is neither frozen nor invalid, each refusal with its message |
| TokenService.ValidateTokenUnfreeze | services/token-management/src/service/token_service.go:744-754 | an unfreeze passes exactly for a frozen token |
| TokenService.FreezeGuardsExclusive | services/token-management/src/service/token_service.go:712-754 | no token can be both frozen and unfrozen, and any token that can be frozen can be destroyed |
| TokenService.IdListFault | services/token-management/src/service/token_service.go:787-803 | an id-list failure is an invalid-state error |
| TokenService.IdListFaultPrefix | services/token-management/src/service/token_service.go:787-803 | the first bad id found in a prefix is the one the whole list reports |
| TokenService.IdListFaultMeaning | services/token-management/src/service/token_service.go:787-803 | an id list passes exactly when it holds no nil id and no repeat |
| TokenService.BulkStatusFault | services/token-management/src/service/token_service.go:756-806 | a bulk-request failure is an invalid-state error |
| TokenService.BulkStatusFaultMeaning | services/token-management/src/service/token_service.go:756-806 | a bulk request passes exactly with 1 to 1000 distinct non-nil ids and a valid status |
| TokenService.ValidateTokenIds | services/token-management/src/service/token_service.go:787-803 | the duplicate scan with its seen set reports the first bad id |
| TokenService.ValidateBulkStatusUpdateRequest | services/token-management/src/service/token_service.go:756-806 | the validation of a bulk request, as its specification function |
| TokenService.Transferred | services/token-management/src/service/token_service.go:159-162 | the new owner holds the same token, with the same status, and the transfer is in its history |
| TokenService.TransferFaultMeaning | services/token-management/src/service/token_service.go:125-159 | a stored token in a complete request fails with the frozen error exactly when not transferable, and otherwise only for a transfer to its owner |
| TokenService.SingleTokenFault | services/token-management/src/service/token_service.go:192-246 | a nil id, then a missing token, then the operation's own guard decides the failure |
| TokenService.TokenLedger.constructor | services/token-management/src/service/token_service.go:29-34 | an empty ledger |
| TokenService.TokenLedger.GetToken | services/token-management/src/service/token_service.go:249-270 | a stored token is returned exactly for a non-nil id in the ledger; a nil id is an invalid-state error and a missing token a not-found error |
| TokenService.TokenLedger.VerifyOwnership | services/token-management/src/service/token_service.go:290-297 | fails as `GetToken` fails, and otherwise says whether the owner holds the token |
| TokenService.TokenLedger.IssueTokens | services/token-management/src/service/token_service.go:76-122 | a valid request adds exactly the requested number of new active tokens and returns them; an invalid request or a store failure changes nothing; existing tokens are untouched |
| TokenService.TokenLedger.TransferToken | services/token-management/src/service/token_service.go:125-189 | the first failing check is returned unchanged; a store failure is a transfer-failed error; success moves the token to the new owner and reports the previous one |
| TokenService.TokenLedger.ChangeStatus | services/token-management/src/service/token_service.go:192-478 | after the guard passes, exactly the named token takes the new status; a failing store reports the operation's own text; any failure changes nothing |
| TokenService.TokenLedger.DestroyToken | services/token-management/src/service/token_service.go:192-246 | a token that is not invalid becomes invalid; a refused destruction changes nothing; a failing store reports "failed to destroy token" and changes nothing |
| TokenService.TokenLedger.FreezeToken | services/token-management/src/service/token_service.go:351-413 | a token that is neither frozen nor invalid becomes frozen, with the time and reason reported; a failing store reports "failed to freeze token"; otherwise nothing changes |
| TokenService.TokenLedger.UnfreezeToken | services/token-management/src/service/token_service.go:416-478 | a frozen token becomes active, with the time and reason reported; a failing store reports "failed to unfreeze token"; otherwise nothing changes |
| TokenService.TokenLedger.BulkUpdateTokenStatus | services/token-management/src/service/token_service.go:481-504 | a valid request sets the status of every listed stored token and no other, and reports the list length; failures change nothing |
| TokenService.TokenLedger.BulkFreezeTokens | services/token-management/src/service/token_service.go:549-571 | an empty or oversized list is refused with its own message; success exactly for a valid list, freezing exactly the listed stored tokens |
| TokenService.TokenLedger.BulkUnfreezeTokens | services/token-management/src/service/token_service.go:574-596 | an empty or oversized list is refused with its own message; success exactly for a valid list, activating exactly the listed stored tokens |
| TokenHandler.ClampLimit | services/token-management/src/handler/token_handler.go:249-255 | a limit in 1..1000 is kept and anything else gives 100 |
| TokenHandler.ClampOffset | services/token-management/src/handler/token_handler.go:257-260 | a non-negative offset is kept and anything else gives 0 |
| TokenHandler.Filter | services/token-management/src/handler/token_handler.go:272-291 | the filtered list keeps only wallet tokens that pass |
| TokenHandler.FilterComplete | services/token-management/src/handler/token_handler.go:272-291 | every wallet token that passes is kept |
| TokenHandler.FilterAppend | services/token-management/src/handler/token_handler.go:272-291 | filtering a concatenation filters each part |
| TokenHandler.FilterTwice | services/token-management/src/handler/token_handler.go:272-291 | filtering by status and then by CBDC type is filtering by both at once |
| TokenHandler.SelectedMeaning | services/token-management/src/handler/token_handler.go:272-291 | the tokens listed are those matching every given filter, in wallet order |
| TokenHandler.FilterSame | services/token-management/src/handler/token_handler.go:272-291 | equivalent filters select the same tokens |
| TokenHandler.FilterAll | services/token-management/src/handler/token_handler.go:272-291 | a filter that passes everything keeps the list |
| TokenHandler.FilterTokens | services/token-management/src/handler/token_handler.go:272-291 | the filtering loop computes the filtered list |
| TokenHandler.SelectTokens | services/token-management/src/handler/token_handler.go:272-291 | the status filter and then the CBDC-type filter, each only when given, select the listed tokens |
| TokenHandler.PageOf | services/token-management/src/handler/token_handler.go:294-305 | the slice bounds of the handler give exactly the page starting at the offset |
| TokenHandler.Paginate | services/token-management/src/handler/token_handler.go:294-305 | the page has at most `limit` tokens, is empty past the end, and is the run of tokens starting at the offset |
| TokenHandler.ConsecutivePages | services/token-management/src/handler/token_handler.go:294-305 | two consecutive pages together are the page of twice the size |
| TokenHandler.GetWalletTokens | services/token-management/src/handler/token_handler.go:236-317 | a bad wallet id is 400, a service error 500; otherwise the listing reports the clamped limit and offset, the filtered total and the page of filtered tokens |
| TokenHandler.TransferErrorStatus | services/token-management/src/handler/token_handler.go:129-151 | 404 exactly for not-found, 409 exactly for frozen, 400 for every other service error |
| TokenHandler.TransferAnswers | services/token-management/src/handler/token_handler.go:129-151 | a failed transfer is answered 404 exactly for a missing token and 409 exactly for a non-transferable one |
| TokenHandler.GetTokensByCBDCType | services/token-management/src/handler/token_handler.go:609-636 | an unknown type is 400 with the valid types listed; a known type is an empty listing of that type |
| Transactions.ValidateTransactionRequest | services/transaction-service/src/service/transaction_service.go:336-365 | a request passes exactly for distinct non-nil wallets, an amount in (0, 10^9] and a supported currency; every failure is an invalid-transaction error, the first check deciding the message |
| Transactions.TransferConserves | services/transaction-service/src/service/transaction_service.go:137-162 | the transfer happens exactly when the sender can afford it; the sender loses and the receiver gains the amount, the sum is kept, no balance goes negative, and no other balance changes |
| Transactions.LastN | services/transaction-service/src/service/transaction_service.go:368-378 | the last n entries, in order |
| Transactions.LastNAppend | services/transaction-service/src/service/transaction_service.go:368-378 | appending to a window of the last n entries drops the oldest only when it is full |
| Transactions.TransactionMetrics.constructor | services/transaction-service/src/service/transaction_service.go:47-64 | empty metrics |
| Transactions.TransactionMetrics.RecordProcessingTime | services/transaction-service/src/service/transaction_service.go:368-378 | the newest duration is appended and the window keeps at most 1000 entries, dropping the oldest |
| Transactions.TransactionMetrics.RecordSuccess | services/transaction-service/src/service/transaction_service.go:381-385 | the success count goes up by one |
| Transactions.TransactionMetrics.RecordFailure | services/transaction-service/src/service/transaction_service.go:388-392 | the failure count goes up by one |
| Transactions.TransactionMetrics.Snapshot | services/transaction-service/src/service/transaction_service.go:324-333 | a fresh copy of the current counts and durations |
| Transactions.ProcessMeaning | services/transaction-service/src/service/transaction_service.go:78-187 | a transaction completes exactly when it is valid, stored, affordable and the balances are saved; then it is COMPLETED and the exact amount moves; every failure keeps the balances; a validation failure publishes nothing; a shortfall is an insufficient-funds error |
| Transactions.TransactionService.constructor | services/transaction-service/src/service/transaction_service.go:47-64 | a service over the given balances with empty metrics |
| Transactions.TransactionService.ProcessAtomic | services/transaction-service/src/service/transaction_service.go:125-187 | an unaffordable transfer is insufficient funds, a store failure is reported as such, and only success changes the balances, to the transfer's result |
| Transactions.TransactionService.ProcessTransaction | services/transaction-service/src/service/transaction_service.go:78-122 | the outcome is the one processing defines, and the duration, success or failure is recorded in the metrics |
| Transactions.TransactionService.Execute | services/transaction-service/src/service/transaction_service.go:78-122 | the validation, storage and atomic transfer give the outcome processing defines |
| Transactions.TransactionService.GetServiceMetrics | services/transaction-service/src/service/transaction_service.go:324-333 | a fresh copy of the service's metrics |
| Transactions.WalletPageBounds | services/transaction-service/src/service/transaction_service.go:205-212 | a limit in 1..100 is kept and anything else gives 50; a negative offset gives 0 |
| Transactions.PendingLimit | services/transaction-service/src/service/transaction_service.go:310-316 | a limit in 1..1000 is kept and anything else gives 100 |
| StatusTracking.UnfilteredMatchesAll | services/transaction-service/src/events/status_tracker.go:125-169 | a filter without criteria lets every transaction through |
| StatusTracking.SingleCriterion | services/transaction-service/src/events/status_tracker.go:125-169 | an id-only filter matches exactly that transaction; a wallet-only filter matches exactly the transactions it sends or receives |
| StatusTracking.FilterIsConjunction | services/transaction-service/src/events/status_tracker.go:125-169 | a transaction passes a filter exactly when it passes each of its lists alone |
| StatusTracking.WiderListMatchesMore | services/transaction-service/src/events/status_tracker.go:125-169 | adding ids to a non-empty id list never excludes a match |
| StatusTracking.MatchesFilter | services/transaction-service/src/events/status_tracker.go:125-169 | the three found-flag loops decide whether the transaction passes the filter |
| StatusTracking.FraudScoreMessage | services/transaction-service/src/events/status_tracker.go:109-122 | no new score gives "Fraud score updated"; above 0.7 high risk, above 0.3 medium, otherwise low, each band exactly |
| StatusTracking.RiskBandsOrdered | services/transaction-service/src/events/status_tracker.go:109-122 | a higher score never falls into a lower band |
| StatusTracking.PublishedMeaning | services/transaction-service/src/events/status_tracker.go:81-106 | publishing keeps the subscribers and filters; a subscriber receives the update exactly when it matches and has room; no buffer exceeds 100 |
| StatusTracking.StatusTracker.constructor | services/transaction-service/src/events/status_tracker.go:44-50 | a tracker without subscribers |
| StatusTracking.StatusTracker.Subscribe | services/transaction-service/src/events/status_tracker.go:52-66 | adds one subscriber with its filter and an empty buffer |
| StatusTracking.StatusTracker.Unsubscribe | services/transaction-service/src/events/status_tracker.go:69-78 | removes exactly that subscriber; an unknown id changes nothing |
| StatusTracking.StatusTracker.SubscriberCount | services/transaction-service/src/events/status_tracker.go:172-176 | the number of subscribers |
| StatusTracking.StatusTracker.PublishStatusUpdate | services/transaction-service/src/events/status_tracker.go:81-106 | every subscriber ends as publishing the update of the transaction defines |
| StatusTracking.StatusTracker.PublishFraudScoreUpdate | services/transaction-service/src/events/status_tracker.go:109-122 | publishes a status update carrying the band message of the new score |
| FraudScoring.GetOr | services/fraud-detection/src/main.py:159-161 | a present value is used, and the default otherwise |
| FraudScoring.ContextOf | services/fraud-detection/src/main.py:156-163 | the context carries the amount and each user value that is given; for missing user data it has an account age of 365 days, no recent transactions and a known location |
| FraudScoring.RuleScore | services/fraud-detection/src/main.py:272-304 | the rule score is the sum of the increments when that is at most 1, and exactly 1 when it is larger, so it lies in [0, 1] |
| FraudScoring.RuleBands | services/fraud-detection/src/main.py:278-302 | each rule fires exactly on its threshold: large amounts (0.3 / 0.1), micro amounts, velocity (0.4 / 0.2), new users with large amounts; large and micro exclude each other |
| FraudScoring.DefaultsScoreNothing | services/fraud-detection/src/main.py:156-163 | a zero amount with no user data scores 0 |
| FraudScoring.RuleScoreMonotone | services/fraud-detection/src/main.py:288-297 | more recent transactions or a new location never lower the rule score |
| FraudScoring.ComponentScore | services/fraud-detection/src/main.py:168-205 | a service's score is used when it answers; otherwise the default |
| FraudScoring.Components | services/fraud-detection/src/main.py:166-209 | a service that answers gives its own score; missing or failing services give 0.5, 0.1 and 0.15; the rule-based component is the rule score of the context, in [0, 1] |
| FraudScoring.FallbackIsAverage | services/fraud-detection/src/main.py:228-237 | the weights sum to 1, so the fallback score lies between the smallest and largest component |
| FraudScoring.FallbackInUnitRange | services/fraud-detection/src/main.py:228-237 | with service scores in [0, 1] the fallback score is in [0, 1] |
| FraudScoring.FallbackWithoutServices | services/fraud-detection/src/main.py:166-237 | with no services the score is 0.2425 plus a tenth of the rule score, so at most 0.3425 |
| FraudScoring.Select | services/fraud-detection/src/main.py:306-332 | the selected factors are among the candidates and no more numerous |
| FraudScoring.SelectKeepsOrder | services/fraud-detection/src/main.py:306-332 | the selected factors keep the candidates' order |
| FraudScoring.SelectMembers | services/fraud-detection/src/main.py:306-332 | a distinct candidate is selected exactly when its flag is set |
| FraudScoring.FactorFlags | services/fraud-detection/src/main.py:311-330 | one flag per candidate factor |
| FraudScoring.RiskFactorsMeaning | services/fraud-detection/src/main.py:306-332 | each factor is reported exactly when its threshold is passed, in the fixed order; high and micro amounts exclude each other |
| FraudScoring.AnalyzeWithoutEngine | services/fraud-detection/src/main.py:156-237 | without the risk engine, the components are those of the service answers and the defaulted context, the overall score is their weighted fallback and the factors are the simple ones |

## Left out

- I/O, logging (`System.out`, the Go and Python loggers) and Prometheus metrics: not modelled. They do not affect results.
- Concurrency: not modelled. This covers Spring `@Async`/`@Scheduled` scheduling, the `ConcurrentHashMap` and `sync.RWMutex` locking, the rate limiter's map (shared between requests without a lock), and the goroutine that publishes balance-update events. Every operation is modelled as running alone.
- Spring `@Transactional` rollback: not modelled. `Arbitration.ProcessArbitrationDecisionAsWritten` therefore keeps the resolved case on its failure path, where the database would roll the case back but not the tracker record.
- Formatted messages are modelled by their constant part only. The values the source formats into them (UUIDs, statuses, amounts, `%v` of a cause) are left out:
  - "duplicate token ID found";
  - "unsupported currency";
  - "insufficient funds";
  - "failed to update balance" (this one stands for the several store-failure texts);
  - the not-found texts of the Java services, which carry the case id in a `Failure` value instead.
- The start of a tracked reversal is stamped with the time the calling operation receives, for every case of an automated batch alike, where Java reads the clock again as each reversal starts. The end is the per-case finishing reading described above.
- Generated identifiers (`uuid.New()`, `UUID.randomUUID()`) are parameters. The token ledger receives 1000 fresh ids per issue, and `Subscribe` receives an id not yet in use.
- The database layer: the token and transaction repositories, `database.Transaction` and the JPA repository. The in-memory ledger, balance map and case sequence stand in for them. Store failures are booleans that make the whole operation fail unchanged.
- The token model file (`models.Token`'s `IsFrozen`, `IsInvalid`, `IsTransferable`) is not part of this model. Those predicates are the `TokenRules` parameter. `TransferOwnership` is modelled as the change of owner plus the history entry.
- The transaction model file (the currency and status types) is not part of this model. Currencies and statuses are datatypes. A currency is one of the three CBDCs, or `Other`, which validation refuses.
- The event publisher is not modelled. The transaction events that processing publishes are the `Notice` trace.
- Not modelled in token management: `GetTokensByStatus`, `GetTokenAuditTrail`, `GetTokensByOwner` and `GetTokenHistory`. They are repository reads with no logic beyond the query.
- Not modelled in the transaction service: `GetTransaction`, `UpdateTransactionStatus`, `SetFraudScore`, `GetWalletBalance` and `GetTransactionStats`. They are repository reads and writes with no logic of the service's own.
- Not modelled in the reversibility services: `getUnassignedCases`, `getCaseForArbitration`, `getFraudCasesByReporter`, `getReversalStatistics` and `getAutomatedReversalRate`. They are plain repository reads or fixed values.
- Status tracker: the subscriber channels and their consumers are modelled as queues. `CleanupInactiveSubscribers` and `StartCleanupRoutine` are not modelled: they depend on wall-clock activity times and a ticker.
- Middleware: `MetricsMiddleware`, `HealthCheckMiddleware`, `MetricsHandler` and `ErrorHandlerMiddleware` are not modelled. They only log, time requests or answer fixed payloads.
- TokenHandler.TransferErrorStatus: the handler's 500 branch for an error that is not an `EchoPayError` is not modelled. The service wraps every failure of `TransferToken` into one, so that branch is never reached from it.
- Middleware.RateLimiter.Handle: the 429 answer is modelled without its JSON body (error text, request id, timestamp).
- Errors.EchoPayError.New: the stack trace (`getStackTrace`) is not modelled, detail values are strings, and a wrapped cause is its text.
- Reversals.StepFailure: the failure texts of the three reversal steps are stand-ins. In the source a failing collaborator (token invalidation, reissue, transaction marking) throws its own exception, and that exception's message becomes the reason recorded by the tracker. The collaborators are not part of this model.
- TokenService.TokenLedger.DestroyToken, FreezeToken and UnfreezeToken: the token model's `Invalidate`, `Freeze` and `Unfreeze` are taken never to fail once the service's own checks have passed. The error those model methods could return is not modelled, because the token model file is not part of this model.
- Transactions: amounts and balances are exact reals, not `float64`. `Transactions.TransferConserves` (the sum of the two balances is kept) therefore holds exactly in the model, while float64 rounding can break it in the source.
- Fraud scoring: floating-point arithmetic is modelled as exact reals. This covers Python's `score +=` and the weighted average.
- FraudScoring.AnalyzeWithoutEngine: the `round(..., 3)` of the response is not modelled. The risk-engine path and the FastAPI routes are not part of this model.
- FraudScoring.FallbackInUnitRange: the range is proved only for service scores in [0, 1]. The source does not check what the services return.
- FraudDetection.FraudConfidence: `UUID.hashCode()` is taken as an arbitrary 32-bit value. How Java computes it from the UUID's bits is not modelled.
- TokenService.TokenLedger.BulkUpdateTokenStatus: it reports the length of the list as the updated count even when some listed ids have no token. The model follows the source in this.
- Transactions.TransactionService.ProcessTransaction: the processing duration is a parameter, not a clock reading.

## Findings

| source | as written | input that shows it | evidently intended | confidence | as-written member | corrected member |
|---|---|---|---|---|---|---|
| services/reversibility-service/src/main/java/com/echopay/reversibility/service/ArbitrationService.java:186-202 | The case is resolved (status RESOLVED) before `executeManualReversal` runs. `validateReversalRequest` (AutomatedReversalService.java:207-213) then refuses the now inactive case with "Cannot reverse inactive fraud case", so the reversal always throws and the tracker keeps an IN_PROGRESS record. | Any valid FRAUD_CONFIRMED decision on an assigned INVESTIGATING case whose transaction is eligible for reversal | Reverse while the case is still INVESTIGATING, then resolve it, as `executeAutomatedReversal` does | not executed | Arbitration.ProcessArbitrationDecisionAsWritten | Arbitration.ProcessArbitrationDecision |

# OneOrder settlement core in Dafny

This project models the settlement core of OneOrder, a freight-forwarding
backend with a browser front end, and proves properties of that model.
One order is split into service tasks. The operation departments confirm an
internal protocol for each task and book receivable and payable expense
entries. The order's amounts are then cleared between the group's legal
entities. The model covers:

- the service-task lifecycle (`OrderServices`), expense entries and their
  status rules (`ExpenseEntries`, `ExpenseEntryStore`), and the fee/service
  decision tables (`FeeValidation`, `ExpenseEntryChecks`, `DefaultEntity`);
- clearing results (`Clearing`), star-mode and chain-mode clearing with
  profit sharing and the balance check (`ClearingEngine`);
- transit-entity ("borrowed letterhead") and cross-border retention
  (`TransitEntities`, `CrossBorderFlows`), and the rule engine that applies
  transit, cross-border and netting rules (`RuleEngine`);
- pass-through routing over up to two hops, netting between two entities
  and differential billing (`Passthrough`);
- service profit, rule selection and the balance checks of profit sharing
  (`ProfitSharing`);
- accounting entries, vouchers and posting (`Accounting`);
- clearing instructions: detail generation, execution order and status
  (`ClearingProcessing`);
- protocol matching and priority on the server (`ProtocolAssignment`) and in
  the browser (`ProtocolManagement`);
- the browser's auto-assignment (`ServiceAssignment`), order visibility and
  business order numbers (`FreightOrder`), and notification bookkeeping
  (`Notifications`).

Shared helpers: `Money` holds amounts and HALF_UP rounding, `Sorting` a
stable sort, `Strings` the number formatting, and `Wrappers` the
`Option`/`Result` types.

Amounts are `real`, an exact rational like Java's `BigDecimal`. Every
`setScale(2, HALF_UP)` or `setScale(4, HALF_UP)` is the explicit function
`Money.Round2` or `Money.Round4`, both built on `Money.HalfUp`. Amounts are not integer cents, because several of the source's
computations keep more than two decimals: the tiered cross-border
retention, the profit-sharing ratios and the reporting rates. Objects that
the source updates in place are classes with `modifies` clauses. They are
the service task, the expense-entry service with its store, the ledger of
vouchers, the clearing processor's instruction store, the profit-sharing
result store, the protocol manager, the assignment board and the
notification centre. Loops that build result lists are
methods proved against a specification function. The wall clock, generated
ids and random draws are parameters.

## Model

| member | source | states |
|---|---|---|
| `OrderServices.ProtocolConfirmedIsLateStage` | src/main/java/com/oneorder/clearing/entity/OrderService.java:298-302 | isProtocolConfirmed holds exactly for PROTOCOL_CONFIRMED, IN_PROGRESS and COMPLETED, the forward stages from the protocol confirmation on |
| `OrderServices.BlockedRemarks` | src/main/java/com/oneorder/clearing/entity/OrderService.java:281-285 | the remarks written by block are the earlier remarks followed by "; " (nothing when there were none), then the label "阻塞原因: ", then the reason, or "null" for a null reason |
| `OrderServices.OrderService.constructor` | src/main/java/com/oneorder/clearing/entity/OrderService.java:63-102 | a new task is PENDING with NORMAL priority and currency CNY, and has no assignee, protocol, remarks or timestamps |
| `OrderServices.OrderService.AssignToOperation` | src/main/java/com/oneorder/clearing/entity/OrderService.java:226-232 | succeeds exactly from PENDING, then the service task is ASSIGNED and stamped; otherwise it is refused and nothing changes |
| `OrderServices.OrderService.Assign` | src/main/java/com/oneorder/clearing/entity/OrderService.java:237-243 | from any status, records staff, department and protocol, sets ASSIGNED and stamps the assignment time |
| `OrderServices.OrderService.ConfirmProtocol` | src/main/java/com/oneorder/clearing/entity/OrderService.java:248-254 | moves ASSIGNED to PROTOCOL_CONFIRMED and stamps it; any other status is refused with nothing changed |
| `OrderServices.OrderService.CanConfirmProtocol` | src/main/java/com/oneorder/clearing/entity/OrderService.java:290-293 | true only when confirmProtocol would succeed (the task is ASSIGNED) and a protocol is attached; an ASSIGNED task is answered false only when it has no protocol, and any other status is answered false |
| `OrderServices.OrderService.Start` | src/main/java/com/oneorder/clearing/entity/OrderService.java:259-265 | moves PROTOCOL_CONFIRMED to IN_PROGRESS and stamps it; any other status is refused |
| `OrderServices.OrderService.Complete` | src/main/java/com/oneorder/clearing/entity/OrderService.java:270-276 | moves IN_PROGRESS to COMPLETED and stamps it; any other status is refused |
| `OrderServices.OrderService.Block` | src/main/java/com/oneorder/clearing/entity/OrderService.java:281-285 | from any status, sets BLOCKED, keeps the reason and appends it to the remarks; every transition keeps the stamps of the stages passed |
| `ExpenseEntries.DefaultEntry` | src/main/java/com/oneorder/clearing/entity/ExpenseEntry.java:96-134 | a new entry is DRAFT (so neither confirmed nor locked), VALID, version 1, in CNY and not a transit entry |
| `ExpenseEntries.LockedIsConfirmed` | src/main/java/com/oneorder/clearing/entity/ExpenseEntry.java:243-252 | a locked entry is confirmed, and a confirmed entry that is not locked has status CONFIRMED |
| `ExpenseEntries.ReceivableXorPayable` | src/main/java/com/oneorder/clearing/entity/ExpenseEntry.java:222-231 | every entry is exactly one of receivable and payable |
| `ExpenseEntryStore.EntryValidation` | src/main/java/com/oneorder/clearing/service/ExpenseEntryService.java:47-58 | a receivable is validated against the service table alone; a payable takes the supplier result only when its level is strictly stricter |
| `ExpenseEntryStore.BuildEntry` | src/main/java/com/oneorder/clearing/service/ExpenseEntryService.java:298-320 | a created entry carries the request's key and amount, the validation result, DRAFT and version 1 |
| `ExpenseEntryStore.UpdatedEntry` | src/main/java/com/oneorder/clearing/service/ExpenseEntryService.java:326-345 | an update replaces the request fields and the validation, keeps id, order and status, and raises the version by exactly one |
| `ExpenseEntryStore.IndexOf` | src/main/java/com/oneorder/clearing/service/ExpenseEntryService.java:81-82 | findById finds the row with that id, or reports that no row has it |
| `ExpenseEntryStore.RemoveKeepsRows` | src/main/java/com/oneorder/clearing/service/ExpenseEntryService.java:127 | deleting an unlocked row keeps the identity column increasing and every locked row in place |
| `ExpenseEntryStore.ReplaceKeepsLocked` | src/main/java/com/oneorder/clearing/service/ExpenseEntryService.java:85-87 | replacing a row keeps every locked row, because a locked row is never rewritten |
| `ExpenseEntryStore.BatchConfirmed` | src/main/java/com/oneorder/clearing/service/ExpenseEntryService.java:229-235 | in a batch, a row becomes CONFIRMED exactly when it was requested, is not locked and passed validation; otherwise it is unchanged |
| `ExpenseEntryStore.OrderRows` | src/main/java/com/oneorder/clearing/service/ExpenseEntryService.java:249 | findByOrderId returns only stored rows of that order |
| `ExpenseEntryStore.Summary` | src/main/java/com/oneorder/clearing/service/ExpenseEntryService.java:251-276 | the summary's net amount is total receivable minus total payable, and its total count is the number of entries |
| `ExpenseEntryStore.CountsAddUp` | src/main/java/com/oneorder/clearing/service/ExpenseEntryService.java:261-276 | the receivable count plus the payable count equals the total count |
| `ExpenseEntryStore.TotalAppend` | src/main/java/com/oneorder/clearing/service/ExpenseEntryService.java:251-269 | adding an entry moves only its own side's total (by its amount) and its own side's count (by one) |
| `ExpenseEntryStore.OrderRowsAppend` | src/main/java/com/oneorder/clearing/service/ExpenseEntryService.java:249 | a new row shows up in its own order's rows, last, and in no other order's |
| `ExpenseEntryStore.NewRowSummary` | src/main/java/com/oneorder/clearing/service/ExpenseEntryService.java:248-276 | saving a new row moves its order's summary by exactly that row and leaves other orders' summaries alone |
| `ExpenseEntryStore.ExpenseEntryService.constructor` | src/main/java/com/oneorder/clearing/service/ExpenseEntryService.java:30-36 | the store starts empty |
| `ExpenseEntryStore.ExpenseEntryService.Create` | src/main/java/com/oneorder/clearing/service/ExpenseEntryService.java:40-71 | a duplicate (order, service, fee, type) is refused with nothing stored; otherwise a DRAFT entry with a fresh id is appended (the duplicate check is at lines 283-293) |
| `ExpenseEntryStore.ExpenseEntryService.Update` | src/main/java/com/oneorder/clearing/service/ExpenseEntryService.java:77-111 | a missing or locked entry is refused with nothing changed; otherwise only that row is replaced by the updated entry |
| `ExpenseEntryStore.ExpenseEntryService.Delete` | src/main/java/com/oneorder/clearing/service/ExpenseEntryService.java:117-129 | a missing entry, or a CONFIRMED or LOCKED one, is refused; otherwise exactly that row is removed |
| `ExpenseEntryStore.ExpenseEntryService.Confirm` | src/main/java/com/oneorder/clearing/service/ExpenseEntryService.java:172-194 | a missing or locked entry, or one whose validation did not pass, is refused; otherwise it becomes CONFIRMED |
| `ExpenseEntryStore.ExpenseEntryService.Lock` | src/main/java/com/oneorder/clearing/service/ExpenseEntryService.java:200-218 | an entry that is not confirmed is refused; a confirmed one becomes LOCKED |
| `ExpenseEntryStore.ExpenseEntryService.BatchConfirm` | src/main/java/com/oneorder/clearing/service/ExpenseEntryService.java:224-242 | every row changes as BatchConfirmed says and no other way; the saved list is the requested rows that exist |
| `ExpenseEntryStore.ExpenseEntryService.GetSummary` | src/main/java/com/oneorder/clearing/service/ExpenseEntryService.java:248-277 | the totals are the receivable and payable amounts of the stored rows of that order, the net amount is receivable minus payable, and the receivable and payable counts add up to the total count, which is the number of those rows |
| `FeeValidation.Ordinal` | src/main/java/com/oneorder/clearing/service/FeeValidationService.java:236-244 | the declaration order of the four validation levels |
| `FeeValidation.BuildResult` | src/main/java/com/oneorder/clearing/service/FeeValidationService.java:180-220 | ALLOWED gives VALID, FORBIDDEN gives ERROR, WARNING gives WARNING, and a SUGGESTION level turns ERROR into WARNING; ERROR exactly for a non-suggestion FORBIDDEN |
| `FeeValidation.ValidateFeeService` | src/main/java/com/oneorder/clearing/service/FeeValidationService.java:31-67 | no constraint row gives WARNING of type UNKNOWN; a failed query or unparseable column gives the failure result; otherwise the built result |
| `FeeValidation.ValidateFeeSupplier` | src/main/java/com/oneorder/clearing/service/FeeValidationService.java:73-118 | a null or blank supplier type is VALID without a lookup; otherwise the same steps on the supplier table |
| `FeeValidation.MergeForEntry` | src/main/java/com/oneorder/clearing/service/ExpenseEntryService.java:52-58 | the merged result is one of the two and at least as strict as both; on a tie the service result is kept |
| `FeeValidation.BatchResult` | src/main/java/com/oneorder/clearing/service/FeeValidationService.java:124-138 | the batch result is one of the two and the stricter; on a tie the supplier result is kept |
| `FeeValidation.MergesDifferOnlyOnTies` | src/main/java/com/oneorder/clearing/service/FeeValidationService.java:135-136 | the entry merge and the batch merge agree whenever the levels differ |
| `ExpenseEntryChecks.ApplicableServices` | src/main/java/com/oneorder/clearing/controller/ExpenseEntryController.java:566-574 | each fee code applies to at most two services; an unknown one to none |
| `ExpenseEntryChecks.ApplicableSupplierTypes` | src/main/java/com/oneorder/clearing/controller/ExpenseEntryController.java:552-560 | each fee code applies to at most one supplier type; an unknown one to none |
| `ExpenseEntryChecks.UnknownFeeCodeFitsNothing` | src/main/java/com/oneorder/clearing/controller/ExpenseEntryController.java:546-560 | an unknown fee code is compatible with no service and no supplier type |
| `ExpenseEntryChecks.PerformValidation` | src/main/java/com/oneorder/clearing/controller/ExpenseEntryController.java:483-502 | VALID iff service and supplier are compatible; ERROR iff the service is not; WARNING iff only the given supplier type is not |
| `ExpenseEntryChecks.ValidateFeeService` | src/main/java/com/oneorder/clearing/controller/ExpenseEntryController.java:119-148 | a request without a fee code fails; otherwise its verdict is performValidation's |
| `ExpenseEntryChecks.MissingSupplierTypeDefersToService` | src/main/java/com/oneorder/clearing/controller/ExpenseEntryController.java:488 | a null supplier type counts as compatible, so the service alone decides VALID or ERROR |
| `ExpenseEntryChecks.InOrder` | src/main/java/com/oneorder/clearing/controller/ExpenseEntryController.java:512 | the filter accepts exactly the order's three services |
| `ExpenseEntryChecks.CommonServices` | src/main/java/com/oneorder/clearing/controller/ExpenseEntryController.java:511-516 | the intersection holds exactly the services that both the fee code and the order have |
| `ExpenseEntryChecks.PerformServiceSuggestion` | src/main/java/com/oneorder/clearing/controller/ExpenseEntryController.java:507-533 | canAutoSelect iff the intersection has exactly one element, which is the suggestion; an empty intersection gives the no-service reason |
| `ExpenseEntryChecks.ApplicableServicesDistinct` | src/main/java/com/oneorder/clearing/controller/ExpenseEntryController.java:566-574 | the applicable services of a fee code are listed once each |
| `ExpenseEntryChecks.SuggestionIsTheOnlyCommonService` | src/main/java/com/oneorder/clearing/controller/ExpenseEntryController.java:518-530 | a suggested service is the only common service; without a suggestion there is none or there are two different ones |
| `ExpenseEntryChecks.CommonServicesTable` | src/main/java/com/oneorder/clearing/controller/ExpenseEntryController.java:511-574 | the intersection for every fee code of the table |
| `ExpenseEntryChecks.SuggestionExamples` | src/main/java/com/oneorder/clearing/controller/ExpenseEntryController.java:507-533 | FCL001 fits several order services, CUSTOMS001 exactly one, THC001 none |
| `DefaultEntity.MappedEntity` | src/main/java/com/oneorder/clearing/service/DefaultEntityService.java:49-65 | every listed department maps to a known entity |
| `DefaultEntity.DefaultEntityByDepartment` | src/main/java/com/oneorder/clearing/service/DefaultEntityService.java:41-76 | the result is always a known entity, and a listed department gets its own |
| `DefaultEntity.MissingDepartmentGetsSystemDefault` | src/main/java/com/oneorder/clearing/service/DefaultEntityService.java:44-46 | a null department maps to ENTITY_CN_SALES |
| `DefaultEntity.UnlistedDepartmentFallsBack` | src/main/java/com/oneorder/clearing/service/DefaultEntityService.java:66-74 | an unlisted department containing SALES gets the China sales entity, else one containing OPERATION the China operation entity, else the system default |
| `DefaultEntity.UserDepartment` | src/main/java/com/oneorder/clearing/service/DefaultEntityService.java:84-107 | no user has no department; every user has a listed department |
| `DefaultEntity.DefaultEntityByUserId` | src/main/java/com/oneorder/clearing/service/DefaultEntityService.java:24-33 | the default entity of a user is always a known entity |
| `DefaultEntity.UserDefaults` | src/main/java/com/oneorder/clearing/service/DefaultEntityService.java:87-105 | an unknown user is in DEPT_SALES_SH with entity ENTITY_SH_SALES; no user gets the system default |
| `DefaultEntity.UsersGetCityEntities` | src/main/java/com/oneorder/clearing/service/DefaultEntityService.java:24-107 | every user's default entity is a Shanghai or Beijing entity |
| `DefaultEntity.RequiresApproval` | src/main/java/com/oneorder/clearing/service/DefaultEntityService.java:176-208 | approval is needed iff the entity differs from the default and the amount reaches 50000 or the entity is HK, SG, US or OVERSEAS |
| `DefaultEntity.DefaultEntityNeedsNoApproval` | src/main/java/com/oneorder/clearing/service/DefaultEntityService.java:178-180 | using the default entity never needs approval |
| `DefaultEntity.BorrowedEntityApproval` | src/main/java/com/oneorder/clearing/service/DefaultEntityService.java:183-190 | a borrowed entity needs approval from 50000 on, and below it exactly when it is an overseas entity |
| `DefaultEntity.ApprovalMonotoneInAmount` | src/main/java/com/oneorder/clearing/service/DefaultEntityService.java:183-185 | raising the amount never removes the need for approval |
| `Money.HalfUp` | src/main/java/com/oneorder/clearing/service/impl/ClearingEngineImpl.java:251 | HALF_UP rounding to a whole number lies within one half of the value and leaves whole numbers unchanged |
| `Money.HalfUpSymmetric` | src/main/java/com/oneorder/clearing/service/impl/ClearingEngineImpl.java:251 | HALF_UP rounds halves away from zero, so negating the value negates the result |
| `Money.Round2` | src/main/java/com/oneorder/clearing/service/impl/ClearingEngineImpl.java:251 | setScale(2, HALF_UP) yields whole cents within half a cent of the value and leaves an amount already in cents unchanged |
| `Money.Round4` | src/main/java/com/oneorder/clearing/controller/ClearingProcessingController.java:533-535 | division to four places HALF_UP is within half a unit of the fourth place |
| `Money.Share` | src/main/java/com/oneorder/clearing/service/impl/TransitEntityServiceImpl.java:243-245 | a percentage share of an amount is in cents and within half a cent of the exact product |
| `Money.Portion` | src/main/java/com/oneorder/clearing/controller/ProfitSharingController.java:288-289 | an unrounded product keeps nothing at rate 0 and everything at rate 1 |
| `Money.PortionsMakeWhole` | src/main/java/com/oneorder/clearing/controller/ProfitSharingController.java:288-289 | two unrounded portions whose rates make up one add up to the whole amount |
| `Money.Min` | src/main/java/com/oneorder/clearing/service/impl/TransitEntityServiceImpl.java:249-251 | BigDecimal.min returns one of its arguments and is at most both |
| `Clearing.Record` | src/main/java/com/oneorder/clearing/service/impl/ClearingEngineImpl.java:265-284 | a created record carries the order's currency and mode, is no retention, and reports the amount in both the management and the legal view |
| `Clearing.PositiveSum` | src/main/java/com/oneorder/clearing/service/impl/ClearingEngineImpl.java:211-215 | the debit side of the balance check is never negative |
| `Clearing.NegativeSum` | src/main/java/com/oneorder/clearing/service/impl/ClearingEngineImpl.java:216-220 | the credit side (magnitudes of negative amounts) is never negative |
| `Clearing.SidesDifference` | src/main/java/com/oneorder/clearing/service/impl/ClearingEngineImpl.java:211-225 | debits minus credits is the plain sum of the amounts |
| `Clearing.SumsAppend` | src/main/java/com/oneorder/clearing/service/impl/ClearingEngineImpl.java:211-220 | the sum, debit side and credit side of two lists joined are the sums of each |
| `Clearing.EntityIds` | src/main/java/com/oneorder/clearing/service/impl/RuleEngineImpl.java:163-167 | grouping by entity gives every entity of the records exactly once and no other |
| `ClearingEngine.ReceivingEntity` | src/main/java/com/oneorder/clearing/service/impl/ClearingEngineImpl.java:88-89 | the star receiving entity is the payment entity if set, else the sales entity |
| `ClearingEngine.SalesProfit` | src/main/java/com/oneorder/clearing/service/impl/ClearingEngineImpl.java:246-251 | the sales share is in cents and within half a cent of half the profit |
| `ClearingEngine.DeliveryProfit` | src/main/java/com/oneorder/clearing/service/impl/ClearingEngineImpl.java:252 | the sales share plus the delivery share is exactly totalAmount minus totalCost |
| `ClearingEngine.ProfitShares` | src/main/java/com/oneorder/clearing/service/impl/ClearingEngineImpl.java:243-260 | the profit map has distinct keys; without a delivery entity it holds only the sales share, and a delivery entity equal to the sales entity overwrites it |
| `ClearingEngine.SharesSplitProfit` | src/main/java/com/oneorder/clearing/service/impl/ClearingEngineImpl.java:251-258 | with two distinct entities the two shares add up to exactly the profit, each within half a cent of half of it |
| `ClearingEngine.ProfitRecords` | src/main/java/com/oneorder/clearing/service/impl/ClearingEngineImpl.java:105-122 | one record per nonzero share, none for a zero share, receivable when positive and payable when negative; the records sum to the shares |
| `ClearingEngine.SupplierPayable` | src/main/java/com/oneorder/clearing/service/impl/ClearingEngineImpl.java:126-135 | the supplier payable is -totalCost from the receiving entity, emitted exactly when the cost is positive |
| `ClearingEngine.StarResults` | src/main/java/com/oneorder/clearing/service/impl/ClearingEngineImpl.java:82-139 | star output starts with the customer receivable of totalAmount at the receiving entity |
| `ClearingEngine.StarModeClearing` | src/main/java/com/oneorder/clearing/service/impl/ClearingEngineImpl.java:82-139 | the loop over the profit map returns exactly the star output |
| `ClearingEngine.ProfitRecordsSnoc` | src/main/java/com/oneorder/clearing/service/impl/ClearingEngineImpl.java:105-122 | one more map entry adds its record exactly when its amount is nonzero |
| `ClearingEngine.ChainModeClearing` | src/main/java/com/oneorder/clearing/service/impl/ClearingEngineImpl.java:142-206 | customer to sales, then a sales-to-delivery receivable with a matching sales payment that cancel, then the supplier payable from delivery (else sales) when the cost is positive |
| `ClearingEngine.ValidateClearingResults` | src/main/java/com/oneorder/clearing/service/impl/ClearingEngineImpl.java:209-238 | true iff the positive amounts equal the magnitudes of the negative ones, that is iff the amounts sum to zero |
| `ClearingEngine.StarNet` | src/main/java/com/oneorder/clearing/service/impl/ClearingEngineImpl.java:82-139 | the net of star output for two distinct entities: twice the revenue, minus the cost, minus any positive cost again |
| `ClearingEngine.StarBalancedIff` | src/main/java/com/oneorder/clearing/service/impl/ClearingEngineImpl.java:82-139 | star output with a positive cost and two entities passes validation exactly when revenue equals cost (the check itself is called at lines 41-42) |
| `ClearingEngine.ChainNet` | src/main/java/com/oneorder/clearing/service/impl/ClearingEngineImpl.java:142-206 | the chain transfer pair cancels, leaving revenue minus any positive cost |
| `ClearingEngine.ChainBalancedIff` | src/main/java/com/oneorder/clearing/service/impl/ClearingEngineImpl.java:142-206 | chain output passes validation exactly when revenue equals the positive cost, or is zero without one (the check itself is called at lines 41-42) |
| `ClearingEngine.CalculateClearing` | src/main/java/com/oneorder/clearing/service/impl/ClearingEngineImpl.java:64-79 | star records for STAR, chain records for any other mode, then every active rule applied over them |
| `ClearingEngine.ExecuteClearing` | src/main/java/com/oneorder/clearing/service/impl/ClearingEngineImpl.java:34-61 | the order is marked cleared and the records returned exactly when the calculated records sum to zero |
| `ClearingEngine.ChainClearsWithoutRulesIff` | src/main/java/com/oneorder/clearing/service/impl/ClearingEngineImpl.java:34-79 | with no active rules a chain order clears exactly when revenue equals the positive cost |
| `ClearingEngine.ConservingRulesKeepBalance` | src/main/java/com/oneorder/clearing/service/impl/RuleEngineImpl.java:35-60 | transit and reporting rules keep the total of the mode's records, so clearing succeeds exactly when those balance |
| `TransitEntities.RetentionAmount` | src/main/java/com/oneorder/clearing/service/impl/TransitEntityServiceImpl.java:235-259 | no or NO_RETENTION type retains 0; PERCENTAGE retains amount times rate rounded HALF_UP to cents; FIXED retains min(fixed, amount); a missing rate or fixed amount retains 0 |
| `TransitEntities.FixedRetentionBounded` | src/main/java/com/oneorder/clearing/service/impl/TransitEntityServiceImpl.java:249-251 | a fixed retention never exceeds the amount, so the transfer is never negative |
| `TransitEntities.PercentageRetentionClose` | src/main/java/com/oneorder/clearing/service/impl/TransitEntityServiceImpl.java:243-245 | a percentage retention is within half a cent of amount times rate |
| `TransitEntities.IsTransitEntityApplicable` | src/main/java/com/oneorder/clearing/service/impl/TransitEntityServiceImpl.java:280-339 | blank conditions and unparseable conditions apply; otherwise every stated condition must hold, and an amount below the range minimum does not apply |
| `TransitEntities.TransitRecord` | src/main/java/com/oneorder/clearing/service/impl/TransitEntityServiceImpl.java:344-366 | a transit record carries the entity, amount, types and the transit id, and is not a retention |
| `TransitEntities.RetentionRecord` | src/main/java/com/oneorder/clearing/service/impl/TransitEntityServiceImpl.java:125-140 | the retention record has amount 0 at the transit entity, is flagged as retention and carries the retained amount |
| `TransitEntities.TransferPair` | src/main/java/com/oneorder/clearing/service/impl/TransitEntityServiceImpl.java:96-121 | the transfer receivable and payment are emitted exactly when the transfer is positive, and cancel to zero |
| `TransitEntities.RetentionNote` | src/main/java/com/oneorder/clearing/service/impl/TransitEntityServiceImpl.java:124-141 | the retention record is emitted exactly when the retention is positive |
| `TransitEntities.ReceivableTransitRecords` | src/main/java/com/oneorder/clearing/service/impl/TransitEntityServiceImpl.java:78-142 | the customer receivable at the transit entity comes first, then the transfer pair and the retention when positive; the records net to the amount |
| `TransitEntities.PayableTransitRecords` | src/main/java/com/oneorder/clearing/service/impl/TransitEntityServiceImpl.java:153-229 | the source-to-transit pair comes first, then the transfer pair and the retention when positive; the records net to zero |
| `TransitEntities.Applicable` | src/main/java/com/oneorder/clearing/service/impl/TransitEntityServiceImpl.java:262-275 | the kept entities are exactly the active ones of the type whose conditions admit the order |
| `TransitEntities.GetApplicableTransitEntities` | src/main/java/com/oneorder/clearing/service/impl/TransitEntityServiceImpl.java:262-275 | the loop keeps, in repository order, exactly the applicable entities |
| `TransitEntities.ReceivableRecordsAll` | src/main/java/com/oneorder/clearing/service/impl/TransitEntityServiceImpl.java:78-142 | the records of all entities net to the amount once per entity |
| `TransitEntities.ReceivableStep` | src/main/java/com/oneorder/clearing/service/impl/TransitEntityServiceImpl.java:78 | one more entity appends its own records |
| `TransitEntities.PayableRecordsAll` | src/main/java/com/oneorder/clearing/service/impl/TransitEntityServiceImpl.java:153-229 | the payable records of all entities net to zero |
| `TransitEntities.PayableStep` | src/main/java/com/oneorder/clearing/service/impl/TransitEntityServiceImpl.java:153 | one more entity appends its own records |
| `TransitEntities.ProcessReceivableTransit` | src/main/java/com/oneorder/clearing/service/impl/TransitEntityServiceImpl.java:73-145 | returns the records of every applicable receivable-transit entity, netting to the amount once per entity |
| `TransitEntities.ProcessPayableTransit` | src/main/java/com/oneorder/clearing/service/impl/TransitEntityServiceImpl.java:148-232 | returns the records of every applicable payable-transit entity, netting to zero |
| `CrossBorderFlows.TieredRetentionAmount` | src/main/java/com/oneorder/clearing/service/impl/CrossBorderFlowServiceImpl.java:410-421 | 1% up to 10000, 2% up to 100000, 3% above, unrounded |
| `CrossBorderFlows.TieredRetentionBounds` | src/main/java/com/oneorder/clearing/service/impl/CrossBorderFlowServiceImpl.java:414-420 | a non-negative amount keeps between 1% and 3% of itself, never more than the amount |
| `CrossBorderFlows.TransitRetention` | src/main/java/com/oneorder/clearing/service/impl/CrossBorderFlowServiceImpl.java:242-267 | none or NO_RETENTION retains 0; percentage rounds HALF_UP to cents; fixed is min(fixed, amount); tiered follows the tiers |
| `CrossBorderFlows.FixedRetentionBounded` | src/main/java/com/oneorder/clearing/service/impl/CrossBorderFlowServiceImpl.java:255-258 | a fixed retention never exceeds the amount |
| `CrossBorderFlows.IsFlowApplicable` | src/main/java/com/oneorder/clearing/service/impl/CrossBorderFlowServiceImpl.java:309-346 | blank or unreadable conditions apply; otherwise listed business types and currencies must contain the order's |
| `CrossBorderFlows.FlowRecord` | src/main/java/com/oneorder/clearing/service/impl/CrossBorderFlowServiceImpl.java:451-486 | a flow record carries the entity, amount, types and the flow id, and is not a retention |
| `CrossBorderFlows.RetentionNote` | src/main/java/com/oneorder/clearing/service/impl/CrossBorderFlowServiceImpl.java:135-146 | the retention note has amount 0 and is emitted exactly when the retention is positive |
| `CrossBorderFlows.Pair` | src/main/java/com/oneorder/clearing/service/impl/CrossBorderFlowServiceImpl.java:85-131 | a cross-border receivable and the matching payment cancel to zero |
| `CrossBorderFlows.FlatTransferRecords` | src/main/java/com/oneorder/clearing/service/impl/CrossBorderFlowServiceImpl.java:81-149 | the payer-to-transit pair of the full amount cancels, the transit-to-receiver pair of amount minus retention is emitted only when positive and cancels, and the retention note has amount 0 |
| `CrossBorderFlows.NetTransferRecords` | src/main/java/com/oneorder/clearing/service/impl/CrossBorderFlowServiceImpl.java:152-198 | only the net amount minus retention moves from payer to receiver, and only when positive; the records net to zero |
| `CrossBorderFlows.SegmentedTransferRecords` | src/main/java/com/oneorder/clearing/service/impl/CrossBorderFlowServiceImpl.java:351-365 | a flat transfer of half the amount rounded HALF_UP to cents |
| `CrossBorderFlows.FlowRecords` | src/main/java/com/oneorder/clearing/service/impl/CrossBorderFlowServiceImpl.java:56-72 | every processing type leaves the records of one flow netting to zero |
| `CrossBorderFlows.AllFlowRecords` | src/main/java/com/oneorder/clearing/service/impl/CrossBorderFlowServiceImpl.java:54-75 | the records of all flows net to zero |
| `CrossBorderFlows.FlowStep` | src/main/java/com/oneorder/clearing/service/impl/CrossBorderFlowServiceImpl.java:54 | one more flow appends its own records |
| `CrossBorderFlows.ProcessCrossBorderFlow` | src/main/java/com/oneorder/clearing/service/impl/CrossBorderFlowServiceImpl.java:49-78 | the records of every applicable flow, by processing type; the books stay balanced |
| `CrossBorderFlows.CanApplyNetting` | src/main/java/com/oneorder/clearing/service/impl/CrossBorderFlowServiceImpl.java:270-281 | false when netting is disabled or there are fewer than 2 orders; otherwise true iff all orders share the first order's date |
| `CrossBorderFlows.NettingRecord` | src/main/java/com/oneorder/clearing/service/impl/CrossBorderFlowServiceImpl.java:388-402 | the netting record carries the net, to the receiver when positive and from the payer otherwise |
| `CrossBorderFlows.PerformNetting` | src/main/java/com/oneorder/clearing/service/impl/CrossBorderFlowServiceImpl.java:370-405 | as written: the record equals the receivable total minus the payable total and is emitted only when nonzero |
| `CrossBorderFlows.NettingNetIsMagnitudeSum` | src/main/java/com/oneorder/clearing/service/impl/CrossBorderFlowServiceImpl.java:377-386 | as written, the net is the sum of the magnitudes of the order totals |
| `CrossBorderFlows.OppositeOrdersDoNotCancel` | src/main/java/com/oneorder/clearing/service/impl/CrossBorderFlowServiceImpl.java:377-386 | as written, orders of 100 and -100 net to 200 instead of 0 |
| `CrossBorderFlows.CorrectedNettingAmount` | src/main/java/com/oneorder/clearing/service/impl/CrossBorderFlowServiceImpl.java:385-386 | with the offset, the net is the plain sum of the order totals |
| `CrossBorderFlows.NettingSplit` | src/main/java/com/oneorder/clearing/service/impl/CrossBorderFlowServiceImpl.java:377-386 | the receivable and payable totals together make up the sum of all totals |
| `CrossBorderFlows.CorrectedPerformNetting` | src/main/java/com/oneorder/clearing/service/impl/CrossBorderFlowServiceImpl.java:370-405 | with the offset, one record of the net, emitted exactly when it is nonzero |
| `CrossBorderFlows.CorrectedOppositeOrdersCancel` | src/main/java/com/oneorder/clearing/service/impl/CrossBorderFlowServiceImpl.java:385-390 | with the offset, a receivable and a payable of the same size emit no netting record |
| `Passthrough.DetailIdInjective` | src/main/java/com/oneorder/clearing/controller/PassthroughProcessingController.java:716-763 | two details of one instruction get the same detailId only when their sequences are equal |
| `Passthrough.FindMatchingRoutingRule` | src/main/java/com/oneorder/clearing/controller/PassthroughProcessingController.java:621-629 | no result iff no ACTIVE rule matches payer, payee and currency; otherwise a matching rule with the least rulePriority |
| `Passthrough.MatchingRuleFirstOnTies` | src/main/java/com/oneorder/clearing/controller/PassthroughProcessingController.java:627 | Stream.min keeps the first of the minimal rules: every matching rule before the chosen one has a larger priority |
| `Passthrough.Hop` | src/main/java/com/oneorder/clearing/controller/PassthroughProcessingController.java:712-740 | a routing detail is PENDING and carries its payer, payee, amount and level; its execution order is its sequence |
| `Passthrough.Kept` | src/main/java/com/oneorder/clearing/controller/PassthroughProcessingController.java:742-759 | a retention detail carries the retained amount; its execution order is its sequence |
| `Passthrough.FirstHop` | src/main/java/com/oneorder/clearing/controller/PassthroughProcessingController.java:654-659 | the first hop moves the whole amount from the original payer to the first routing company at level 1 |
| `Passthrough.FirstLeg` | src/main/java/com/oneorder/clearing/controller/PassthroughProcessingController.java:654-669 | the first hop, then the first company's retention only when it is positive, numbered consecutively |
| `Passthrough.SecondLeg` | src/main/java/com/oneorder/clearing/controller/PassthroughProcessingController.java:672-695 | with a second company: the hop to it of transfer1, its retention when positive, and the hop on to the final payee, numbered consecutively |
| `Passthrough.DirectLeg` | src/main/java/com/oneorder/clearing/controller/PassthroughProcessingController.java:696-703 | without a second company: transfer1 from the first company to the final payee at level 2 |
| `Passthrough.Route` | src/main/java/com/oneorder/clearing/controller/PassthroughProcessingController.java:631-706 | a route has 2 or 3 hops plus one detail per positive retention, numbered consecutively, starting at the payer and ending at the final payee |
| `Passthrough.RoutingTransactions` | src/main/java/com/oneorder/clearing/controller/PassthroughProcessingController.java:631-706 | generateRoutingTransactions numbers its details from 10 times the sequence; hop-1 retention is amount times rate1 rounded HALF_UP and the last hop reaches the final payee |
| `Passthrough.AsWrittenDirectTransaction` | src/main/java/com/oneorder/clearing/controller/PassthroughProcessingController.java:761-780 | as written, without a rule the transaction is copied as PASSTHROUGH with the bare sequence as its detailSequence and ten times it as execution order |
| `Passthrough.TotalsAppend` | src/main/java/com/oneorder/clearing/controller/PassthroughProcessingController.java:1137-1151 | the retention and pass-through totals of two lists joined are the sums of each |
| `Passthrough.LegRetention` | src/main/java/com/oneorder/clearing/controller/PassthroughProcessingController.java:665-690 | a leg keeps exactly its one retention detail, if any |
| `Passthrough.RouteRetentions` | src/main/java/com/oneorder/clearing/controller/PassthroughProcessingController.java:662-690 | the retention details of a route add up to its positive retentions |
| `Passthrough.RoutingRetentions` | src/main/java/com/oneorder/clearing/controller/PassthroughProcessingController.java:662-690 | the retention details of one routed transaction add up to its positive hop retentions (the totals are summed at lines 1145-1151) |
| `Passthrough.RoutingConservesAmount` | src/main/java/com/oneorder/clearing/controller/PassthroughProcessingController.java:654-706 | for an amount in cents and rates in range, the hop retentions plus the final transfer sum to the original amount |
| `Passthrough.RetentionsNonNegative` | src/main/java/com/oneorder/clearing/controller/PassthroughProcessingController.java:662-683 | with rate1 in [0,1] and rate2 >= 0, neither retention is negative and the first is at most the amount |
| `Passthrough.Expansion` | src/main/java/com/oneorder/clearing/controller/PassthroughProcessingController.java:604-614 | corrected numbering (see Findings and "Left out"): each transaction yields one to five details, its route or a direct copy, whose sequences are consecutive from ten times its position and which all belong to the instruction |
| `Passthrough.Routed` | src/main/java/com/oneorder/clearing/controller/PassthroughProcessingController.java:593-619 | corrected numbering (see Findings and "Left out"): processing never yields fewer details than transactions |
| `Passthrough.ProcessRoutingRules` | src/main/java/com/oneorder/clearing/controller/PassthroughProcessingController.java:593-619 | corrected numbering (see Findings and "Left out"): the loop routes or copies each transaction in order, with its position (from 1) as sequence |
| `Passthrough.UnroutedKeepsTotals` | src/main/java/com/oneorder/clearing/controller/PassthroughProcessingController.java:1131-1151 | with no rule matching, nothing is retained and the pass-through total equals the original total (the direct copy is made at lines 611-614) |
| `Passthrough.ExpansionOrders` | src/main/java/com/oneorder/clearing/controller/PassthroughProcessingController.java:653 | one transaction's execution orders lie in [10 s, 10 s + 5) and increase (the direct copy is numbered at line 774) |
| `Passthrough.OrdersConcat` | src/main/java/com/oneorder/clearing/controller/PassthroughProcessingController.java:596-616 | details of later transactions come after those of earlier ones |
| `Passthrough.RoutedOrdersIncrease` | src/main/java/com/oneorder/clearing/controller/PassthroughProcessingController.java:596-616 | the details come out in strictly increasing execution order |
| `Passthrough.DetailSequencesCollide` | src/main/java/com/oneorder/clearing/controller/PassthroughProcessingController.java:761-780 | as written, the first transaction's route and a direct copy of the tenth transaction share a detailSequence, and so a detailId (routes are numbered from line 653) |
| `Passthrough.AsWrittenRoutedStartsWith` | src/main/java/com/oneorder/clearing/controller/PassthroughProcessingController.java:596-616 | as written, a non-empty list's details begin with its first transaction's details |
| `Passthrough.DirectTransaction` | src/main/java/com/oneorder/clearing/controller/PassthroughProcessingController.java:761-780 | corrected: a direct copy keeps payer, payee, amount and currency, and is numbered ten times its sequence like the first detail of a route |
| `Passthrough.AsWrittenExpansion` | src/main/java/com/oneorder/clearing/controller/PassthroughProcessingController.java:604-614 | as written, each transaction yields at least one detail |
| `Passthrough.AsWrittenRouted` | src/main/java/com/oneorder/clearing/controller/PassthroughProcessingController.java:593-619 | as written, processing never yields fewer details than transactions |
| `Passthrough.SequencesConcat` | src/main/java/com/oneorder/clearing/controller/PassthroughProcessingController.java:596-616 | corrected: sequences of later transactions come after those of earlier ones |
| `Passthrough.RoutedSequencesIncrease` | src/main/java/com/oneorder/clearing/controller/PassthroughProcessingController.java:596-616 | corrected numbering (see Findings and "Left out"): the detail sequences of an instruction lie in [10, 10 n + 5) and strictly increase |
| `Passthrough.RoutedDetailIdsDistinct` | src/main/java/com/oneorder/clearing/controller/PassthroughProcessingController.java:716-763 | every detail of an instruction has its own detailId |
| `Passthrough.OrderLeq` | src/main/java/com/oneorder/clearing/controller/PassthroughProcessingController.java:792 | the comparator compares execution orders |
| `Passthrough.OrderLeqIsTotalPreorder` | src/main/java/com/oneorder/clearing/controller/PassthroughProcessingController.java:792 | comparing by execution order is a total preorder, as List.sort requires |
| `Passthrough.ResultOf` | src/main/java/com/oneorder/clearing/controller/PassthroughProcessingController.java:807-858 | an executed detail's result carries its id, amount and type, with status SUCCESS |
| `Passthrough.ExecutePassthroughTransactions` | src/main/java/com/oneorder/clearing/controller/PassthroughProcessingController.java:786-805 | the details are stably sorted by execution order and each is executed and marked SUCCESS in that order |
| `Passthrough.RunInOrder` | src/main/java/com/oneorder/clearing/controller/PassthroughProcessingController.java:794-802 | running the details in the given order marks each as SUCCESS and records its result |
| `Passthrough.StatusKeepsOrder` | src/main/java/com/oneorder/clearing/controller/PassthroughProcessingController.java:800 | marking details executed keeps them sorted |
| `Passthrough.ExecutionKeepsRoutedOrder` | src/main/java/com/oneorder/clearing/controller/PassthroughProcessingController.java:593-619 | routed details are already in execution order, so sorting leaves them as generated (the executor sorts at line 792) |
| `Passthrough.PerformNetting` | src/main/java/com/oneorder/clearing/controller/PassthroughProcessingController.java:1017-1070 | nothing when either direction is zero; otherwise net = abs(aPayB - bPayA), saved = aPayB + bPayA - net, and the side paying more is the net payer |
| `Passthrough.NettingSettlesPair` | src/main/java/com/oneorder/clearing/controller/PassthroughProcessingController.java:1040-1044 | the net payer's gross minus what it receives is the net; net plus saved is the gross volume; saved is twice the smaller direction |
| `Passthrough.GroupedResults` | src/main/java/com/oneorder/clearing/controller/PassthroughProcessingController.java:979-998 | grouping keeps only ROUTING and PASSTHROUGH results |
| `Passthrough.StubTransactions` | src/main/java/com/oneorder/clearing/controller/PassthroughProcessingController.java:1072-1080 | every grouped result is seen as paid by the stub payer to the stub payee |
| `Passthrough.FindApplicableNettingRule` | src/main/java/com/oneorder/clearing/controller/PassthroughProcessingController.java:1000-1015 | the first ACTIVE rule joining the two entities in either role, and none iff no rule does |
| `Passthrough.ProcessNetting` | src/main/java/com/oneorder/clearing/controller/PassthroughProcessingController.java:949-977 | at most one netting outcome, for the single pair key the grouping produces |
| `Passthrough.StubNeverPaysFromB` | src/main/java/com/oneorder/clearing/controller/PassthroughProcessingController.java:1029-1080 | with the stubs, ENTITY_B never pays ENTITY_C |
| `Passthrough.StubbedNettingYieldsNothing` | src/main/java/com/oneorder/clearing/controller/PassthroughProcessingController.java:949-977 | with the stub payer and payee, processNetting never nets anything (the null result is at lines 1035-1037) |
| `Passthrough.CreateDifferentialBilling` | src/main/java/com/oneorder/clearing/controller/PassthroughProcessingController.java:863-889 | approval is required, and PENDING, exactly when abs(diff) exceeds 10000; the status is IDENTIFIED and the amounts are kept |
| `Passthrough.ApprovalIgnoresDirection` | src/main/java/com/oneorder/clearing/controller/PassthroughProcessingController.java:883-884 | an increase and the equal decrease need the same approval |
| `Passthrough.GenerateIncrementalTransactions` | src/main/java/com/oneorder/clearing/controller/PassthroughProcessingController.java:891-915 | empty for a zero difference; otherwise one INCREASE or DECREASE of abs(diff) |
| `Passthrough.IncrementalRestoresNewAmount` | src/main/java/com/oneorder/clearing/controller/PassthroughProcessingController.java:891-915 | applying the incremental transactions to the original amount gives the new amount |
| `Passthrough.GenerateReplacementTransactions` | src/main/java/com/oneorder/clearing/controller/PassthroughProcessingController.java:917-944 | a full reversal of the original instruction, then the full new execution |
| `ProfitSharing.LineAmount` | src/main/java/com/oneorder/clearing/controller/ProfitSharingController.java:344-353 | a line that is neither RECEIVABLE nor PAYABLE adds nothing to revenue or cost |
| `ProfitSharing.SumAppend` | src/main/java/com/oneorder/clearing/controller/ProfitSharingController.java:344-353 | the revenue (cost) sum over two concatenated line lists is the sum of the two sums |
| `ProfitSharing.ServiceProfit` | src/main/java/com/oneorder/clearing/controller/ProfitSharingController.java:340-356 | a service's gross profit is its revenue minus its cost |
| `ProfitSharing.CalculateServiceProfit` | src/main/java/com/oneorder/clearing/controller/ProfitSharingController.java:340-356 | the accumulator loop ends with revenue the sum of the RECEIVABLE amounts, cost the sum of the PAYABLE amounts, and gross profit their difference |
| `ProfitSharing.OfService` | src/main/java/com/oneorder/clearing/controller/ProfitSharingController.java:265-266 | a service group holds only lines of that service and no more lines than the order |
| `ProfitSharing.ServiceCodes` | src/main/java/com/oneorder/clearing/controller/ProfitSharingController.java:265-268 | the grouping keys cover the service code of every line, each key once |
| `ProfitSharing.OfServiceEmpty` | src/main/java/com/oneorder/clearing/controller/ProfitSharingController.java:265-266 | a code that no line carries has an empty group |
| `ProfitSharing.SumByServicesSnoc` | src/main/java/com/oneorder/clearing/controller/ProfitSharingController.java:265-284 | one more line changes the group sums only in its own service's group |
| `ProfitSharing.SeenServiceStep` | src/main/java/com/oneorder/clearing/controller/ProfitSharingController.java:265-284 | a line of a service already grouped adds its amount to that group's sum |
| `ProfitSharing.NewServiceStep` | src/main/java/com/oneorder/clearing/controller/ProfitSharingController.java:265-284 | a line of a new service opens a group whose sum is its own amount |
| `ProfitSharing.OnlyLineOfNewService` | src/main/java/com/oneorder/clearing/controller/ProfitSharingController.java:265-266 | the group of a newly seen service holds exactly the new line's amount |
| `ProfitSharing.ServicesPartition` | src/main/java/com/oneorder/clearing/controller/ProfitSharingController.java:265-284 | grouping by service loses and duplicates no line: the group sums add up to the order's revenue (cost) |
| `ProfitSharing.FindApplicableRule` | src/main/java/com/oneorder/clearing/controller/ProfitSharingController.java:361-381 | no rule iff no ACTIVE rule applies to the service; otherwise an applicable rule in the list whose rulePriority is maximal |
| `ProfitSharing.ApplicableRuleFirstOnTies` | src/main/java/com/oneorder/clearing/controller/ProfitSharingController.java:363-380 | Stream.max keeps the first of the maximal rules: every applicable rule before the chosen one has a smaller priority |
| `ProfitSharing.SplitThree` | src/main/java/com/oneorder/clearing/controller/ProfitSharingController.java:370 | three comma-free codes joined by commas split back into the three codes |
| `ProfitSharing.OceanCodesSplit` | src/main/java/com/oneorder/clearing/controller/ProfitSharingController.java:630-637 | the ocean rule's code list splits into MBL_PROCESSING, BOOKING and VESSEL_MANIFEST (the list is split at line 370) |
| `ProfitSharing.CustomsCodesSplit` | src/main/java/com/oneorder/clearing/controller/ProfitSharingController.java:640-647 | the customs rule's code list splits into CUSTOMS_DECLARATION, CUSTOMS_CLEARANCE and CUSTOMS_INSPECTION (the list is split at line 370) |
| `ProfitSharing.InitialRuleChoice` | src/main/java/com/oneorder/clearing/controller/ProfitSharingController.java:361-381 | with the initial rules an ocean service gets OCEAN_60_40, a customs service CUSTOMS_40_60 and every other service STANDARD_50_50 (the initial rules are at lines 618-655) |
| `ProfitSharing.InitialRatiosMakeWhole` | src/main/java/com/oneorder/clearing/controller/ProfitSharingController.java:618-655 | every initial rule's sales and operation ratios add up to one |
| `ProfitSharing.ServiceResults` | src/main/java/com/oneorder/clearing/controller/ProfitSharingController.java:286-309 | a service yields two records (sales, then operation) when a rule applies and none otherwise, each carrying the order, calculation and service |
| `ProfitSharing.CalculateOver` | src/main/java/com/oneorder/clearing/controller/ProfitSharingController.java:268-318 | the loop over service groups emits only records of the listed services, in order |
| `ProfitSharing.PerformCalculation` | src/main/java/com/oneorder/clearing/controller/ProfitSharingController.java:260-338 | the calculation runs over every service of the order in first-appearance order |
| `ProfitSharing.TotalGrossIsOrderProfit` | src/main/java/com/oneorder/clearing/controller/ProfitSharingController.java:260-338 | the total gross profit is the order's revenue minus its cost, whatever rules apply |
| `ProfitSharing.GrossOver` | src/main/java/com/oneorder/clearing/controller/ProfitSharingController.java:268-318 | the gross profit summed over the given services is the sum of their revenue minus cost |
| `ProfitSharing.TotalAppend` | src/main/java/com/oneorder/clearing/controller/ProfitSharingController.java:482-488 | a column total over two concatenated record lists is the sum of the two totals |
| `ProfitSharing.TotalPair` | src/main/java/com/oneorder/clearing/controller/ProfitSharingController.java:482-488 | the total of a two-record list is the sum of its two fields |
| `ProfitSharing.PerformBalanceValidation` | src/main/java/com/oneorder/clearing/controller/ProfitSharingController.java:475-511 | the five column totals; internalBalanced iff abs(income − payment) < 0.01, profitBalanced iff abs(revenue − cost − department profit) < 0.01, overall iff both |
| `ProfitSharing.InitialRulesRuleEverything` | src/main/java/com/oneorder/clearing/controller/ProfitSharingController.java:618-628 | the ACTIVE STANDARD rule gives every service an applicable rule |
| `ProfitSharing.ServiceResultsTotals` | src/main/java/com/oneorder/clearing/controller/ProfitSharingController.java:286-309 | when the ratios add to one, one service's records pay and receive the same internal amount, book its revenue and cost, and their profits add up to its gross profit |
| `ProfitSharing.CalculateOverTotals` | src/main/java/com/oneorder/clearing/controller/ProfitSharingController.java:268-318 | the same totals over all the listed services |
| `ProfitSharing.CalculationBalances` | src/main/java/com/oneorder/clearing/controller/ProfitSharingController.java:260-338 | with whole ratios and every service ruled the records balance exactly: internal income equals payment and department profits add up to the order's gross profit (the balance checks are at lines 475-511) |
| `ProfitSharing.FirstLineOf` | src/main/java/com/oneorder/clearing/controller/ProfitSharingController.java:265-266 | every grouping key is the service code of some line |
| `ProfitSharing.ValidateFreshCalculation` | src/main/java/com/oneorder/clearing/controller/ProfitSharingController.java:475-511 | the balance validation of a fresh calculation reports internal, profit and overall balance, with the order's gross profit |
| `ProfitSharing.Summary` | src/main/java/com/oneorder/clearing/controller/ProfitSharingController.java:423-472 | the summary's external revenue, cost and internal flow are the column totals of the records, and it carries the total gross profit |
| `ProfitSharing.SummaryReproducesGross` | src/main/java/com/oneorder/clearing/controller/ProfitSharingController.java:423-472 | with every service ruled, the summary's revenue minus cost is the total gross profit |
| `ProfitSharing.CalculationId` | src/main/java/com/oneorder/clearing/controller/ProfitSharingController.java:572-574 | a calculation id starts with CALC_, the order id and an underscore |
| `ProfitSharing.ExistingCalculationId` | src/main/java/com/oneorder/clearing/controller/ProfitSharingController.java:579-588 | no id (null) iff the stored list is empty; otherwise the first record's calculation id |
| `ProfitSharing.ProfitSharingStore.constructor` | src/main/java/com/oneorder/clearing/controller/ProfitSharingController.java:30-38 | empty stores and the three initial rules |
| `ProfitSharing.ProfitSharingStore.CalculateProfitSharing` | src/main/java/com/oneorder/clearing/controller/ProfitSharingController.java:43-97 | a stored result is returned unless forceRecalculate is set; an order without lines is refused; otherwise the calculation replaces the stored records and summary |
| `ProfitSharing.ProfitSharingStore.ValidateProfitBalance` | src/main/java/com/oneorder/clearing/controller/ProfitSharingController.java:188-217 | nothing (404) for an order without records, else the balance check of its records |
| `ProfitSharing.ProfitSharingStore.GetProfitSharingResult` | src/main/java/com/oneorder/clearing/controller/ProfitSharingController.java:99-139 | nothing (404) for an order without records, else the stored records and summary |
| `ProfitSharing.CalculateOverLength` | src/main/java/com/oneorder/clearing/controller/ProfitSharingController.java:268-318 | with every service ruled each service yields its two records |
| `ProfitSharing.RepeatedCalculationIsCached` | src/main/java/com/oneorder/clearing/controller/ProfitSharingController.java:51-61 | a second request without forceRecalculate answers with the first calculation's id and recomputes nothing |
| `Accounting.DetermineAccountKey` | src/main/java/com/oneorder/clearing/service/impl/AccountingServiceImpl.java:292-311 | a transit retention keys TRANSIT_FEE whatever its type; receivables and payables key by their account type's name; transit fees, netting and profit sharing key TRANSIT_FEE, NETTING and PROFIT |
| `Accounting.AccountCode` | src/main/java/com/oneorder/clearing/service/impl/AccountingServiceImpl.java:29-46 | a result has an account code iff the mapping has an entry for its key (the code is read at lines 258-259) |
| `Accounting.TransitRetentionAccount` | src/main/java/com/oneorder/clearing/service/impl/AccountingServiceImpl.java:292-295 | a transit retention posts to account 1231 whatever its transaction and account type (the mapping is at lines 29-46) |
| `Accounting.UnmappedAccounts` | src/main/java/com/oneorder/clearing/service/impl/AccountingServiceImpl.java:292-311 | exactly the receivables and payables on an account type the mapping lacks (cross-border, retention) get no account code (the mapping is at lines 29-46) |
| `Accounting.DetermineEntryType` | src/main/java/com/oneorder/clearing/service/impl/AccountingServiceImpl.java:316-329 | PAYABLE iff the result is a payable; RECEIVABLE iff it is a receivable or a netting result (the default branch) |
| `Accounting.DetermineDebitDirection` | src/main/java/com/oneorder/clearing/service/impl/AccountingServiceImpl.java:334-348 | receivable accounts debit, payable accounts credit, every other account debits iff the amount is positive |
| `Accounting.EntryAmounts` | src/main/java/com/oneorder/clearing/service/impl/AccountingServiceImpl.java:270-287 | one side carries the amount's magnitude and the other zero; a negative amount flips the side; debit minus credit is the amount signed by the direction |
| `Accounting.EntryFor` | src/main/java/com/oneorder/clearing/service/impl/AccountingServiceImpl.java:246-287 | an entry carries the result's entity and currency, the report type, its account code and entry type, is unposted, and its debit minus credit is the signed report amount |
| `Accounting.ReportEntries` | src/main/java/com/oneorder/clearing/service/impl/AccountingServiceImpl.java:87-124 | one entry per clearing result |
| `Accounting.GenerateReportEntries` | src/main/java/com/oneorder/clearing/service/impl/AccountingServiceImpl.java:87-124 | the loop builds one entry per result, in order, each for that result's entity and the report type, using the management or legal amount when set |
| `Accounting.ValidateBalance` | src/main/java/com/oneorder/clearing/service/impl/AccountingServiceImpl.java:215-236 | the per-currency running balances accept iff every currency that occurs balances to zero |
| `Accounting.AbsentCurrency` | src/main/java/com/oneorder/clearing/service/impl/AccountingServiceImpl.java:215-236 | a currency that no entry carries has balance zero |
| `Accounting.ReportBalanceIsSignedSum` | src/main/java/com/oneorder/clearing/service/impl/AccountingServiceImpl.java:87-124 | a report's balance in a currency is the sum of its results' amounts in that currency, each signed by its debit direction (the balance check is at lines 215-236) |
| `Accounting.TransferPairDoesNotBalance` | src/main/java/com/oneorder/clearing/service/impl/AccountingServiceImpl.java:270-348 | +x on an internal receivable and −x on an internal payable both post to the debit side, so the pair does not balance |
| `Accounting.GenerateAccountingEntries` | src/main/java/com/oneorder/clearing/service/impl/AccountingServiceImpl.java:64-84 | succeeds iff the management entries followed by the legal entries balance, and then returns exactly them |
| `Accounting.Stamped` | src/main/java/com/oneorder/clearing/service/impl/AccountingServiceImpl.java:138-141 | every entry of a new voucher carries the voucher id and the operator, nothing else changes |
| `Accounting.MarkPosted` | src/main/java/com/oneorder/clearing/service/impl/AccountingServiceImpl.java:184-187 | the entries of the voucher are marked posted and no other entry changes |
| `Accounting.MarkAllPosted` | src/main/java/com/oneorder/clearing/service/impl/AccountingServiceImpl.java:204-208 | posting vouchers one after another keeps the number of entries |
| `Accounting.MarkAllPostedSnoc` | src/main/java/com/oneorder/clearing/service/impl/AccountingServiceImpl.java:204-208 | posting one more voucher is posting it after the others |
| `Accounting.SameBooksBalance` | src/main/java/com/oneorder/clearing/service/impl/AccountingServiceImpl.java:215-236 | entry lists that agree in currency and amounts have the same balances |
| `Accounting.SameBooksVoucher` | src/main/java/com/oneorder/clearing/service/impl/AccountingServiceImpl.java:170 | selecting a voucher's entries keeps that agreement |
| `Accounting.SameBooksCanPost` | src/main/java/com/oneorder/clearing/service/impl/AccountingServiceImpl.java:170-181 | whether a voucher can be posted depends only on its entries' vouchers, currencies and amounts |
| `Accounting.MarkAllPostedKeepsBooks` | src/main/java/com/oneorder/clearing/service/impl/AccountingServiceImpl.java:184-208 | marking vouchers posted changes no voucher, currency or amount |
| `Accounting.PostingKeepsPostability` | src/main/java/com/oneorder/clearing/service/impl/AccountingServiceImpl.java:166-208 | posting other vouchers first does not change whether a voucher can be posted |
| `Accounting.PostingsFilter` | src/main/java/com/oneorder/clearing/service/impl/AccountingServiceImpl.java:201-212 | the vouchers the batch posts are the postable ones, in request order |
| `Accounting.Ledger.constructor` | src/main/java/com/oneorder/clearing/service/impl/AccountingServiceImpl.java:26 | an empty entry store |
| `Accounting.Ledger.CreateVoucher` | src/main/java/com/oneorder/clearing/service/impl/AccountingServiceImpl.java:128-162 | succeeds iff the generated entries balance, then appends them stamped with the voucher and operator; a failure saves nothing |
| `Accounting.Ledger.PostVoucher` | src/main/java/com/oneorder/clearing/service/impl/AccountingServiceImpl.java:166-198 | succeeds iff the voucher has entries and they balance, then marks exactly its entries posted; otherwise nothing changes |
| `Accounting.Ledger.BatchPostVouchers` | src/main/java/com/oneorder/clearing/service/impl/AccountingServiceImpl.java:201-212 | returns the requested ids that were postable before the batch, in order, and marks exactly those posted |
| `ClearingProcessing.ExecutionOrderRanks` | src/main/java/com/oneorder/clearing/controller/ClearingProcessingController.java:721-739 | order 1 iff RECEIVABLE; in STAR mode 2 iff INTERNAL_TRANSFER and 3 iff PAYABLE, in any other mode 2 iff PAYABLE and 3 iff INTERNAL_TRANSFER; 5 iff the type is none of the three |
| `ClearingProcessing.RankIsExecutionOrder` | src/main/java/com/oneorder/clearing/controller/ClearingProcessingController.java:721-739 | a detail's execution order is getExecutionOrder of its type's name, between 1 and 3 (the detail types are set at lines 415, 438 and 461) |
| `ClearingProcessing.NewDetail` | src/main/java/com/oneorder/clearing/controller/ClearingProcessingController.java:399-464 | a new detail belongs to the instruction, carries its sequence, type and the row's amount for that type, is PENDING, and has its type's execution order |
| `ClearingProcessing.DetailIfPositive` | src/main/java/com/oneorder/clearing/controller/ClearingProcessingController.java:399-445 | a detail is created for a type exactly when the row's amount for it is positive |
| `ClearingProcessing.RowDetails` | src/main/java/com/oneorder/clearing/controller/ClearingProcessingController.java:399-464 | a row yields at most three details |
| `ClearingProcessing.RowDetailsShape` | src/main/java/com/oneorder/clearing/controller/ClearingProcessingController.java:399-464 | one row's details are numbered on from the running sequence without gaps, each well formed |
| `ClearingProcessing.NumberedConcat` | src/main/java/com/oneorder/clearing/controller/ClearingProcessingController.java:386-464 | two runs numbered consecutively join into one run numbered without gaps |
| `ClearingProcessing.ClearingDetailsShape` | src/main/java/com/oneorder/clearing/controller/ClearingProcessingController.java:382-469 | the generated details are numbered 1, 2, 3, … without gaps, each positive, PENDING and with its type's execution order |
| `ClearingProcessing.RowDetailsParts` | src/main/java/com/oneorder/clearing/controller/ClearingProcessingController.java:399-464 | a row's details are its receivable, payable and internal-transfer parts in that order |
| `ClearingProcessing.RowDetailsAt` | src/main/java/com/oneorder/clearing/controller/ClearingProcessingController.java:402-448 | each guarded block numbers its detail with the running sequence left by the blocks before it |
| `ClearingProcessing.ClearingDetailsSnoc` | src/main/java/com/oneorder/clearing/controller/ClearingProcessingController.java:388-466 | one more row appends that row's details, numbered after the earlier ones |
| `ClearingProcessing.AddIfPositive` | src/main/java/com/oneorder/clearing/controller/ClearingProcessingController.java:399-420 | one guarded block appends a detail numbered sequence when the amount is positive and advances the sequence by the number appended |
| `ClearingProcessing.AddRowDetails` | src/main/java/com/oneorder/clearing/controller/ClearingProcessingController.java:399-464 | the three guarded blocks append the row's details and advance the sequence by their number |
| `ClearingProcessing.GenerateClearingDetails` | src/main/java/com/oneorder/clearing/controller/ClearingProcessingController.java:382-469 | the loop builds the details of every row in order, numbered 1, 2, 3, … without gaps, each well formed |
| `ClearingProcessing.DetailTotalAppend` | src/main/java/com/oneorder/clearing/controller/ClearingProcessingController.java:382-469 | the total of one detail type over two concatenated lists is the sum of the two totals |
| `ClearingProcessing.DetailIfPositiveTotal` | src/main/java/com/oneorder/clearing/controller/ClearingProcessingController.java:399-445 | a guarded block adds the row's positive amount to its own type's total and nothing to the others |
| `ClearingProcessing.TotalOfThree` | src/main/java/com/oneorder/clearing/controller/ClearingProcessingController.java:399-464 | the total over three parts is the sum of their totals |
| `ClearingProcessing.RowDetailsTotal` | src/main/java/com/oneorder/clearing/controller/ClearingProcessingController.java:399-464 | a row's details of a type carry the row's amount for that type when it is positive, else nothing |
| `ClearingProcessing.DetailsCarryPositiveAmounts` | src/main/java/com/oneorder/clearing/controller/ClearingProcessingController.java:382-469 | generation loses no money: the details of each type carry exactly the rows' positive amounts of that type |
| `ClearingProcessing.ByExecutionOrder` | src/main/java/com/oneorder/clearing/controller/ClearingProcessingController.java:495 | the sort key compares details by execution order |
| `ClearingProcessing.ByExecutionOrderIsTotalPreorder` | src/main/java/com/oneorder/clearing/controller/ClearingProcessingController.java:495 | comparing by execution order is a total preorder, as a stable List.sort needs |
| `ClearingProcessing.SortedDetailsRunInPhases` | src/main/java/com/oneorder/clearing/controller/ClearingProcessingController.java:721-739 | once sorted, a STAR instruction runs every receivable before any internal transfer and every internal transfer before any payable; a CHAIN instruction pays before transferring (the sort is at line 495) |
| `ClearingProcessing.StarPhases` | src/main/java/com/oneorder/clearing/controller/ClearingProcessingController.java:722-729 | in STAR mode nothing precedes a receivable and nothing but payables follows a payable |
| `ClearingProcessing.ResultOf` | src/main/java/com/oneorder/clearing/controller/ClearingProcessingController.java:587-604 | a detail result succeeds iff no network failure hit it and carries the detail's sequence and amount |
| `ClearingProcessing.Successes` | src/main/java/com/oneorder/clearing/controller/ClearingProcessingController.java:503-504 | the number of successes is at most the number of details executed |
| `ClearingProcessing.Marked` | src/main/java/com/oneorder/clearing/controller/ClearingProcessingController.java:508-516 | outside a dry run a detail becomes COMPLETED or FAILED; a dry run leaves it untouched; sequence, amount and order never change |
| `ClearingProcessing.NoFailureAllSucceed` | src/main/java/com/oneorder/clearing/controller/ClearingProcessingController.java:497-524 | without network failures every detail succeeds (the failure draw is at line 587) |
| `ClearingProcessing.AllFailNoSuccess` | src/main/java/com/oneorder/clearing/controller/ClearingProcessingController.java:497-524 | when every detail fails there is no success (the failure draw is at line 587) |
| `ClearingProcessing.ExecuteDetails` | src/main/java/com/oneorder/clearing/controller/ClearingProcessingController.java:489-524 | the loop yields one result and one updated detail per detail, counts the successes and the rest as failures, and sums the succeeding details' amounts |
| `ClearingProcessing.FinalStatus` | src/main/java/com/oneorder/clearing/controller/ClearingProcessingController.java:527-531 | COMPLETED iff there is no failure; PARTIALLY_COMPLETED iff some failure and some success; FAILED iff only failures |
| `ClearingProcessing.SuccessRate` | src/main/java/com/oneorder/clearing/controller/ClearingProcessingController.java:533-535 | all successes rate 100, none rate 0 (successes / details at scale 4, HALF_UP, times 100) |
| `ClearingProcessing.DailyBatchId` | src/main/java/com/oneorder/clearing/controller/ClearingProcessingController.java:745-746 | the day's batch id is BATCH_, the day and _001 |
| `ClearingProcessing.DailyBatchIdInjective` | src/main/java/com/oneorder/clearing/controller/ClearingProcessingController.java:745-746 | different days get different batch ids |
| `ClearingProcessing.InstructionId` | src/main/java/com/oneorder/clearing/controller/ClearingProcessingController.java:332 | the instruction id is CLEARING_, the order id, an underscore and the time stamp |
| `ClearingProcessing.MockProfitSharingResults` | src/main/java/com/oneorder/clearing/controller/ClearingProcessingController.java:773-791 | the generation reads two fixed profit-sharing records |
| `ClearingProcessing.MockInstructionShape` | src/main/java/com/oneorder/clearing/controller/ClearingProcessingController.java:773-791 | the fixed records clear 3000 in three details: collect 15000, transfer 13200 internally, pay 12000 (the instruction is built at lines 341-343) |
| `ClearingProcessing.PerformInstructionExecution` | src/main/java/com/oneorder/clearing/controller/ClearingProcessingController.java:474-552 | the stored details are sorted by execution order and executed; the counts, executed amount and rate are reported, each detail is marked, and the final status is the one the counts give |
| `ClearingProcessing.ClearingProcessor.constructor` | src/main/java/com/oneorder/clearing/controller/ClearingProcessingController.java:833-855 | no instructions or details, and today's DAILY batch, PREPARING, created by system (the static stores are at lines 36-41) |
| `ClearingProcessing.ClearingProcessor.GetOrCreateDailyBatch` | src/main/java/com/oneorder/clearing/controller/ClearingProcessingController.java:744-768 | returns the day's batch id, adding the batch only when it is missing; instructions and details unchanged |
| `ClearingProcessing.ClearingProcessor.GenerateClearingInstruction` | src/main/java/com/oneorder/clearing/controller/ClearingProcessingController.java:47-86 | a second instruction for the same order and calculation is refused and changes nothing; otherwise a PENDING instruction of priority 5 in the day's batch is stored with its generated details (the instruction is built at lines 328-377) |
| `ClearingProcessing.ClearingProcessor.ExecuteClearingInstruction` | src/main/java/com/oneorder/clearing/controller/ClearingProcessingController.java:135-175 | a missing instruction is not found and a COMPLETED one is refused, changing nothing; otherwise the stored details are sorted and executed, and outside a dry run the instruction takes the final status (the execution is at lines 474-552) |
| `ClearingProcessing.DryRunKeepsStatus` | src/main/java/com/oneorder/clearing/controller/ClearingProcessingController.java:478-527 | a dry run leaves every instruction's status as it was |
| `ClearingProcessing.CompletedIsFinal` | src/main/java/com/oneorder/clearing/controller/ClearingProcessingController.java:150-155 | re-executing a COMPLETED instruction is refused and changes nothing |
| `ClearingProcessing.FaultFreeExecutionCompletes` | src/main/java/com/oneorder/clearing/controller/ClearingProcessingController.java:497-535 | without network failures a non-empty instruction ends COMPLETED with a 100% success rate |
| `RuleEngine.EvaluateSimpleCondition` | src/main/java/com/oneorder/clearing/service/impl/RuleEngineImpl.java:365-387 | a condition mentioning currency holds iff it contains the order's currency; one mentioning neither currency nor totalAmount, or currency nor >=, holds |
| `RuleEngine.EvaluateRuleCondition` | src/main/java/com/oneorder/clearing/service/impl/RuleEngineImpl.java:202-223 | a blank condition always holds; any other is evaluated after the order's currency, business type and total are substituted |
| `RuleEngine.NotContainedWithoutFirst` | src/main/java/com/oneorder/clearing/service/impl/RuleEngineImpl.java:367-373 | a text cannot contain a word whose first character it lacks |
| `RuleEngine.PiecesOnWithout` | src/main/java/com/oneorder/clearing/service/impl/RuleEngineImpl.java:374 | splitting a text that lacks the separator gives the text alone |
| `RuleEngine.PiecesOnAt` | src/main/java/com/oneorder/clearing/service/impl/RuleEngineImpl.java:374 | splitting at the first occurrence of the separator gives the part before it, then the pieces of the rest |
| `RuleEngine.ContainsInPrefix` | src/main/java/com/oneorder/clearing/service/impl/RuleEngineImpl.java:367-373 | a text containing a word still contains it with more text appended |
| `RuleEngine.ThresholdCondition` | src/main/java/com/oneorder/clearing/service/impl/RuleEngineImpl.java:371-383 | a condition naming totalAmount with a single >= holds iff the trimmed right side is a number the order's total reaches; an unparsable number fails |
| `RuleEngine.TrimDigits` | src/main/java/com/oneorder/clearing/service/impl/RuleEngineImpl.java:377 | trimming leaves a string of digits unchanged |
| `RuleEngine.WholeThresholdCondition` | src/main/java/com/oneorder/clearing/service/impl/RuleEngineImpl.java:371-383 | totalAmount>= followed by a whole number n holds exactly for orders whose total is at least n |
| `RuleEngine.PriorityLeqIsTotalPreorder` | src/main/java/com/oneorder/clearing/service/impl/RuleEngineImpl.java:197 | comparing rules by priority is a total preorder, as the stable sort needs |
| `RuleEngine.GetApplicableRules` | src/main/java/com/oneorder/clearing/service/impl/RuleEngineImpl.java:192-199 | the active rules of the type whose condition holds, all of them and nothing else, a permutation of the filtered rules sorted by ascending priority |
| `RuleEngine.SameMembers` | src/main/java/com/oneorder/clearing/service/impl/RuleEngineImpl.java:195-198 | sorting keeps the same members |
| `RuleEngine.ShouldApplyTransitRule` | src/main/java/com/oneorder/clearing/service/impl/RuleEngineImpl.java:280-287 | RECEIVABLE selects exactly receivables, PAYABLE exactly payables, any other type nothing |
| `RuleEngine.RuleRetention` | src/main/java/com/oneorder/clearing/service/impl/RuleEngineImpl.java:86-88 | the retention is in whole cents and within half a cent of amount × rate (the retention record is at lines 299-301) |
| `RuleEngine.AdjustedTarget` | src/main/java/com/oneorder/clearing/service/impl/RuleEngineImpl.java:86-92 | the adjusted amount plus the retention is the old amount, which is kept as originalAmount with the rate and rule id; nothing else changes |
| `RuleEngine.TransitRetentionResult` | src/main/java/com/oneorder/clearing/service/impl/RuleEngineImpl.java:292-313 | the retention record is a transit-fee internal receivable of the transit entity, in the target's currency and mode, flagged as a retention with the rate and original amount |
| `RuleEngine.AdjustTargets` | src/main/java/com/oneorder/clearing/service/impl/RuleEngineImpl.java:74-93 | adjusting the targets keeps the number of results |
| `RuleEngine.AdjustTargetsSnoc` | src/main/java/com/oneorder/clearing/service/impl/RuleEngineImpl.java:74-93 | each result is adjusted on its own |
| `RuleEngine.RetentionRecords` | src/main/java/com/oneorder/clearing/service/impl/RuleEngineImpl.java:78-83 | at most one retention record per result, each a transit fee of the rule's transit entity |
| `RuleEngine.AmountSumSnoc` | src/main/java/com/oneorder/clearing/service/impl/RuleEngineImpl.java:86-90 | the sum of amounts grows by the appended amount |
| `RuleEngine.TransitSplitsAmounts` | src/main/java/com/oneorder/clearing/service/impl/RuleEngineImpl.java:78-93 | the retention records carry exactly what the adjustment takes off the targets |
| `RuleEngine.TransitRuleConserves` | src/main/java/com/oneorder/clearing/service/impl/RuleEngineImpl.java:65-98 | one transit rule moves money between records and leaves the total unchanged |
| `RuleEngine.TransitRulesConserve` | src/main/java/com/oneorder/clearing/service/impl/RuleEngineImpl.java:65-98 | any sequence of transit rules leaves the total unchanged |
| `RuleEngine.ApplyTransitRuleInPlace` | src/main/java/com/oneorder/clearing/service/impl/RuleEngineImpl.java:66-97 | the loop adjusts the targets in place and appends their retention records; an unreadable rate skips the rule |
| `RuleEngine.ProcessTransitEntityRules` | src/main/java/com/oneorder/clearing/service/impl/RuleEngineImpl.java:56-101 | the applicable transit rules are applied in priority order and the total is unchanged |
| `RuleEngine.ApplyTransitRulesInOrder` | src/main/java/com/oneorder/clearing/service/impl/RuleEngineImpl.java:65-98 | the loop applies the transit rules one after another |
| `RuleEngine.HandlingFee` | src/main/java/com/oneorder/clearing/service/impl/RuleEngineImpl.java:119-141 | a missing fee is zero; an unreadable fee skips the rule |
| `RuleEngine.HandlingFeeResult` | src/main/java/com/oneorder/clearing/service/impl/RuleEngineImpl.java:327-339 | a fee record is a transit-fee internal receivable of the rule's transit entity for the fee, in the order's currency and mode |
| `RuleEngine.ApplyCrossBorderRule` | src/main/java/com/oneorder/clearing/service/impl/RuleEngineImpl.java:113-142 | an unreadable fee changes nothing; otherwise every result is tagged with the rule id and a positive fee appends one fee record per result |
| `RuleEngine.Tagged` | src/main/java/com/oneorder/clearing/service/impl/RuleEngineImpl.java:136 | tagging keeps the number of results |
| `RuleEngine.FeeCopies` | src/main/java/com/oneorder/clearing/service/impl/RuleEngineImpl.java:127-134 | one fee record per result |
| `RuleEngine.SameAmountsSameSum` | src/main/java/com/oneorder/clearing/service/impl/RuleEngineImpl.java:136 | results with the same amounts have the same total |
| `RuleEngine.CopiesSum` | src/main/java/com/oneorder/clearing/service/impl/RuleEngineImpl.java:127-134 | n fee records sum to n × fee |
| `RuleEngine.CrossBorderRuleAddsFees` | src/main/java/com/oneorder/clearing/service/impl/RuleEngineImpl.java:113-142 | a cross-border rule with a positive fee adds the fee once per result to the total, otherwise nothing (the fee records are made at lines 318-322) |
| `RuleEngine.ApplyCrossBorderRuleInPlace` | src/main/java/com/oneorder/clearing/service/impl/RuleEngineImpl.java:114-141 | the loop tags the results in place and appends the fee records |
| `RuleEngine.ProcessCrossBorderRules` | src/main/java/com/oneorder/clearing/service/impl/RuleEngineImpl.java:104-145 | the applicable cross-border rules are applied in priority order |
| `RuleEngine.ApplyCrossBorderRulesInOrder` | src/main/java/com/oneorder/clearing/service/impl/RuleEngineImpl.java:113-142 | the loop applies the cross-border rules one after another |
| `RuleEngine.NettingResult` | src/main/java/com/oneorder/clearing/service/impl/RuleEngineImpl.java:344-360 | a netting record carries the entity's net, receivable when positive and payable otherwise, in the order's currency and mode, with the rule id (it is added at lines 176-179) |
| `RuleEngine.NettingRecords` | src/main/java/com/oneorder/clearing/service/impl/RuleEngineImpl.java:164-181 | at most one record per entity, each for an entity whose net reaches the threshold in magnitude and carrying that net |
| `RuleEngine.NettingRecordsComplete` | src/main/java/com/oneorder/clearing/service/impl/RuleEngineImpl.java:167-181 | every entity whose net reaches the threshold gets a netting record |
| `RuleEngine.NettingOnePerEntity` | src/main/java/com/oneorder/clearing/service/impl/RuleEngineImpl.java:164-181 | grouping by entity gives at most one record per entity |
| `RuleEngine.NettingKeepsResults` | src/main/java/com/oneorder/clearing/service/impl/RuleEngineImpl.java:155-188 | netting rules only append records |
| `RuleEngine.NettingRecordIff` | src/main/java/com/oneorder/clearing/service/impl/RuleEngineImpl.java:164-181 | a netting rule adds a record for an entity iff its net reaches the threshold in magnitude, exactly one, carrying that net |
| `RuleEngine.ApplyNettingRuleInPlace` | src/main/java/com/oneorder/clearing/service/impl/RuleEngineImpl.java:158-185 | the loop groups by entity and appends a record per qualifying entity; an unreadable threshold skips the rule |
| `RuleEngine.ProcessNettingRules` | src/main/java/com/oneorder/clearing/service/impl/RuleEngineImpl.java:148-189 | the applicable netting rules are applied in priority order and the earlier results are kept unchanged at the front |
| `RuleEngine.ApplyNettingRulesInOrder` | src/main/java/com/oneorder/clearing/service/impl/RuleEngineImpl.java:157-186 | the loop applies the netting rules one after another |
| `RuleEngine.Reported` | src/main/java/com/oneorder/clearing/service/impl/RuleEngineImpl.java:242-252 | a target result gets management amount = amount × management rate and legal amount = amount × legal rate, unrounded, and the rule id; nothing else changes |
| `RuleEngine.ApplyReportingRule` | src/main/java/com/oneorder/clearing/service/impl/RuleEngineImpl.java:231-257 | only the target entity's results get report amounts; every amount and entity stays as it was |
| `RuleEngine.ApplyReportingRules` | src/main/java/com/oneorder/clearing/service/impl/RuleEngineImpl.java:231-257 | the results keep their number |
| `RuleEngine.ReportingKeepsAmounts` | src/main/java/com/oneorder/clearing/service/impl/RuleEngineImpl.java:228-260 | reporting rules never change a clearing amount, an entity, the order of the results or the total |
| `RuleEngine.ApplyReportingRuleInPlace` | src/main/java/com/oneorder/clearing/service/impl/RuleEngineImpl.java:240-252 | the forEach sets the report amounts of the target entity's results |
| `RuleEngine.ProcessReportingDifferences` | src/main/java/com/oneorder/clearing/service/impl/RuleEngineImpl.java:228-260 | the applicable retention rules are applied in priority order and the total is unchanged |
| `RuleEngine.ApplyReportingRulesInOrder` | src/main/java/com/oneorder/clearing/service/impl/RuleEngineImpl.java:231-257 | the loop applies the retention rules one after another |
| `RuleEngine.NoRulesOfType` | src/main/java/com/oneorder/clearing/service/impl/RuleEngineImpl.java:192-199 | with no active rule of a type none of that type applies |
| `RuleEngine.NoRulesNoChange` | src/main/java/com/oneorder/clearing/service/impl/RuleEngineImpl.java:34-53 | with no active rules the results come back unchanged (the per-kind early returns are at lines 59-61, 107-109 and 151-153) |
| `RuleEngine.ApplyRules` | src/main/java/com/oneorder/clearing/service/impl/RuleEngineImpl.java:34-53 | transit, cross-border, netting and reporting rules are applied in that order |
| `ProtocolAssignment.OperationDeptByStaffId` | src/main/java/com/oneorder/clearing/controller/ProtocolServiceAssignmentController.java:184-193 | an operator's department is one of the four operation departments; the fixed staff table decides it |
| `ProtocolAssignment.UnknownStaffIsOcean` | src/main/java/com/oneorder/clearing/controller/ProtocolServiceAssignmentController.java:192 | an operator outside the staff table is in ocean operations |
| `ProtocolAssignment.MatchingIsConjunction` | src/main/java/com/oneorder/clearing/controller/ProtocolServiceAssignmentController.java:218-243 | a protocol matches iff the sales and operation departments are equal, the service code and business type are each missing on one side or equal, and it is active |
| `ProtocolAssignment.GeneralProtocolMatchesAll` | src/main/java/com/oneorder/clearing/controller/ProtocolServiceAssignmentController.java:229-242 | an active protocol without service code and business type matches every request for its departments |
| `ProtocolAssignment.ProtocolPriority` | src/main/java/com/oneorder/clearing/controller/ProtocolServiceAssignmentController.java:248-268 | the priority lies in 0..6: at least 3 with the exact service and at most 3 without it, at least 2 with the exact business type |
| `ProtocolAssignment.ExactServiceNeverOutranked` | src/main/java/com/oneorder/clearing/controller/ProtocolServiceAssignmentController.java:207-268 | a protocol naming the requested service is never ranked below one that does not; they tie only when the other has the exact business type and a rate above 8 and the first has neither |
| `ProtocolAssignment.ExactBusinessTypeOutranksRate` | src/main/java/com/oneorder/clearing/controller/ProtocolServiceAssignmentController.java:248-268 | with the service equally exact, an exact business type strictly outranks a high commission rate |
| `ProtocolAssignment.ByPriority` | src/main/java/com/oneorder/clearing/controller/ProtocolServiceAssignmentController.java:206-211 | the comparator puts a protocol first iff its priority is at least the other's |
| `ProtocolAssignment.Matcher` | src/main/java/com/oneorder/clearing/controller/ProtocolServiceAssignmentController.java:205 | the filter accepts exactly the matching protocols |
| `ProtocolAssignment.FindMatchingProtocols` | src/main/java/com/oneorder/clearing/controller/ProtocolServiceAssignmentController.java:198-213 | the result is a permutation of the matching protocols |
| `ProtocolAssignment.FindMatchingProtocolsCorrect` | src/main/java/com/oneorder/clearing/controller/ProtocolServiceAssignmentController.java:198-213 | the result holds exactly the matching protocols, each once as often as given, in non-increasing priority |
| `ProtocolAssignment.MockProtocols` | src/main/java/com/oneorder/clearing/controller/ProtocolServiceAssignmentController.java:348-366 | the controller matches against four fixed protocols |
| `ProtocolAssignment.MatchProtocols` | src/main/java/com/oneorder/clearing/controller/ProtocolServiceAssignmentController.java:41-78 | every protocol returned matches the customer service's sales department, the operator's department and the request |
| `ProtocolAssignment.OceanBookingFilter` | src/main/java/com/oneorder/clearing/controller/ProtocolServiceAssignmentController.java:348-366 | for an ocean booking of ocean freight the standard ocean protocol and the general one match, in that order (the filter is at lines 218-243) |
| `ProtocolAssignment.OceanBookingMatches` | src/main/java/com/oneorder/clearing/controller/ProtocolServiceAssignmentController.java:41-78 | an ocean operator booking ocean freight gets the standard ocean protocol (priority 5) before the general one (0) (the search is at lines 198-213) |
| `ProtocolAssignment.ConfirmationOf` | src/main/java/com/oneorder/clearing/controller/ProtocolServiceAssignmentController.java:332-340 | the protocol is confirmed iff the action is CONFIRM; anything else rejects it |
| `ProtocolManagement.EffectiveBoundsInclusive` | src/main/resources/static/js/protocol-manager.js:290-295 | a protocol is effective at the instants its effective and expiry dates parse to and at no moment outside them; a date-only expiry parses to midnight at the start of that day, so the last day itself is not covered |
| `ProtocolManagement.InvalidDateNeverEffective` | src/main/resources/static/js/protocol-manager.js:290-295 | a protocol with an invalid date (every comparison with it false) is never effective |
| `ProtocolManagement.Usable` | src/main/resources/static/js/protocol-manager.js:268-271 | the first filter keeps exactly the ACTIVE protocols that are effective now |
| `ProtocolManagement.Fits` | src/main/resources/static/js/protocol-manager.js:273-277 | the second filter keeps exactly the protocols listing the department whose service is the one asked for or ALL |
| `ProtocolManagement.ByRecommendation` | src/main/resources/static/js/protocol-manager.js:280-284 | the comparator puts a recommended protocol before one that is not, and between two alike the higher total commission first |
| `ProtocolManagement.GetMatchingProtocols` | src/main/resources/static/js/protocol-manager.js:267-285 | the result is a permutation of the protocols both filters keep |
| `ProtocolManagement.GetMatchingProtocolsCorrect` | src/main/resources/static/js/protocol-manager.js:267-285 | the result holds exactly the active, effective protocols of the department covering the service; recommended ones come first, and within each group the total commission does not increase |
| `ProtocolManagement.LeadingDigits` | src/main/resources/static/js/protocol-manager.js:544 | the leading digits are a prefix of the text, all digits, and followed by a non-digit or nothing |
| `ProtocolManagement.ParseInt` | src/main/resources/static/js/protocol-manager.js:544 | parseInt yields NaN iff no digit follows the optional sign |
| `ProtocolManagement.ParseIntOfDigits` | src/main/resources/static/js/protocol-manager.js:544 | a numeral reads back as its value |
| `ProtocolManagement.ProtocolNumber` | src/main/resources/static/js/protocol-manager.js:544 | an id without PROTO is parsed whole |
| `ProtocolManagement.ProtocolIdFor` | src/main/resources/static/js/protocol-manager.js:548 | a new id is PROTO followed by at least three digits |
| `ProtocolManagement.ProtocolIdForNumber` | src/main/resources/static/js/protocol-manager.js:544-548 | the id made for a number parses back to that number |
| `ProtocolManagement.NumberedSnoc` | src/main/resources/static/js/protocol-manager.js:543-546 | the numbered and bounded properties of a list follow from its initial part and last id |
| `ProtocolManagement.MaxProtocolNumber` | src/main/resources/static/js/protocol-manager.js:543-546 | the reduce yields a number iff every id has one, and then it is at least 0 and no id's number exceeds it |
| `ProtocolManagement.GenerateProtocolId` | src/main/resources/static/js/protocol-manager.js:542-549 | the result is PROTONaN iff some id has no number |
| `ProtocolManagement.GeneratedIdExceedsEveryNumber` | src/main/resources/static/js/protocol-manager.js:542-549 | when every id has a number the new id's number exceeds all of them, so the id is new |
| `ProtocolManagement.OceanIdHasNoNumber` | src/main/resources/static/js/protocol-manager.js:544 | PROTO_OCEAN_001 has no number, because parseInt meets the underscore first |
| `ProtocolManagement.UnnumberedIdRepeatsNaN` | src/main/resources/static/js/protocol-manager.js:542-549 | once a protocol with a server id ("PROT" and the milliseconds) is loaded, the generated id is PROTONaN, and once a protocol carries it the next generated id is the same again |
| `ProtocolManagement.ServerProtocolId` | src/main/java/com/oneorder/clearing/controller/InternalProtocolController.java:166-168 | a server id is "PROT" followed by the digits of the time in milliseconds |
| `ProtocolManagement.ServerIdHasNoNumber` | src/main/resources/static/js/protocol-manager.js:544 | a server id has no number: it does not start with "PROTO", so nothing is removed and parseInt meets "P" first |
| `ProtocolManagement.MaxNumbered` | src/main/resources/static/js/protocol-manager.js:543-546 | the maximum over the numbered ids bounds every number |
| `ProtocolManagement.CorrectedGenerateProtocolId` | src/main/resources/static/js/protocol-manager.js:542-549 | the corrected id's number is one above the greatest number of any numbered id |
| `ProtocolManagement.CorrectedIdIsNew` | src/main/resources/static/js/protocol-manager.js:542-549 | the corrected id differs from every existing id |
| `ProtocolManagement.MaximaAgreeWhenAllNumbered` | src/main/resources/static/js/protocol-manager.js:543-546 | when every id has a number both maxima agree |
| `ProtocolManagement.CorrectedAgreesWhenAllNumbered` | src/main/resources/static/js/protocol-manager.js:542-549 | when every id has a number the corrected id is the id generated as written |
| `ProtocolManagement.ToggledStatus` | src/main/resources/static/js/protocol-manager.js:529 | the new status is INACTIVE iff the old one was ACTIVE, and is always ACTIVE or INACTIVE |
| `ProtocolManagement.ToggleTwice` | src/main/resources/static/js/protocol-manager.js:529 | toggling twice restores ACTIVE and INACTIVE; any other status ends INACTIVE |
| `ProtocolManagement.FindIndex` | src/main/resources/static/js/protocol-manager.js:484-524 | the first protocol with the id, or none when no protocol has it |
| `ProtocolManagement.Logged` | src/main/resources/static/js/protocol-manager.js:567-568 | the entry goes in front, the older entries follow in order, and the history is cut at 100 |
| `ProtocolManagement.LoggedNewestFirst` | src/main/resources/static/js/protocol-manager.js:567-568 | two entries logged in turn stand newest first, and the history never outgrows its cap |
| `ProtocolManagement.DefaultProtocols` | src/main/resources/static/js/protocol-manager.js:85-255 | the defaults are nine protocols |
| `ProtocolManagement.ProtocolManager.constructor` | src/main/resources/static/js/protocol-manager.js:24-87 | the loaded protocols, or the nine defaults when none were loaded; an empty history |
| `ProtocolManagement.ProtocolManager.LogProtocolAction` | src/main/resources/static/js/protocol-manager.js:554-574 | the history becomes the capped history with the new entry in front; the protocols are unchanged |
| `ProtocolManagement.ProtocolManager.ToggleProtocolStatus` | src/main/resources/static/js/protocol-manager.js:523-537 | an unknown id is an error and changes nothing; otherwise exactly the first protocol with the id has its status toggled and update time set, and the change is logged |
| `ProtocolManagement.ProtocolManager.AddProtocol` | src/main/resources/static/js/protocol-manager.js:413-427 | corrected id (see Findings and "Left out"): the new protocol gets an id no existing protocol has, goes at the end, and the creation is logged |
| `ProtocolManagement.ProtocolManager.DeleteProtocol` | src/main/resources/static/js/protocol-manager.js:483-518 | an unknown id is an error and changes nothing; otherwise the first protocol with the id is cut out and the deletion logged |
| `ProtocolManagement.ToggleTwiceRestores` | src/main/resources/static/js/protocol-manager.js:523-537 | toggling a protocol twice gives every protocol its status back and keeps the list's length |
| `ServiceAssignment.FirstLowest` | src/main/resources/static/js/service-assignment.js:405-413 | none iff no operator is eligible; otherwise an eligible operator of least workload, with every eligible operator before it strictly more loaded (what a stable ascending sort puts first) |
| `ServiceAssignment.HasSpecialty` | src/main/resources/static/js/service-assignment.js:406 | the filter keeps exactly the operators listing the service as a specialty |
| `ServiceAssignment.Anyone` | src/main/resources/static/js/service-assignment.js:413 | the fallback considers every operator |
| `ServiceAssignment.PickOperator` | src/main/resources/static/js/service-assignment.js:405-444 | nobody iff there are no operators; a specialty match picks the least-loaded specialist, load balancing the least-loaded operator overall, the first one on a tie |
| `ServiceAssignment.SpecialistPreferred` | src/main/resources/static/js/service-assignment.js:405-444 | the reason is a specialty match exactly when some operator has the specialty |
| `ServiceAssignment.ChosenProtocol` | src/main/resources/static/js/service-assignment.js:420-439 | a protocol is attached only with a protocol manager and only one of the matching protocols; with a manager and some match, one is attached |
| `ServiceAssignment.FirstRecommended` | src/main/resources/static/js/service-assignment.js:432 | the first recommended protocol, or none when none is recommended |
| `ServiceAssignment.ChosenProtocolIsFirstMatch` | src/main/resources/static/js/service-assignment.js:432 | because the matches already stand recommended first, the protocol chosen is always the first match |
| `ServiceAssignment.ChosenProtocolId` | src/main/resources/static/js/service-assignment.js:433-445 | the recorded protocol id is the chosen protocol's id, none when no protocol was chosen |
| `ServiceAssignment.AssignedService` | src/main/resources/static/js/service-assignment.js:450-453 | an assigned service keeps its code, is ASSIGNED, and records the operator, the time and the protocol |
| `ServiceAssignment.Loaded` | src/main/resources/static/js/service-assignment.js:456-457 | the operator takes one more order and ten points of workload, capped at 90 |
| `ServiceAssignment.AssignStep` | src/main/resources/static/js/service-assignment.js:401-481 | one step adds one result and one count; without operators it fails and changes nothing else; with operators its service becomes ASSIGNED; other services are untouched |
| `ServiceAssignment.PendingIndexes` | src/main/resources/static/js/service-assignment.js:387 | the pending positions, each once, in increasing order, every pending service among them |
| `ServiceAssignment.AssignAll` | src/main/resources/static/js/service-assignment.js:401-481 | the loop adds one result and one count per pending position, keeping the earlier results |
| `ServiceAssignment.CountsAddUp` | src/main/resources/static/js/service-assignment.js:398-479 | successCount plus failedCount is the number of pending services, one result each |
| `ServiceAssignment.AssignAllFrame` | src/main/resources/static/js/service-assignment.js:401-481 | services outside the pending positions are left as they are |
| `ServiceAssignment.AssignAllWithoutOperators` | src/main/resources/static/js/service-assignment.js:471-480 | with no operators every step fails and nothing else changes |
| `ServiceAssignment.AssignAllWithOperators` | src/main/resources/static/js/service-assignment.js:416-470 | with operators no step fails and the operator list keeps its length |
| `ServiceAssignment.AssignAllSnoc` | src/main/resources/static/js/service-assignment.js:401-481 | one more pending position is one more step |
| `ServiceAssignment.AssignAllAssigns` | src/main/resources/static/js/service-assignment.js:401-481 | with operators every pending position ends ASSIGNED |
| `ServiceAssignment.LastSplit` | src/main/resources/static/js/service-assignment.js:401 | a non-empty list is its front followed by its last element |
| `ServiceAssignment.StepKeepsAssigned` | src/main/resources/static/js/service-assignment.js:450 | a step assigns its own position and keeps the earlier ones assigned |
| `ServiceAssignment.AutoAssignCounts` | src/main/resources/static/js/service-assignment.js:398-481 | with operators every pending service counts as a success and none as a failure |
| `ServiceAssignment.AutoAssignAssignsPending` | src/main/resources/static/js/service-assignment.js:387-481 | with operators every pending service ends ASSIGNED |
| `ServiceAssignment.AutoAssignKeepsOthers` | src/main/resources/static/js/service-assignment.js:387-481 | services that were not pending are left as they were |
| `ServiceAssignment.AutoAssignWithoutOperators` | src/main/resources/static/js/service-assignment.js:471-480 | without operators every pending service fails and nothing changes |
| `ServiceAssignment.StepWorkloadCapped` | src/main/resources/static/js/service-assignment.js:456-457 | the chosen operator's workload is at most 90 afterwards and every other operator keeps theirs |
| `ServiceAssignment.FallbackProtocolList` | src/main/resources/static/js/service-assignment.js:1190-1219 | two fallback protocols |
| `ServiceAssignment.GetFallbackProtocols` | src/main/resources/static/js/service-assignment.js:1189-1226 | a fallback protocol is returned iff it lists the operator's department and covers the service or ALL |
| `ServiceAssignment.FallbackExamples` | src/main/resources/static/js/service-assignment.js:1189-1226 | customs clearance falls back to PROTO006 in each listed operations department; MBL processing has no fallback in air operations |
| `ServiceAssignment.AssignmentBoard.constructor` | src/main/resources/static/js/service-assignment.js:78-127 | the board holds the services and operators given, with no history (the defaults are set at lines 256-272) |
| `ServiceAssignment.AssignmentBoard.AutoAssignAll` | src/main/resources/static/js/service-assignment.js:381-504 | refused without a current order (none or empty) or without pending services, changing nothing; otherwise the loop runs over the pending services and a history record with both counts is put in front |
| `ServiceAssignment.AssignmentBoard.ReassignService` | src/main/resources/static/js/service-assignment.js:1638-1660 | found iff some service has the code; the first such service goes back to PENDING with no operator, time or protocol; an unknown code changes nothing |
| `ServiceAssignment.AssignPending` | src/main/resources/static/js/service-assignment.js:401-481 | the loop over the pending positions computes the run AssignAll describes |
| `ServiceAssignment.AssignOne` | src/main/resources/static/js/service-assignment.js:401-481 | the loop body updates services, operators, results and counters as AssignStep describes |
| `ServiceAssignment.FirstWithCode` | src/main/resources/static/js/service-assignment.js:1639 | the first service with the code |
| `ServiceAssignment.ReassignUndoesAssignment` | src/main/resources/static/js/service-assignment.js:1648-1651 | reassigning a freshly assigned service gives back the pending service exactly (the assignment it undoes is at lines 450-453) |
| `ServiceAssignment.ReassignedIsPending` | src/main/resources/static/js/service-assignment.js:1648-1651 | a reassigned service is pending again, so the next automatic round takes it up (pending services are those selected at line 387) |
| `FreightOrder.FindOperator` | src/main/resources/static/js/freight-order.js:686-688 | the first directory entry with the id, or none when no entry has it |
| `FreightOrder.Add` | src/main/resources/static/js/freight-order.js:802-805 | adding to an insertion-ordered set leaves it unchanged when the id is there and appends it otherwise |
| `FreightOrder.AddAllMembers` | src/main/resources/static/js/freight-order.js:811-836 | adding several ids keeps the old ones first in order and adds exactly the new ones, each once |
| `FreightOrder.SubordinatesOf` | src/main/resources/static/js/freight-order.js:830-831 | an id the directory does not know has no subordinates |
| `FreightOrder.AddTeamsKeepsPrefix` | src/main/resources/static/js/freight-order.js:826-837 | the subordinate loop keeps the ids already there, in order |
| `FreightOrder.AddTeamsDistinct` | src/main/resources/static/js/freight-order.js:826-837 | the subordinate loop adds no id twice |
| `FreightOrder.InTeamsSnoc` | src/main/resources/static/js/freight-order.js:826-837 | one more subordinate widens the team by that one and their own subordinates |
| `FreightOrder.AddTeamsMembers` | src/main/resources/static/js/freight-order.js:826-837 | the subordinate loop adds exactly the subordinates and their subordinates |
| `FreightOrder.OwnIds` | src/main/resources/static/js/freight-order.js:805-815 | the user's own id comes first, followed for a CS user by CS001 to CS004, each once |
| `FreightOrder.VisibleOrderIdsEverything` | src/main/resources/static/js/freight-order.js:787-824 | nothing iff the user is unknown; a GM over ALL, or a user with '*' among the subordinates, gets ['*'] |
| `FreightOrder.VisibleOrderIdsListed` | src/main/resources/static/js/freight-order.js:802-844 | otherwise the user first, then exactly the CS colleagues for a CS user and two levels of subordinates, each once |
| `FreightOrder.AddEach` | src/main/resources/static/js/freight-order.js:811-813 | the forEach adds each id in turn |
| `FreightOrder.AddEachTeam` | src/main/resources/static/js/freight-order.js:826-837 | the nested loops add each subordinate and then that one's subordinates |
| `FreightOrder.GetVisibleOrderIds` | src/main/resources/static/js/freight-order.js:787-845 | the loops compute the visible ids VisibleOrderIds describes |
| `FreightOrder.OrderOwner` | src/main/resources/static/js/freight-order.js:858 | the owner is the staff id when set and non-empty, else the creator when set and non-empty, else the sales staff id |
| `FreightOrder.CanViewOwnOrders` | src/main/resources/static/js/freight-order.js:848-863 | a known user sees the orders they own; an unknown user sees none |
| `FreightOrder.SecondLevelStarSeesAll` | src/main/resources/static/js/freight-order.js:826-855 | a '*' among a subordinate's subordinates lets the user see every order although the visible ids are not ['*'] |
| `FreightOrder.RoleOf` | src/main/resources/static/js/freight-order.js:353-392 | management iff the level is GM; no role iff no role name or level of CS, operator or sales applies |
| `FreightOrder.ServiceFilter` | src/main/resources/static/js/freight-order.js:361-370 | a CS user keeps the orders they created or sell, and those PENDING, CONFIRMED, PROCESSING or SHIPPED |
| `FreightOrder.OperatorFilter` | src/main/resources/static/js/freight-order.js:376-412 | an operator keeps the orders with an ASSIGNED dispatch to them |
| `FreightOrder.SalesFilter` | src/main/resources/static/js/freight-order.js:385-387 | a sales user keeps the orders they sell or of their department |
| `FreightOrder.FilterOrdersByRole` | src/main/resources/static/js/freight-order.js:345-393 | no orders without a list or user; every order for GM; none for an unknown role |
| `FreightOrder.FilterOrdersByRoleMembers` | src/main/resources/static/js/freight-order.js:359-388 | for CS, operator and sales users the result keeps exactly the orders of the role's rule |
| `FreightOrder.RoleNameBeforeLevel` | src/main/resources/static/js/freight-order.js:353-374 | the role name is checked before the level: a user named CS with level OP is filtered as CS |
| `FreightOrder.SequenceString` | src/main/resources/static/js/freight-order.js:83 | the sequence is three digits whose value is (index + 1) mod 1000 |
| `FreightOrder.NatToStringShort` | src/main/resources/static/js/freight-order.js:83 | a number below 1000 has at most three digits |
| `FreightOrder.BusinessOrderNumberIdentity` | src/main/resources/static/js/freight-order.js:59-86 | two indexes give the same number on a date iff they are equal modulo 8 and (index + 1) mod 1000 agree |
| `FreightOrder.SameNumberSameParts` | src/main/resources/static/js/freight-order.js:59-86 | equal numbers come from the same prefix and the same sequence |
| `FreightOrder.NumberParts` | src/main/resources/static/js/freight-order.js:85 | a number splits back into its prefix and its three-digit sequence |
| `FreightOrder.PrefixesDistinct` | src/main/resources/static/js/freight-order.js:61-70 | the eight prefixes are distinct |
| `FreightOrder.BusinessOrderNumberCycles` | src/main/resources/static/js/freight-order.js:73-83 | the prefix comes round after eight orders and the sequence after a thousand |
| `FreightOrder.ThousandthOrderWraps` | src/main/resources/static/js/freight-order.js:83 | the thousandth order wraps round to sequence 000 |
| `Notifications.UnreadIn` | target/classes/static/js/notification-system.js:242-244 | the unread count is at most the list's length and zero iff every notification is read (the counter also moves at lines 379-381) |
| `Notifications.UnreadInAppend` | target/classes/static/js/notification-system.js:251-253 | the unread count of two joined lists is the sum of their counts |
| `Notifications.UnreadIds` | target/classes/static/js/notification-system.js:403 | the unread ids are one per unread notification, exactly the ids of the unread notifications |
| `Notifications.IndexOf` | target/classes/static/js/notification-system.js:240 | the first notification with the id, or none iff no notification has it (the same search is at lines 378 and 624) |
| `Notifications.FirstIndex` | target/classes/static/js/notification-system.js:378 | a position with the id and none before it is the one the search finds (the same search is at line 624) |
| `Notifications.Take` | target/classes/static/js/notification-system.js:251-253 | the cut keeps the first 100 notifications, or all when there are fewer |
| `Notifications.UnreadInTake` | target/classes/static/js/notification-system.js:251-253 | the cut never raises the unread count |
| `Notifications.AddNotificationCorrect` | target/classes/static/js/notification-system.js:239-253 | a list with distinct ids and at most 100 entries keeps both, holds the new id afterwards, and the corrected counter counts the unread notifications of the resulting list |
| `Notifications.AddNotificationShape` | target/classes/static/js/notification-system.js:239-253 | an existing id changes nothing; a new one comes first, before the newest of the rest |
| `Notifications.CapDropsUnreadNotification` | target/classes/static/js/notification-system.js:242-253 | a new unread notification on a full list whose oldest entry is unread makes the counter as written one more than the unread notifications the list then holds |
| `Notifications.MarkedRead` | target/classes/static/js/notification-system.js:377-388 | marking keeps the list's length |
| `Notifications.MarkAsReadCount` | target/classes/static/js/notification-system.js:377-388 | the unread count falls by one exactly when an unread notification had the id |
| `Notifications.MarkAsReadIdempotent` | target/classes/static/js/notification-system.js:377-388 | the notification with the id is read afterwards, and marking twice is marking once |
| `Notifications.AllRead` | target/classes/static/js/notification-system.js:392-396 | every notification is marked read and nothing else changes |
| `Notifications.MarkAllAsReadCorrect` | target/classes/static/js/notification-system.js:391-397 | afterwards nothing is unread and the ids stay as they were |
| `Notifications.ReadConfirmationAlwaysEmpty` | target/classes/static/js/notification-system.js:392-404 | the batch confirmation as written names no notification, even when some were unread |
| `Notifications.ReadConfirmationCorrected` | target/classes/static/js/notification-system.js:392-404 | ids collected before marking name exactly the notifications that were unread |
| `Notifications.DeleteCounts` | target/classes/static/js/notification-system.js:623-638 | a missing id changes nothing; otherwise one entry goes, and one unread if it was unread |
| `Notifications.DeleteRemovesId` | target/classes/static/js/notification-system.js:623-638 | with distinct ids deleting keeps them distinct and removes the id |
| `Notifications.Decremented` | target/classes/static/js/notification-system.js:381 | the counter falls by one, never below zero (the same decrement is at line 628) |
| `Notifications.NotificationCenter.constructor` | target/classes/static/js/notification-system.js:7-9 | no notifications and an unread count of zero |
| `Notifications.NotificationCenter.AddNotification` | target/classes/static/js/notification-system.js:239-253 | corrected counter (see Findings and "Left out"): the list becomes the capped list with a new id in front, and the counter keeps matching it |
| `Notifications.NotificationCenter.MarkAsRead` | target/classes/static/js/notification-system.js:377-388 | the first notification with the id, if unread, becomes read, the counter falls by one and a confirmation is sent; otherwise nothing changes |
| `Notifications.NotificationCenter.MarkAllAsRead` | target/classes/static/js/notification-system.js:391-404 | corrected confirmation (see Findings and "Left out"): every notification is read, the counter is zero, and the ids confirmed are those that were unread |
| `Notifications.NotificationCenter.DeleteNotification` | target/classes/static/js/notification-system.js:623-638 | the first notification with the id is removed and the counter falls by one if it was unread; a missing id changes nothing |
| `Notifications.NotificationCenter.ClearAllNotifications` | target/classes/static/js/notification-system.js:410-414 | once the user confirms, no notifications and a zero counter; otherwise nothing changes |
| `Notifications.AddThenDelete` | target/classes/static/js/notification-system.js:239-253 | adding and then deleting a new notification leaves the centre as it was when nothing was cut (deletion is at lines 623-638) |

## Left out

- The cost-subject taxonomy pipeline (normaliser, merger, classifier, tag matcher) is not part of this model. None of its code is among the repository files modelled here.
- TransitEntity.java is not part of this model. The fields of a transit entity are taken from how TransitEntityServiceImpl uses them.
- The transit-entity lookups of TransitEntityServiceImpl.java:27-70 (requiresTransitEntity, findTransitEntityBy*) only query repositories. They are left out, and the entity is a parameter of the processing functions.
- CrossBorderFlowServiceImpl processNettingRules (201-238), generateNettingReport and requiresCrossBorderFlow are left out. They only look up flows or format text.
- RuleEngineImpl parseRuleConfig parses JSON with Jackson. It is modelled as a configuration that is present, missing or unreadable, with the rate already extracted.
- RuleEngineImpl needsCrossBorderProcessing always answers true, so the model applies cross-border rules without a check.
- RuleEngine: the source changes the amounts of the caller's ClearingResult objects in place. The model works on a sequence of values, so aliasing between the caller's list and the returned list is not captured.
- Passthrough: the executor sorts the detail list in place. The model returns a new sorted sequence.
- The instruction endpoints of PassthroughProcessingController.java:54-226 are left out, as is the other request plumbing of all controllers: request parsing, response maps and message texts.
- ProfitSharingController getDepartmentSummary and aggregateDepartmentResults (220-253, 514-554), getServiceName and the calculation logs are left out. They only report or format.
- ClearingProcessingController performBatchExecution and executeBatchClearing (610-677) are left out. They repeat the single-instruction execution over a list.
- ClearingProcessingController getClearingStatistics (679-716), getClearingBatches, getExecutionLogs, addExecutionLog, getClearingInstruction and the clearing-rule listing are left out. They only read the static maps or append log text.
- ClearingProcessing: the random 5% failure of executeClearingDetail is a parameter, a sequence of booleans saying which details fail.
- protocol-manager.js updateProtocol (430-478) is left out, as are the fetch calls to the API and localStorage. Only the in-memory path is modelled.
- ProtocolServiceAssignmentController assignServiceWithProtocol, executeProtocolAssignment (84-121, 273-292) and getProtocolDetails are left out. They build responses around the matching that is modelled.
- service-assignment.js assignService (314-379), batchAssign and confirmBatchAssign (515-640) are left out. They are the dialog-driven variants of the assignment that autoAssignAll performs.
- service-assignment.js: the random operator workloads, the DOM rendering and the persistence are left out. Workloads are given as data.
- notification-system.js: the WebSocket connection, its retries, persistence, sounds and markPageAsVisible are left out.
- freight-order.js: the floating-point fee estimators (calculateOceanFreight, calculateAirFreight and similar) are left out.
- HashMap and groupingBy iteration order is unspecified in Java. The model uses first-appearance order and states its properties so that they do not depend on the order.
- Log output, message texts and timestamps in log lines are not modelled.
- MarkAllAsRead (`Notifications.NotificationCenter.MarkAllAsRead`): confirms the ids that were unread before marking, the corrected confirmation of the Findings table. notification-system.js:403 collects them after marking, so the source confirms none (`Notifications.ReadConfirmationAlwaysEmpty`).
- ParseInt (`ProtocolManagement.ParseInt`): models parseInt only for text without leading white space or a 0x prefix; JavaScript reads " 7" as 7 and "0x1A" as 26. No protocol id in the source has such text.
- Expansion (`Passthrough.Expansion`): numbers a direct copy ten times its position, the corrected numbering of the Findings table. PassthroughProcessingController.java:765 writes the bare position; `Passthrough.AsWrittenExpansion` follows the code as written.
- Routed (`Passthrough.Routed`): is built on the corrected direct copy, so its detail sequences differ from the source's wherever a transaction is copied without a rule; `Passthrough.AsWrittenRouted` is the as-written list.
- ProcessRoutingRules (`Passthrough.ProcessRoutingRules`): the loop is proved equal to the corrected `Passthrough.Routed`, so a direct copy gets ten times its position where the source keeps the bare position.
- RoutedSequencesIncrease (`Passthrough.RoutedSequencesIncrease`): the range [10, 10 n + 5) and the increase hold for the corrected numbering only; as written a direct copy at position k below 10 has detailSequence k, and `Passthrough.DetailSequencesCollide` shows the clash.
- AddProtocol (`ProtocolManagement.ProtocolManager.AddProtocol`): uses `ProtocolManagement.CorrectedGenerateProtocolId`. protocol-manager.js:415 calls generateProtocolId, which gives "PROTONaN" again and again once an id has no number (`ProtocolManagement.UnnumberedIdRepeatsNaN`); the two agree whenever every id has a number (`ProtocolManagement.CorrectedAgreesWhenAllNumbered`).
- AddNotification (`Notifications.NotificationCenter.AddNotification`): uses the corrected `Notifications.AddedCount`, and the class invariant keeps the counter equal to the unread notifications. notification-system.js:240-253 lets the counter drift upwards when the cap drops an unread entry (`Notifications.CapDropsUnreadNotification`).
- ClearingRule (`RuleEngine.ClearingRule`): the transit entity id of a rule is always present. In the source a configuration without transitEntityId gives records with a null entity id; a later netting rule's groupingBy (RuleEngineImpl.java:165) then throws, and the catch at line 183 skips that rule. The model does not capture that skip.
- ProcessCrossBorderRules (`RuleEngine.ProcessCrossBorderRules`): the enableNetting flag is not modelled. A configuration whose enableNetting is not a Boolean makes the cast at RuleEngineImpl.java:118 throw, so the source skips the whole cross-border rule where the model applies it.
- ThresholdCondition (`RuleEngine.ThresholdCondition`): `Strings.ParseDecimal` reads plain decimals only. A threshold in exponent form such as "1E4", which new BigDecimal accepts (RuleEngineImpl.java:377), makes the modelled condition false where the source compares the total against 10000.
- OrderService (`OrderServices.OrderService`): the transitions require and keep `Valid()`, which says that every stage passed carries its timestamp. The entity itself does not enforce this, so a row loaded with a status and without its stamps lies outside the model.
- Summary (`ProfitSharing.Summary`): the department and service counts of the source's summary (ProfitSharingController.java:423-472) are left out; only the amounts are modelled.

## Findings

Each row below has two halves in the model: a member that follows the code as written, with a lemma that exhibits the input, and a corrected member with the intended property proved. The rest of the model uses the corrected member, except `CrossBorderFlows.PerformNetting`, which stays as written because nothing else calls it.

| source | as written | input that shows it | evidently intended | confidence | as-written member | corrected member |
|---|---|---|---|---|---|---|
| src/main/java/com/oneorder/clearing/service/impl/CrossBorderFlowServiceImpl.java:370-405 | totalPayable adds up the non-positive order totals, and the net is then totalReceivable minus totalPayable, so it is the sum of the magnitudes | two orders with totals 100 and -100 give a netting record of 200 | a payable offsets a receivable: the net is the sum of the totals, and 100 with -100 yields no record | medium, not executed | `CrossBorderFlows.PerformNetting`, `CrossBorderFlows.NettingNetIsMagnitudeSum`, `CrossBorderFlows.OppositeOrdersDoNotCancel` | `CrossBorderFlows.CorrectedPerformNetting`, `CrossBorderFlows.CorrectedOppositeOrdersCancel` |
| src/main/java/com/oneorder/clearing/controller/PassthroughProcessingController.java:761-780 | a routed transaction numbers its details from sequence × 10 (line 653), but a direct copy keeps the bare sequence as detailSequence | ten transactions where a rule matches the first and none matches the tenth: both get detailSequence 10 and so one detailId | a direct copy is numbered sequence × 10 like a route, so every detail of an instruction has its own detailId | low, not executed | `Passthrough.AsWrittenRouted`, `Passthrough.DetailSequencesCollide` | `Passthrough.DirectTransaction`, `Passthrough.RoutedDetailIdsDistinct` |
| src/main/resources/static/js/protocol-manager.js:542-549 | the maximum is taken over parseInt of every id with "PROTO" removed, and an id without a number gives NaN | protocols loaded from /api/internal-protocols (protocol-manager.js:36) carry server ids "PROT" + System.currentTimeMillis() (InternalProtocolController.java:166-168), such as "PROT1760000000000"; one of them gives "PROTONaN", and the next call gives "PROTONaN" again | ids without a number are passed over, so the new id is PROTO followed by the next number and is always new | medium, not executed | `ProtocolManagement.GenerateProtocolId`, `ProtocolManagement.UnnumberedIdRepeatsNaN` | `ProtocolManagement.CorrectedGenerateProtocolId`, `ProtocolManagement.CorrectedIdIsNew` |
| target/classes/static/js/notification-system.js:240-253 | the unread counter is incremented before the list is cut to 100 entries, and the entry cut off is not counted out | a new unread notification added to a full list whose oldest entry is unread | the counter equals the number of unread notifications in the list | medium, not executed | `Notifications.AsWrittenAddedCount`, `Notifications.CapDropsUnreadNotification` | `Notifications.AddedCount`, `Notifications.AddNotificationCorrect` |
| target/classes/static/js/notification-system.js:391-407 | markAllAsRead collects the unread ids for the server confirmation after it has marked every notification read | any list with an unread notification: the confirmation names no id | the confirmation names exactly the notifications that were unread | high, not executed | `Notifications.AsWrittenReadConfirmation`, `Notifications.ReadConfirmationAlwaysEmpty` | `Notifications.ReadConfirmationCorrected`, `Notifications.NotificationCenter.MarkAllAsRead` |

/**
 * Clearing instructions and their execution (ClearingProcessingController):
 * an instruction per order and profit-sharing calculation, clearing details
 * generated from the department results, and the execution of the details in
 * execution order with success and failure counts and a final status. The
 * controller's static maps become the fields of ClearingProcessor.
 */
module ClearingProcessing {
  import opened Wrappers
  import opened Money
  import opened Sorting

  datatype DetailType = Receivable | Payable | InternalTransfer
  {
    function Name(): string {
      match this
      case Receivable => "RECEIVABLE"
      case Payable => "PAYABLE"
      case InternalTransfer => "INTERNAL_TRANSFER"
    }
  }

  /**
   * getExecutionOrder: a STAR clearing collects, then transfers internally,
   * then pays; every other mode (CHAIN) collects, pays, then transfers; an
   * unknown detail type comes last with 5.
   */
  function ExecutionOrder(clearingMode: string, detailType: string): int
  {
    if clearingMode == "STAR" then
      if detailType == "RECEIVABLE" then 1
      else if detailType == "INTERNAL_TRANSFER" then 2
      else if detailType == "PAYABLE" then 3
      else 5
    else
      if detailType == "RECEIVABLE" then 1
      else if detailType == "PAYABLE" then 2
      else if detailType == "INTERNAL_TRANSFER" then 3
      else 5
  }

  lemma ExecutionOrderRanks(clearingMode: string, detailType: string)
    ensures ExecutionOrder(clearingMode, detailType) == 1 <==> detailType == "RECEIVABLE"
    ensures ExecutionOrder(clearingMode, detailType) == 2 <==> (if clearingMode == "STAR" then detailType == "INTERNAL_TRANSFER" else detailType == "PAYABLE")
    ensures ExecutionOrder(clearingMode, detailType) == 3 <==> (if clearingMode == "STAR" then detailType == "PAYABLE" else detailType == "INTERNAL_TRANSFER")
    ensures ExecutionOrder(clearingMode, detailType) == 5 <==> detailType != "RECEIVABLE" && detailType != "PAYABLE" && detailType != "INTERNAL_TRANSFER"
  {
  }

  /** The execution order of a detail type, as getExecutionOrder gives it for the type's name. */
  function Rank(clearingMode: string, t: DetailType): int {
    match t
    case Receivable => 1
    case InternalTransfer => if clearingMode == "STAR" then 2 else 3
    case Payable => if clearingMode == "STAR" then 3 else 2
  }

  lemma RankIsExecutionOrder(clearingMode: string, t: DetailType)
    ensures Rank(clearingMode, t) == ExecutionOrder(clearingMode, t.Name())
    ensures 1 <= Rank(clearingMode, t) <= 3
  {
  }

  // ---------------------------------------------------------------------
  // generateClearingDetails
  // ---------------------------------------------------------------------

  /** A department result from profit sharing, as the generation reads it. */
  datatype ProfitShareRow = ProfitShareRow(
    orderId: string,
    calculationId: string,
    departmentId: string,
    serviceCode: string,
    externalRevenue: real,
    externalCost: real,
    internalPayment: real,
    profitSharingAmount: real)

  datatype DetailStatus = DetailPending | DetailCompleted | DetailFailed

  datatype ClearingDetail = ClearingDetail(
    instructionId: string,
    detailSequence: nat,
    detailType: DetailType,
    fromEntityId: string,
    toEntityId: string,
    detailAmount: real,
    serviceCode: string,
    departmentId: string,
    detailStatus: DetailStatus,
    executionOrder: int)

  /** The amount of a row that a detail of the given type carries. */
  function RowAmount(r: ProfitShareRow, t: DetailType): real {
    match t
    case Receivable => r.externalRevenue
    case Payable => r.externalCost
    case InternalTransfer => r.internalPayment
  }

  /** One PENDING detail of a row: collected from the customer, paid to the supplier, or transferred internally. */
  function NewDetail(instructionId: string, r: ProfitShareRow, t: DetailType, clearingMode: string, sequence: nat): (d: ClearingDetail)
    ensures d.instructionId == instructionId && d.detailSequence == sequence && d.detailType == t
    ensures d.detailAmount == RowAmount(r, t) && d.detailStatus == DetailPending
    ensures d.executionOrder == Rank(clearingMode, t)
  {
    var from := if t == Receivable then "CUSTOMER_" + r.orderId else r.departmentId;
    var to := match t
      case Receivable => r.departmentId
      case Payable => "SUPPLIER_" + r.orderId
      case InternalTransfer => "INTERNAL";
    ClearingDetail(instructionId, sequence, t, from, to, RowAmount(r, t), r.serviceCode, r.departmentId,
                   DetailPending, Rank(clearingMode, t))
  }

  /** A detail of the type when the row's amount for it is positive, else none. */
  function DetailIfPositive(instructionId: string, r: ProfitShareRow, t: DetailType, clearingMode: string, sequence: nat): (ds: seq<ClearingDetail>)
    ensures |ds| == (if RowAmount(r, t) > 0.0 then 1 else 0)
  {
    if RowAmount(r, t) > 0.0 then [NewDetail(instructionId, r, t, clearingMode, sequence)] else []
  }

  /** The details of one row, receivable, payable and internal transfer in that order, numbered from next. */
  function RowDetails(instructionId: string, r: ProfitShareRow, clearingMode: string, next: nat): (ds: seq<ClearingDetail>)
    ensures |ds| <= 3
  {
    var a := DetailIfPositive(instructionId, r, Receivable, clearingMode, next);
    var b := DetailIfPositive(instructionId, r, Payable, clearingMode, next + |a|);
    var c := DetailIfPositive(instructionId, r, InternalTransfer, clearingMode, next + |a| + |b|);
    a + b + c
  }

  /** The details of the rows: each row's details follow the previous rows', numbered on from 1. */
  function ClearingDetails(instructionId: string, rows: seq<ProfitShareRow>, clearingMode: string): (ds: seq<ClearingDetail>)
    decreases |rows|
  {
    if rows == [] then []
    else
      var prior := ClearingDetails(instructionId, rows[..|rows| - 1], clearingMode);
      prior + RowDetails(instructionId, rows[|rows| - 1], clearingMode, |prior| + 1)
  }

  /** Every detail is well formed for its instruction: positive amount, PENDING, and the execution order of its type. */
  predicate WellFormedDetail(d: ClearingDetail, instructionId: string, clearingMode: string) {
    d.instructionId == instructionId && d.detailAmount > 0.0 && d.detailStatus == DetailPending &&
    d.executionOrder == Rank(clearingMode, d.detailType)
  }

  /** The details are numbered on from next without gaps, and each is well formed. */
  predicate NumberedFrom(ds: seq<ClearingDetail>, next: nat, instructionId: string, clearingMode: string) {
    forall k :: 0 <= k < |ds| ==> ds[k].detailSequence == next + k && WellFormedDetail(ds[k], instructionId, clearingMode)
  }

  lemma RowDetailsShape(instructionId: string, r: ProfitShareRow, clearingMode: string, next: nat)
    ensures NumberedFrom(RowDetails(instructionId, r, clearingMode, next), next, instructionId, clearingMode)
  {
    var a := DetailIfPositive(instructionId, r, Receivable, clearingMode, next);
    var b := DetailIfPositive(instructionId, r, Payable, clearingMode, next + |a|);
    var c := DetailIfPositive(instructionId, r, InternalTransfer, clearingMode, next + |a| + |b|);
    assert NumberedFrom(a, next, instructionId, clearingMode);
    assert NumberedFrom(b, next + |a|, instructionId, clearingMode);
    assert NumberedFrom(c, next + |a| + |b|, instructionId, clearingMode);
    NumberedConcat(a, b, next, instructionId, clearingMode);
    NumberedConcat(a + b, c, next, instructionId, clearingMode);
  }

  lemma NumberedConcat(a: seq<ClearingDetail>, b: seq<ClearingDetail>, next: nat, instructionId: string, clearingMode: string)
    requires NumberedFrom(a, next, instructionId, clearingMode) && NumberedFrom(b, next + |a|, instructionId, clearingMode)
    ensures NumberedFrom(a + b, next, instructionId, clearingMode)
  {
    forall k | 0 <= k < |a + b| ensures (a + b)[k].detailSequence == next + k && WellFormedDetail((a + b)[k], instructionId, clearingMode) {
      if k < |a| {
        assert (a + b)[k] == a[k];
      } else {
        assert (a + b)[k] == b[k - |a|];
      }
    }
  }

  /** Generated details are numbered 1, 2, 3, … without gaps, and each is well formed. */
  lemma {:induction false} ClearingDetailsShape(instructionId: string, rows: seq<ProfitShareRow>, clearingMode: string)
    ensures NumberedFrom(ClearingDetails(instructionId, rows, clearingMode), 1, instructionId, clearingMode)
    decreases |rows|
  {
    if rows != [] {
      var prior := ClearingDetails(instructionId, rows[..|rows| - 1], clearingMode);
      ClearingDetailsShape(instructionId, rows[..|rows| - 1], clearingMode);
      RowDetailsShape(instructionId, rows[|rows| - 1], clearingMode, |prior| + 1);
      NumberedConcat(prior, RowDetails(instructionId, rows[|rows| - 1], clearingMode, |prior| + 1), 1, instructionId, clearingMode);
    }
  }

  lemma RowDetailsParts(instructionId: string, r: ProfitShareRow, clearingMode: string, next: nat)
    ensures var a := DetailIfPositive(instructionId, r, Receivable, clearingMode, next);
            var b := DetailIfPositive(instructionId, r, Payable, clearingMode, next + |a|);
            RowDetails(instructionId, r, clearingMode, next) ==
              a + b + DetailIfPositive(instructionId, r, InternalTransfer, clearingMode, next + |a| + |b|)
  {
  }

  /** The details of a row, with the running sequence numbers that the three guarded blocks see. */
  lemma RowDetailsAt(instructionId: string, r: ProfitShareRow, clearingMode: string, next: nat, s1: nat, s2: nat)
    requires s1 == next + |DetailIfPositive(instructionId, r, Receivable, clearingMode, next)|
    requires s2 == s1 + |DetailIfPositive(instructionId, r, Payable, clearingMode, s1)|
    ensures RowDetails(instructionId, r, clearingMode, next) ==
      DetailIfPositive(instructionId, r, Receivable, clearingMode, next) +
      DetailIfPositive(instructionId, r, Payable, clearingMode, s1) +
      DetailIfPositive(instructionId, r, InternalTransfer, clearingMode, s2)
  {
    RowDetailsParts(instructionId, r, clearingMode, next);
  }

  lemma ClearingDetailsSnoc(instructionId: string, rows: seq<ProfitShareRow>, clearingMode: string, i: nat)
    requires i < |rows|
    ensures ClearingDetails(instructionId, rows[..i + 1], clearingMode) ==
            ClearingDetails(instructionId, rows[..i], clearingMode) +
            RowDetails(instructionId, rows[i], clearingMode, |ClearingDetails(instructionId, rows[..i], clearingMode)| + 1)
  {
    assert rows[..i + 1][..i] == rows[..i];
  }

  /** One guarded block of generateClearingDetails: a detail of the type, numbered sequence, when the row's amount is positive. */
  method AddIfPositive(details: seq<ClearingDetail>, instructionId: string, r: ProfitShareRow, t: DetailType, clearingMode: string, sequence: nat)
    returns (details': seq<ClearingDetail>, sequence': nat)
    ensures details' == details + DetailIfPositive(instructionId, r, t, clearingMode, sequence)
    ensures sequence' == sequence + |details'| - |details|
  {
    details', sequence' := details, sequence;
    if RowAmount(r, t) > 0.0 {
      details' := details' + [NewDetail(instructionId, r, t, clearingMode, sequence')];
      sequence' := sequence' + 1;
    }
  }

  lemma AppendThree(x: seq<ClearingDetail>, a: seq<ClearingDetail>, b: seq<ClearingDetail>, c: seq<ClearingDetail>)
    ensures ((x + a) + b) + c == x + (a + b + c)
  {
  }

  /** The three guarded blocks of generateClearingDetails for one row. */
  method AddRowDetails(details: seq<ClearingDetail>, instructionId: string, r: ProfitShareRow, clearingMode: string, sequence: nat)
    returns (details': seq<ClearingDetail>, sequence': nat)
    ensures details' == details + RowDetails(instructionId, r, clearingMode, sequence)
    ensures sequence' == sequence + |details'| - |details|
  {
    var d1, s1 := AddIfPositive(details, instructionId, r, Receivable, clearingMode, sequence);
    var d2, s2 := AddIfPositive(d1, instructionId, r, Payable, clearingMode, s1);
    details', sequence' := AddIfPositive(d2, instructionId, r, InternalTransfer, clearingMode, s2);
    AppendThree(details, DetailIfPositive(instructionId, r, Receivable, clearingMode, sequence),
                DetailIfPositive(instructionId, r, Payable, clearingMode, s1),
                DetailIfPositive(instructionId, r, InternalTransfer, clearingMode, s2));
    RowDetailsAt(instructionId, r, clearingMode, sequence, s1, s2);
  }

  /**
   * generateClearingDetails: for each row in turn a RECEIVABLE, a PAYABLE and
   * an INTERNAL_TRANSFER detail for whichever of its amounts are positive,
   * numbered by a running sequence starting at 1.
   */
  method GenerateClearingDetails(instructionId: string, rows: seq<ProfitShareRow>, clearingMode: string)
    returns (details: seq<ClearingDetail>)
    ensures details == ClearingDetails(instructionId, rows, clearingMode)
    ensures NumberedFrom(details, 1, instructionId, clearingMode)
  {
    details := [];
    var sequence := 1;
    var i := 0;
    while i < |rows|
      invariant 0 <= i <= |rows|
      invariant details == ClearingDetails(instructionId, rows[..i], clearingMode)
      invariant sequence == |details| + 1
    {
      ClearingDetailsSnoc(instructionId, rows, clearingMode, i);
      details, sequence := AddRowDetails(details, instructionId, rows[i], clearingMode, sequence);
      i := i + 1;
    }
    assert rows[..i] == rows;
    ClearingDetailsShape(instructionId, rows, clearingMode);
  }

  /** The summed amounts of the details of one type. */
  function DetailTotal(ds: seq<ClearingDetail>, t: DetailType): real
    decreases |ds|
  {
    if ds == [] then 0.0
    else DetailTotal(ds[..|ds| - 1], t) + (if ds[|ds| - 1].detailType == t then ds[|ds| - 1].detailAmount else 0.0)
  }

  /** The summed positive amounts of the rows for one type. */
  function PositiveTotal(rows: seq<ProfitShareRow>, t: DetailType): real
    decreases |rows|
  {
    if rows == [] then 0.0
    else PositiveTotal(rows[..|rows| - 1], t) + (if RowAmount(rows[|rows| - 1], t) > 0.0 then RowAmount(rows[|rows| - 1], t) else 0.0)
  }

  lemma {:induction false} DetailTotalAppend(a: seq<ClearingDetail>, b: seq<ClearingDetail>, t: DetailType)
    ensures DetailTotal(a + b, t) == DetailTotal(a, t) + DetailTotal(b, t)
    decreases |b|
  {
    if b != [] {
      assert (a + b)[..|a + b| - 1] == a + b[..|b| - 1];
      DetailTotalAppend(a, b[..|b| - 1], t);
    } else {
      assert a + b == a;
    }
  }

  lemma DetailIfPositiveTotal(instructionId: string, r: ProfitShareRow, t: DetailType, u: DetailType, clearingMode: string, sequence: nat)
    ensures DetailTotal(DetailIfPositive(instructionId, r, t, clearingMode, sequence), u) ==
            (if t == u && RowAmount(r, t) > 0.0 then RowAmount(r, t) else 0.0)
  {
    var ds := DetailIfPositive(instructionId, r, t, clearingMode, sequence);
    if ds != [] {
      assert ds[..0] == [];
    }
  }

  lemma TotalOfThree(a: seq<ClearingDetail>, b: seq<ClearingDetail>, c: seq<ClearingDetail>, t: DetailType)
    ensures DetailTotal(a + b + c, t) == DetailTotal(a, t) + DetailTotal(b, t) + DetailTotal(c, t)
  {
    DetailTotalAppend(a + b, c, t);
    DetailTotalAppend(a, b, t);
  }

  lemma RowDetailsTotal(instructionId: string, r: ProfitShareRow, clearingMode: string, next: nat, t: DetailType)
    ensures DetailTotal(RowDetails(instructionId, r, clearingMode, next), t) == (if RowAmount(r, t) > 0.0 then RowAmount(r, t) else 0.0)
  {
    var a := DetailIfPositive(instructionId, r, Receivable, clearingMode, next);
    var s1 := next + |a|;
    var b := DetailIfPositive(instructionId, r, Payable, clearingMode, s1);
    var s2 := s1 + |b|;
    var c := DetailIfPositive(instructionId, r, InternalTransfer, clearingMode, s2);
    RowDetailsAt(instructionId, r, clearingMode, next, s1, s2);
    TotalOfThree(a, b, c, t);
    DetailIfPositiveTotal(instructionId, r, Receivable, t, clearingMode, next);
    DetailIfPositiveTotal(instructionId, r, Payable, t, clearingMode, s1);
    DetailIfPositiveTotal(instructionId, r, InternalTransfer, t, clearingMode, s2);
    var ta, tb, tc := DetailTotal(a, t), DetailTotal(b, t), DetailTotal(c, t);
    match t
    case Receivable => assert tb == 0.0 && tc == 0.0;
    case Payable => assert ta == 0.0 && tc == 0.0;
    case InternalTransfer => assert ta == 0.0 && tb == 0.0;
  }

  /** Generation loses no money: the details of each type carry exactly the rows' positive amounts of that type. */
  lemma {:induction false} DetailsCarryPositiveAmounts(instructionId: string, rows: seq<ProfitShareRow>, clearingMode: string, t: DetailType)
    ensures DetailTotal(ClearingDetails(instructionId, rows, clearingMode), t) == PositiveTotal(rows, t)
    decreases |rows|
  {
    if rows != [] {
      var prior := ClearingDetails(instructionId, rows[..|rows| - 1], clearingMode);
      DetailsCarryPositiveAmounts(instructionId, rows[..|rows| - 1], clearingMode, t);
      var e := RowDetails(instructionId, rows[|rows| - 1], clearingMode, |prior| + 1);
      DetailTotalAppend(prior, e, t);
      RowDetailsTotal(instructionId, rows[|rows| - 1], clearingMode, |prior| + 1, t);
    }
  }

  // ---------------------------------------------------------------------
  // Execution order
  // ---------------------------------------------------------------------

  /** Comparator.comparing(executionOrder), as List.sort uses it (a stable sort). */
  function ByExecutionOrder(): (leq: (ClearingDetail, ClearingDetail) -> bool)
    ensures forall a, b :: leq(a, b) == (a.executionOrder <= b.executionOrder)
  {
    (a: ClearingDetail, b: ClearingDetail) => a.executionOrder <= b.executionOrder
  }

  lemma ByExecutionOrderIsTotalPreorder()
    ensures IsTotalPreorder(ByExecutionOrder())
  {
  }

  /**
   * Once sorted, a STAR instruction's details run in three phases: every
   * receivable before any internal transfer, and every internal transfer
   * before any payable; a CHAIN instruction pays before transferring.
   */
  lemma {:induction false} SortedDetailsRunInPhases(ds: seq<ClearingDetail>, instructionId: string, clearingMode: string)
    requires NumberedFrom(ds, 1, instructionId, clearingMode)
    ensures var s := SortBy(ds, ByExecutionOrder());
      forall j, k :: 0 <= j < k < |s| ==> Rank(clearingMode, s[j].detailType) <= Rank(clearingMode, s[k].detailType)
  {
    var s := SortBy(ds, ByExecutionOrder());
    ByExecutionOrderIsTotalPreorder();
    SortBySorted(ds, ByExecutionOrder());
    forall k | 0 <= k < |s| ensures s[k].executionOrder == Rank(clearingMode, s[k].detailType) {
      assert s[k] in multiset(ds);
      var j :| 0 <= j < |ds| && ds[j] == s[k];
    }
    forall j, k | 0 <= j < k < |s|
      ensures Rank(clearingMode, s[j].detailType) <= Rank(clearingMode, s[k].detailType)
    {
      assert ByExecutionOrder()(s[j], s[k]);
    }
  }

  /** In STAR mode: receivables first, payables last. */
  lemma StarPhases(clearingMode: string, x: DetailType, y: DetailType)
    requires clearingMode == "STAR"
    requires Rank(clearingMode, x) <= Rank(clearingMode, y)
    ensures y == Receivable ==> x == Receivable
    ensures x == Payable ==> y == Payable
  {
  }

  // ---------------------------------------------------------------------
  // executeClearingDetail and performInstructionExecution
  // ---------------------------------------------------------------------

  /**
   * Whether the i-th executed detail hits the simulated network failure
   * (Math.random() < 0.05 in the source), given as a parameter.
   */
  function NetworkFails(failures: seq<bool>, i: nat): bool {
    i < |failures| && failures[i]
  }

  /** What executeClearingDetail reports for one detail: every known type succeeds unless the network fails. */
  datatype DetailResult = DetailResult(detailSequence: nat, detailType: DetailType, amount: real, success: bool)

  function ResultOf(d: ClearingDetail, failed: bool): (r: DetailResult)
    ensures r.success <==> !failed
    ensures r.detailSequence == d.detailSequence && r.amount == d.detailAmount
  {
    DetailResult(d.detailSequence, d.detailType, d.detailAmount, !failed)
  }

  /** The number of the first n details that succeed. */
  function Successes(failures: seq<bool>, n: nat): (c: nat)
    ensures c <= n
  {
    if n == 0 then 0 else Successes(failures, n - 1) + (if NetworkFails(failures, n - 1) then 0 else 1)
  }

  /** The summed amounts of the details that succeed. */
  function ExecutedAmount(s: seq<ClearingDetail>, failures: seq<bool>): real
    decreases |s|
  {
    if s == [] then 0.0
    else ExecutedAmount(s[..|s| - 1], failures) + (if NetworkFails(failures, |s| - 1) then 0.0 else s[|s| - 1].detailAmount)
  }

  /** A detail after execution: COMPLETED or FAILED, or untouched in a dry run. */
  function Marked(d: ClearingDetail, failed: bool, dryRun: bool): (m: ClearingDetail)
    ensures dryRun ==> m == d
    ensures !dryRun ==> m.detailStatus == (if failed then DetailFailed else DetailCompleted)
    ensures m.detailSequence == d.detailSequence && m.detailAmount == d.detailAmount && m.executionOrder == d.executionOrder
  {
    if dryRun then d
    else ClearingDetail(d.instructionId, d.detailSequence, d.detailType, d.fromEntityId, d.toEntityId, d.detailAmount,
                        d.serviceCode, d.departmentId, if failed then DetailFailed else DetailCompleted, d.executionOrder)
  }

  /** Without network failures every detail succeeds. */
  lemma {:induction false} NoFailureAllSucceed(failures: seq<bool>, n: nat)
    requires forall i :: 0 <= i < |failures| ==> !failures[i]
    ensures Successes(failures, n) == n
  {
    if n > 0 {
      NoFailureAllSucceed(failures, n - 1);
    }
  }

  /** Every one of the first n details failing leaves no success. */
  lemma {:induction false} AllFailNoSuccess(failures: seq<bool>, n: nat)
    requires n <= |failures| && forall i :: 0 <= i < n ==> failures[i]
    ensures Successes(failures, n) == 0
  {
    if n > 0 {
      AllFailNoSuccess(failures, n - 1);
    }
  }

  /** The loop of performInstructionExecution over the sorted details. */
  method ExecuteDetails(sorted: seq<ClearingDetail>, failures: seq<bool>, dryRun: bool)
    returns (results: seq<DetailResult>, successCount: nat, failureCount: nat, totalExecuted: real, updated: seq<ClearingDetail>)
    ensures |results| == |sorted| && |updated| == |sorted|
    ensures forall k :: 0 <= k < |sorted| ==>
              results[k] == ResultOf(sorted[k], NetworkFails(failures, k)) &&
              updated[k] == Marked(sorted[k], NetworkFails(failures, k), dryRun)
    ensures successCount == Successes(failures, |sorted|) && failureCount == |sorted| - successCount
    ensures totalExecuted == ExecutedAmount(sorted, failures)
  {
    results, updated := [], [];
    successCount, failureCount, totalExecuted := 0, 0, 0.0;
    var i := 0;
    while i < |sorted|
      invariant 0 <= i <= |sorted|
      invariant |results| == i && |updated| == i
      invariant forall k :: 0 <= k < i ==>
                  results[k] == ResultOf(sorted[k], NetworkFails(failures, k)) &&
                  updated[k] == Marked(sorted[k], NetworkFails(failures, k), dryRun)
      invariant successCount == Successes(failures, i) && failureCount == i - successCount
      invariant totalExecuted == ExecutedAmount(sorted[..i], failures)
    {
      var detail := sorted[i];
      assert sorted[..i + 1][..i] == sorted[..i];
      var failed := NetworkFails(failures, i);
      var result := ResultOf(detail, failed);
      results := results + [result];
      if result.success {
        successCount := successCount + 1;
        totalExecuted := totalExecuted + detail.detailAmount;
      } else {
        failureCount := failureCount + 1;
      }
      updated := updated + [Marked(detail, failed, dryRun)];
      i := i + 1;
    }
    assert sorted[..i] == sorted;
  }

  datatype InstructionStatus = Pending | Processing | Completed | PartiallyCompleted | Failed

  /** The final status: COMPLETED without failures, PARTIALLY_COMPLETED with some success, else FAILED. */
  function FinalStatus(successCount: nat, failureCount: nat): (s: InstructionStatus)
    ensures s == Completed <==> failureCount == 0
    ensures s == PartiallyCompleted <==> failureCount > 0 && successCount > 0
    ensures s == Failed <==> failureCount > 0 && successCount == 0
  {
    if failureCount == 0 then Completed else if successCount > 0 then PartiallyCompleted else Failed
  }

  /** The success rate in percent: successes / total at scale 4, HALF_UP, times 100; undefined for no details. */
  function SuccessRate(successCount: nat, total: nat): (r: real)
    requires total > 0
    ensures successCount == total ==> r == 100.0
    ensures successCount == 0 ==> r == 0.0
  {
    assert successCount == total ==> successCount as real / total as real == 1.0;
    assert IsWhole(10000.0) && IsWhole(0.0);
    Round4(successCount as real / total as real) * 100.0
  }

  datatype ExecutionSummary = ExecutionSummary(
    instructionId: string,
    dryRun: bool,
    totalDetails: nat,
    successCount: nat,
    failureCount: nat,
    successRate: real,
    totalExecutedAmount: real,
    executionResults: seq<DetailResult>)

  // ---------------------------------------------------------------------
  // The controller's stores
  // ---------------------------------------------------------------------

  datatype Instruction = Instruction(
    instructionId: string,
    orderId: string,
    calculationId: string,
    clearingBatchId: string,
    clearingMode: string,
    clearingAmount: real,
    instructionStatus: InstructionStatus,
    executionPriority: int,
    createdBy: string)

  datatype Batch = Batch(batchId: string, batchDate: string, batchType: string, batchStatus: string, createdBy: string)

  /** "BATCH_" + the day (yyyyMMdd) + "_001": one batch per day. */
  function DailyBatchId(today: string): (id: string)
    ensures |id| == |today| + 10
  {
    "BATCH_" + today + "_001"
  }

  /** Different days get different daily batches. */
  lemma DailyBatchIdInjective(day1: string, day2: string)
    requires DailyBatchId(day1) == DailyBatchId(day2)
    ensures day1 == day2
  {
    var id := DailyBatchId(day1);
    assert id[6..6 + |day1|] == day1;
    assert DailyBatchId(day2)[6..6 + |day2|] == day2;
  }

  /** "CLEARING_" + order id + "_" + the time stamp (yyyyMMddHHmmss). */
  function InstructionId(orderId: string, timestamp: string): (id: string)
    ensures |id| == |orderId| + |timestamp| + 10
  {
    "CLEARING_" + orderId + "_" + timestamp
  }

  /** The profit-sharing results the generation reads: two fixed records of MBL_PROCESSING for the order. */
  function MockProfitSharingResults(orderId: string, calculationId: string): (rows: seq<ProfitShareRow>)
    ensures |rows| == 2
  {
    [ProfitShareRow(orderId, calculationId, "SALES_DEPT", "MBL_PROCESSING", 15000.0, 0.0, 13200.0, 1800.0),
     ProfitShareRow(orderId, calculationId, "OPERATION_DEPT", "MBL_PROCESSING", 0.0, 12000.0, 0.0, 1200.0)]
  }

  /** The summed profitSharingAmount of the rows: the instruction's clearing amount. */
  function ClearingAmount(rows: seq<ProfitShareRow>): real
    decreases |rows|
  {
    if rows == [] then 0.0 else ClearingAmount(rows[..|rows| - 1]) + rows[|rows| - 1].profitSharingAmount
  }

  /** The fixed results clear 3000 in three details: collect 15000, transfer 13200 internally, pay 12000. */
  lemma MockInstructionShape(instructionId: string, orderId: string, calculationId: string, clearingMode: string)
    ensures ClearingAmount(MockProfitSharingResults(orderId, calculationId)) == 3000.0
    ensures var ds := ClearingDetails(instructionId, MockProfitSharingResults(orderId, calculationId), clearingMode);
      |ds| == 3 && ds[0].detailType == Receivable && ds[0].detailAmount == 15000.0 &&
      ds[1].detailType == InternalTransfer && ds[1].detailAmount == 13200.0 &&
      ds[2].detailType == Payable && ds[2].detailAmount == 12000.0
  {
    var rows := MockProfitSharingResults(orderId, calculationId);
    assert rows[..1][..0] == [] && rows[..|rows| - 1] == rows[..1] && rows[..1][0] == rows[0];
    assert ClearingAmount(rows[..1]) == ClearingAmount([]) + 1800.0;
    assert ClearingAmount(rows) == ClearingAmount(rows[..1]) + 1200.0;
    var first := ClearingDetails(instructionId, rows[..1], clearingMode);
    assert first == ClearingDetails(instructionId, [], clearingMode) + RowDetails(instructionId, rows[0], clearingMode, 1);
    assert |first| == 2;
    assert ClearingDetails(instructionId, rows, clearingMode) == first + RowDetails(instructionId, rows[1], clearingMode, 3);
  }

  /** Some instruction exists for this order and calculation. */
  predicate HasInstructionFor(instructions: map<string, Instruction>, orderId: string, calculationId: string) {
    exists id :: id in instructions && instructions[id].orderId == orderId && instructions[id].calculationId == calculationId
  }

  datatype GenerationResponse =
    | DuplicateInstruction
    | Generated(instructionId: string, batchId: string, clearingAmount: real, detailsCount: nat)

  datatype ExecutionResponse =
    | InstructionNotFound
    | AlreadyCompleted
    | ExecutionFailed
    | Executed(summary: ExecutionSummary)

  /** The status an executed instruction ends in. */
  function StatusAfter(s: seq<ClearingDetail>, failures: seq<bool>): InstructionStatus {
    FinalStatus(Successes(failures, |s|), |s| - Successes(failures, |s|))
  }

  /**
   * What an execution of the sorted details s reports and leaves stored: the
   * counts, amount and rate of the summary (a failure when there are no
   * details, as the rate divides by zero), and each detail marked.
   */
  predicate ExecutionReported(s: seq<ClearingDetail>, failures: seq<bool>, dryRun: bool, resp: ExecutionResponse, stored: seq<ClearingDetail>) {
    var ok := Successes(failures, |s|);
    (|s| == 0 ==> resp == ExecutionFailed) &&
    (|s| > 0 ==> resp.Executed? && resp.summary.totalDetails == |s| &&
                 resp.summary.successCount == ok && resp.summary.failureCount == |s| - ok &&
                 resp.summary.totalExecutedAmount == ExecutedAmount(s, failures) &&
                 resp.summary.successRate == SuccessRate(ok, |s|)) &&
    |stored| == |s| &&
    forall k :: 0 <= k < |s| ==> stored[k] == Marked(s[k], NetworkFails(failures, k), dryRun)
  }

  /**
   * performInstructionExecution on an instruction's stored details: sort
   * them by execution order, execute them, and report. The final status is
   * set before the success rate is computed, so with no details the status
   * is still returned (COMPLETED) while the answer is a failure.
   */
  method PerformInstructionExecution(instructionId: string, stored: seq<ClearingDetail>, dryRun: bool, failures: seq<bool>)
    returns (resp: ExecutionResponse, updated: seq<ClearingDetail>, status: InstructionStatus)
    ensures ExecutionReported(SortBy(stored, ByExecutionOrder()), failures, dryRun, resp, updated)
    ensures status == StatusAfter(SortBy(stored, ByExecutionOrder()), failures)
  {
    var sorted := SortBy(stored, ByExecutionOrder());
    var results, ok, failed, total;
    results, ok, failed, total, updated := ExecuteDetails(sorted, failures, dryRun);
    status := FinalStatus(ok, failed);
    if |sorted| == 0 {
      return ExecutionFailed, updated, status;
    }
    var rate := SuccessRate(ok, |sorted|);
    resp := Executed(ExecutionSummary(instructionId, dryRun, |sorted|, ok, failed, rate, total, results));
  }

  class ClearingProcessor {
    /** clearingInstructions: instruction id to instruction. */
    var instructions: map<string, Instruction>
    /** clearingDetails: instruction id to its details, in their current order. */
    var details: map<string, seq<ClearingDetail>>
    /** clearingBatches: batch id to batch. */
    var batches: map<string, Batch>

    /** The static initialisation: today's daily batch, PREPARING, created by system. */
    constructor(today: string)
      ensures instructions == map[] && details == map[]
      ensures batches == map[DailyBatchId(today) := Batch(DailyBatchId(today), today, "DAILY", "PREPARING", "system")]
    {
      instructions := map[];
      details := map[];
      batches := map[DailyBatchId(today) := Batch(DailyBatchId(today), today, "DAILY", "PREPARING", "system")];
    }

    /** getOrCreateDailyBatch: the day's batch, created when missing. */
    method GetOrCreateDailyBatch(today: string, createdBy: string) returns (batchId: string)
      modifies this
      ensures batchId == DailyBatchId(today)
      ensures batches == if batchId in old(batches) then old(batches)
                         else old(batches)[batchId := Batch(batchId, today, "DAILY", "PREPARING", createdBy)]
      ensures instructions == old(instructions) && details == old(details)
    {
      batchId := DailyBatchId(today);
      if batchId !in batches {
        batches := batches[batchId := Batch(batchId, today, "DAILY", "PREPARING", createdBy)];
      }
    }

    /**
     * generateClearingInstruction: refused when an instruction exists for the
     * same order and calculation; otherwise a PENDING instruction of priority
     * 5 in the day's batch, with the details generated from the fixed
     * profit-sharing results. A missing clearingMode is STAR, a missing
     * createdBy is system.
     */
    method GenerateClearingInstruction(orderId: string, calculationId: string, clearingMode: Option<string>,
                                       createdBy: Option<string>, timestamp: string, today: string)
      returns (resp: GenerationResponse)
      modifies this
      ensures HasInstructionFor(old(instructions), orderId, calculationId) ==> resp == DuplicateInstruction && unchanged(this)
      ensures !HasInstructionFor(old(instructions), orderId, calculationId) ==>
                var id := InstructionId(orderId, timestamp);
                var mode := clearingMode.GetOr("STAR");
                var rows := MockProfitSharingResults(orderId, calculationId);
                resp == Generated(id, DailyBatchId(today), ClearingAmount(rows), |ClearingDetails(id, rows, mode)|) &&
                instructions == old(instructions)[id := Instruction(id, orderId, calculationId, DailyBatchId(today), mode,
                                                                    ClearingAmount(rows), Pending, 5, createdBy.GetOr("system"))] &&
                details == old(details)[id := ClearingDetails(id, rows, mode)] &&
                DailyBatchId(today) in batches
    {
      if exists id :: id in instructions && instructions[id].orderId == orderId && instructions[id].calculationId == calculationId {
        return DuplicateInstruction;
      }
      var mode := clearingMode.GetOr("STAR");
      var creator := createdBy.GetOr("system");
      var id := InstructionId(orderId, timestamp);
      var batchId := GetOrCreateDailyBatch(today, creator);
      var rows := MockProfitSharingResults(orderId, calculationId);
      var amount := ClearingAmount(rows);
      instructions := instructions[id := Instruction(id, orderId, calculationId, batchId, mode, amount, Pending, 5, creator)];
      var generated := GenerateClearingDetails(id, rows, mode);
      details := details[id := generated];
      resp := Generated(id, batchId, amount, |generated|);
    }

    /**
     * executeClearingInstruction with performInstructionExecution: a missing
     * instruction is not found and a COMPLETED one is refused. Otherwise the
     * stored details are sorted in place by execution order (also in a dry
     * run) and executed; outside a dry run the instruction becomes PROCESSING,
     * each detail COMPLETED or FAILED, and the instruction takes the final
     * status. Without stored details the sort throws after PROCESSING was set;
     * with no details the success rate divides by zero after the final status
     * was set; both answer with a failure.
     */
    method ExecuteClearingInstruction(instructionId: string, dryRun: bool, failures: seq<bool>)
      returns (resp: ExecutionResponse)
      modifies this
      ensures instructionId !in old(instructions) ==> resp == InstructionNotFound && unchanged(this)
      ensures instructionId in old(instructions) && old(instructions)[instructionId].instructionStatus == Completed ==>
                resp == AlreadyCompleted && unchanged(this)
      ensures batches == old(batches)
      ensures instructionId in old(instructions) && old(instructions)[instructionId].instructionStatus != Completed &&
              instructionId !in old(details) ==>
                resp == ExecutionFailed && details == old(details) &&
                instructions == (if dryRun then old(instructions)
                                 else old(instructions)[instructionId := old(instructions)[instructionId].(instructionStatus := Processing)])
      ensures instructionId in old(instructions) && old(instructions)[instructionId].instructionStatus != Completed &&
              instructionId in old(details) ==>
                var s := SortBy(old(details)[instructionId], ByExecutionOrder());
                instructionId in details && ExecutionReported(s, failures, dryRun, resp, details[instructionId]) &&
                details == old(details)[instructionId := details[instructionId]] &&
                instructions == (if dryRun then old(instructions)
                                 else old(instructions)[instructionId := old(instructions)[instructionId].(instructionStatus := StatusAfter(s, failures))])
    {
      if instructionId !in instructions {
        return InstructionNotFound;
      }
      var inst := instructions[instructionId];
      if inst.instructionStatus == Completed {
        return AlreadyCompleted;
      }
      if !dryRun {
        instructions := instructions[instructionId := inst.(instructionStatus := Processing)];
      }
      if instructionId !in details {
        return ExecutionFailed;
      }
      var updated, status;
      resp, updated, status := PerformInstructionExecution(instructionId, details[instructionId], dryRun, failures);
      details := details[instructionId := updated];
      if !dryRun {
        instructions := instructions[instructionId := inst.(instructionStatus := status)];
      }
    }
  }

  /** A dry run leaves every instruction's status as it was. */
  method DryRunKeepsStatus(p: ClearingProcessor, instructionId: string, failures: seq<bool>) returns (resp: ExecutionResponse)
    modifies p
    ensures p.instructions == old(p.instructions)
  {
    resp := p.ExecuteClearingInstruction(instructionId, true, failures);
  }

  /** Re-executing a COMPLETED instruction is refused and changes nothing. */
  method CompletedIsFinal(p: ClearingProcessor, instructionId: string, failures: seq<bool>) returns (resp: ExecutionResponse)
    requires instructionId in p.instructions && p.instructions[instructionId].instructionStatus == Completed
    modifies p
    ensures resp == AlreadyCompleted
    ensures p.instructions == old(p.instructions) && p.details == old(p.details)
  {
    resp := p.ExecuteClearingInstruction(instructionId, false, failures);
  }

  /** Without network failures a non-empty instruction ends COMPLETED with a 100% success rate. */
  method FaultFreeExecutionCompletes(p: ClearingProcessor, instructionId: string) returns (resp: ExecutionResponse)
    requires instructionId in p.instructions && p.instructions[instructionId].instructionStatus != Completed
    requires instructionId in p.details && p.details[instructionId] != []
    modifies p
    ensures resp.Executed? && resp.summary.failureCount == 0 && resp.summary.successRate == 100.0
    ensures instructionId in p.instructions && p.instructions[instructionId].instructionStatus == Completed
  {
    var s := SortBy(p.details[instructionId], ByExecutionOrder());
    NoFailureAllSucceed([], |s|);
    resp := p.ExecuteClearingInstruction(instructionId, false, []);
  }
}

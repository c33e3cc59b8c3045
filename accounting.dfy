/**
 * Double-entry bookkeeping for clearing results (AccountingServiceImpl):
 * the account a result posts to, its debit or credit side, the management
 * and legal entries, the per-currency balance check, and a ledger of
 * vouchers that can be created and posted. The entry repository is the
 * ledger's `entries`; voucher ids and the operator are parameters.
 */
module Accounting {
  import opened Wrappers
  import opened Money
  import opened Sorting
  import opened Clearing

  datatype ReportType = Management | Legal

  datatype EntryType = ReceivableEntry | PayableEntry | RevenueEntry | CostEntry | ExpenseEntry | ProfitEntry | TransitEntry

  /** One accounting entry; the account name, summary text and audit columns are not modelled. */
  datatype AccountingEntry = AccountingEntry(
    entityId: string,
    currency: string,
    reportType: ReportType,
    accountCode: Option<string>,
    entryType: EntryType,
    debitAmount: real,
    creditAmount: real,
    isPosted: bool,
    voucherId: Option<string>,
    createdBy: Option<string>)

  /** AccountType.name(). */
  function AccountTypeName(a: AccountType): string {
    match a
    case ExternalReceivable => "EXTERNAL_RECEIVABLE"
    case ExternalPayable => "EXTERNAL_PAYABLE"
    case InternalReceivable => "INTERNAL_RECEIVABLE"
    case InternalPayable => "INTERNAL_PAYABLE"
    case CrossBorderReceivable => "CROSS_BORDER_RECEIVABLE"
    case CrossBorderPayable => "CROSS_BORDER_PAYABLE"
    case Retention => "RETENTION"
    case NettingAccount => "NETTING"
  }

  /** ACCOUNT_MAPPING: account keys to chart-of-accounts codes. */
  const AccountMapping: map<string, string> := map[
    "EXTERNAL_RECEIVABLE" := "1122", "EXTERNAL_PAYABLE" := "2202",
    "INTERNAL_RECEIVABLE" := "1221", "INTERNAL_PAYABLE" := "2241",
    "REVENUE" := "6001", "COST" := "5001", "EXPENSE" := "5101", "PROFIT" := "4103",
    "TRANSIT_FEE" := "1231", "NETTING" := "1241"]

  /**
   * determineAccountKey: a transit retention is a transit fee whatever its
   * type; receivables and payables use their account type's name; transit
   * fees, netting and profit sharing have keys of their own.
   */
  function DetermineAccountKey(r: ClearingResult): (key: string)
    ensures r.isTransitRetention ==> key == "TRANSIT_FEE"
    ensures !r.isTransitRetention && (r.transactionType == Receivable || r.transactionType == Payable) ==>
              key == AccountTypeName(r.accountType)
    ensures !r.isTransitRetention && r.transactionType == TransitFee ==> key == "TRANSIT_FEE"
    ensures !r.isTransitRetention && r.transactionType == Netting ==> key == "NETTING"
    ensures !r.isTransitRetention && r.transactionType == ProfitSharing ==> key == "PROFIT"
  {
    if r.isTransitRetention then "TRANSIT_FEE"
    else
      match r.transactionType
      case Receivable => AccountTypeName(r.accountType)
      case Payable => AccountTypeName(r.accountType)
      case TransitFee => "TRANSIT_FEE"
      case Netting => "NETTING"
      case ProfitSharing => "PROFIT"
  }

  /** The account code of a result; None where the mapping has no entry for its key. */
  function AccountCode(r: ClearingResult): (code: Option<string>)
    ensures code.Some? <==> DetermineAccountKey(r) in AccountMapping
  {
    var key := DetermineAccountKey(r);
    if key in AccountMapping then Some(AccountMapping[key]) else None
  }

  /** A transit retention posts to the transit-fee account 1231 whatever its transaction and account type. */
  lemma TransitRetentionAccount(r: ClearingResult)
    requires r.isTransitRetention
    ensures AccountCode(r) == Some("1231")
  {
  }

  /**
   * Exactly the receivables and payables on a cross-border or retention
   * account have no account code.
   */
  lemma UnmappedAccounts(r: ClearingResult)
    ensures AccountCode(r).None? <==>
              && !r.isTransitRetention
              && (r.transactionType == Receivable || r.transactionType == Payable)
              && r.accountType in {CrossBorderReceivable, CrossBorderPayable, Retention}
  {
    var key := DetermineAccountKey(r);
    if !r.isTransitRetention && (r.transactionType == Receivable || r.transactionType == Payable) {
      assert key == AccountTypeName(r.accountType);
      match r.accountType {
        case CrossBorderReceivable => assert key !in AccountMapping;
        case CrossBorderPayable => assert key !in AccountMapping;
        case Retention => assert key !in AccountMapping;
        case _ => assert key in AccountMapping;
      }
    }
  }

  /** determineEntryType; a netting result falls to the default, RECEIVABLE. */
  function DetermineEntryType(r: ClearingResult): (t: EntryType)
    ensures r.transactionType == Payable <==> t == PayableEntry
    ensures t == ReceivableEntry <==> (r.transactionType == Receivable || r.transactionType == Netting)
  {
    match r.transactionType
    case Receivable => ReceivableEntry
    case Payable => PayableEntry
    case ProfitSharing => ProfitEntry
    case TransitFee => TransitEntry
    case Netting => ReceivableEntry
  }

  predicate IsReceivableAccount(a: AccountType) {
    a == ExternalReceivable || a == InternalReceivable
  }

  predicate IsPayableAccount(a: AccountType) {
    a == ExternalPayable || a == InternalPayable
  }

  /** determineDebitDirection: receivable accounts debit, payable accounts credit, any other account by the sign of the result's amount. */
  function DetermineDebitDirection(r: ClearingResult): (debit: bool)
    ensures IsReceivableAccount(r.accountType) ==> debit
    ensures IsPayableAccount(r.accountType) ==> !debit
    ensures !IsReceivableAccount(r.accountType) && !IsPayableAccount(r.accountType) ==> (debit <==> r.amount > 0.0)
  {
    match r.accountType
    case ExternalReceivable => true
    case InternalReceivable => true
    case ExternalPayable => false
    case InternalPayable => false
    case _ => r.amount > 0.0
  }

  /**
   * setEntryAmounts: exactly one side carries |amount| and the other zero; a
   * negative amount goes to the side opposite its direction. Either way the
   * entry's debit minus credit is the amount signed by the direction.
   */
  function EntryAmounts(r: ClearingResult, amount: real): (sides: (real, real))
    ensures sides.0 >= 0.0 && sides.1 >= 0.0 && (sides.0 == 0.0 || sides.1 == 0.0)
    ensures sides.0 + sides.1 == Abs(amount)
    ensures sides.0 - sides.1 == (if DetermineDebitDirection(r) then amount else -amount)
    ensures amount < 0.0 ==> (sides.0 > 0.0 <==> !DetermineDebitDirection(r))
  {
    var debit := DetermineDebitDirection(r);
    var (magnitude, side) := if amount < 0.0 then (-amount, !debit) else (amount, debit);
    if side then (magnitude, 0.0) else (0.0, magnitude)
  }

  /** The entry amount of a result in a report: its management or legal amount when set, else its amount. */
  function ReportAmount(r: ClearingResult, t: ReportType): real {
    match t
    case Management => r.managementAmount.GetOr(r.amount)
    case Legal => r.legalAmount.GetOr(r.amount)
  }

  /** createAccountingEntry followed by setEntryAmounts. */
  function EntryFor(r: ClearingResult, t: ReportType): (e: AccountingEntry)
    ensures e.entityId == r.entityId && e.currency == r.currency && e.reportType == t && !e.isPosted
    ensures e.accountCode == AccountCode(r) && e.entryType == DetermineEntryType(r)
    ensures e.debitAmount - e.creditAmount == (if DetermineDebitDirection(r) then ReportAmount(r, t) else -ReportAmount(r, t))
  {
    var sides := EntryAmounts(r, ReportAmount(r, t));
    AccountingEntry(r.entityId, r.currency, t, AccountCode(r), DetermineEntryType(r), sides.0, sides.1, false, None, None)
  }

  function ReportEntries(rs: seq<ClearingResult>, t: ReportType): (es: seq<AccountingEntry>)
    ensures |es| == |rs|
  {
    seq(|rs|, k requires 0 <= k < |rs| => EntryFor(rs[k], t))
  }

  /** generateManagementEntries / generateLegalEntries: one entry per result, in order. */
  method GenerateReportEntries(rs: seq<ClearingResult>, t: ReportType) returns (entries: seq<AccountingEntry>)
    ensures entries == ReportEntries(rs, t)
    ensures forall k :: 0 <= k < |rs| ==> entries[k].entityId == rs[k].entityId && entries[k].reportType == t
  {
    entries := [];
    for i := 0 to |rs|
      invariant |entries| == i
      invariant forall k :: 0 <= k < i ==> entries[k] == EntryFor(rs[k], t)
    {
      entries := entries + [EntryFor(rs[i], t)];
    }
  }

  // ---------------------------------------------------------------- balance

  /** Debit minus credit over the entries in one currency. */
  function CurrencyBalance(es: seq<AccountingEntry>, currency: string): real
    decreases |es|
  {
    if es == [] then 0.0
    else
      var last := es[|es| - 1];
      CurrencyBalance(es[..|es| - 1], currency) + (if last.currency == currency then last.debitAmount - last.creditAmount else 0.0)
  }

  /** Every currency that occurs balances to zero. */
  predicate Balanced(es: seq<AccountingEntry>) {
    forall k :: 0 <= k < |es| ==> CurrencyBalance(es, es[k].currency) == 0.0
  }

  /** validateBalance: a running balance per currency, then every balance must be zero. */
  method ValidateBalance(es: seq<AccountingEntry>) returns (ok: bool)
    ensures ok <==> Balanced(es)
  {
    var balance: map<string, real> := map[];
    for i := 0 to |es|
      invariant forall c :: c in balance <==> exists k :: 0 <= k < i && es[k].currency == c
      invariant forall c :: c in balance ==> balance[c] == CurrencyBalance(es[..i], c)
    {
      assert es[..i + 1][..i] == es[..i];
      var key := es[i].currency;
      var current := if key in balance then balance[key] else 0.0;
      assert key !in balance ==> CurrencyBalance(es[..i], key) == 0.0 by {
        if key !in balance {
          AbsentCurrency(es[..i], key);
        }
      }
      balance := balance[key := current + es[i].debitAmount - es[i].creditAmount];
    }
    assert es[..|es|] == es;
    var pending := balance.Keys;
    while pending != {}
      invariant pending <= balance.Keys
      invariant forall c :: c in balance && c !in pending ==> balance[c] == 0.0
      decreases |pending|
    {
      var c :| c in pending;
      if balance[c] != 0.0 {
        var k :| 0 <= k < |es| && es[k].currency == c;
        return false;
      }
      pending := pending - {c};
    }
    forall k | 0 <= k < |es| ensures CurrencyBalance(es, es[k].currency) == 0.0 {
      assert es[k].currency in balance;
    }
    return true;
  }

  lemma {:induction false} AbsentCurrency(es: seq<AccountingEntry>, currency: string)
    requires forall k :: 0 <= k < |es| ==> es[k].currency != currency
    ensures CurrencyBalance(es, currency) == 0.0
    decreases |es|
  {
    if es != [] {
      AbsentCurrency(es[..|es| - 1], currency);
    }
  }

  /** A result's contribution to the balance: its report amount, signed by its direction. */
  function SignedAmount(r: ClearingResult, t: ReportType): real {
    if DetermineDebitDirection(r) then ReportAmount(r, t) else -ReportAmount(r, t)
  }

  function SignedSum(rs: seq<ClearingResult>, t: ReportType, currency: string): real
    decreases |rs|
  {
    if rs == [] then 0.0
    else
      var last := rs[|rs| - 1];
      SignedSum(rs[..|rs| - 1], t, currency) + (if last.currency == currency then SignedAmount(last, t) else 0.0)
  }

  /** The balance of a report's entries in a currency is the signed sum of the results in that currency. */
  lemma {:induction false} ReportBalanceIsSignedSum(rs: seq<ClearingResult>, t: ReportType, currency: string)
    ensures CurrencyBalance(ReportEntries(rs, t), currency) == SignedSum(rs, t, currency)
    decreases |rs|
  {
    if rs != [] {
      var init := rs[..|rs| - 1];
      ReportBalanceIsSignedSum(init, t, currency);
      assert ReportEntries(rs, t)[..|rs| - 1] == ReportEntries(init, t);
    }
  }

  /**
   * A negative amount on a payable account posts to the debit side, as a
   * positive receivable does: a chain transfer pair, +x on an internal
   * receivable and -x on an internal payable, debits 2x and no credit.
   */
  lemma TransferPairDoesNotBalance(receivable: ClearingResult, payable: ClearingResult, t: ReportType)
    requires receivable.accountType == InternalReceivable && payable.accountType == InternalPayable
    requires receivable.currency == payable.currency
    requires ReportAmount(receivable, t) > 0.0 && ReportAmount(payable, t) == -ReportAmount(receivable, t)
    ensures var es := ReportEntries([receivable, payable], t);
            es[0].debitAmount == ReportAmount(receivable, t) && es[1].debitAmount == ReportAmount(receivable, t)
            && es[0].creditAmount == 0.0 && es[1].creditAmount == 0.0
    ensures !Balanced(ReportEntries([receivable, payable], t))
  {
    var es := ReportEntries([receivable, payable], t);
    ReportBalanceIsSignedSum([receivable, payable], t, receivable.currency);
    assert [receivable, payable][..1] == [receivable];
    assert [receivable][..0] == [];
    assert SignedAmount(receivable, t) == ReportAmount(receivable, t);
    assert SignedAmount(payable, t) == ReportAmount(receivable, t);
    assert SignedSum([receivable], t, receivable.currency) == ReportAmount(receivable, t);
    assert SignedSum([receivable, payable], t, receivable.currency) == 2.0 * ReportAmount(receivable, t);
  }

  datatype AccountingError = Unbalanced

  /** generateAccountingEntries: management then legal entries, refused when they do not balance. */
  function GenerateAccountingEntries(rs: seq<ClearingResult>): (r: Result<seq<AccountingEntry>, AccountingError>)
    ensures r.Ok? <==> Balanced(ReportEntries(rs, Management) + ReportEntries(rs, Legal))
    ensures r.Ok? ==> r.value == ReportEntries(rs, Management) + ReportEntries(rs, Legal)
  {
    var all := ReportEntries(rs, Management) + ReportEntries(rs, Legal);
    if Balanced(all) then Ok(all) else Err(Unbalanced)
  }

  /** The entries of a new voucher: each carries the voucher id and the operator. */
  function Stamped(es: seq<AccountingEntry>, voucherId: string, operator: string): (s: seq<AccountingEntry>)
    ensures |s| == |es|
    ensures forall k :: 0 <= k < |es| ==> s[k] == es[k].(voucherId := Some(voucherId), createdBy := Some(operator))
  {
    seq(|es|, k requires 0 <= k < |es| => es[k].(voucherId := Some(voucherId), createdBy := Some(operator)))
  }

  // ---------------------------------------------------------------- vouchers

  function InVoucher(voucherId: string): AccountingEntry -> bool {
    (e: AccountingEntry) => e.voucherId == Some(voucherId)
  }

  function VoucherEntries(es: seq<AccountingEntry>, voucherId: string): seq<AccountingEntry> {
    Filter(es, InVoucher(voucherId))
  }

  /** A voucher can be posted when it has entries and they balance. */
  predicate CanPost(es: seq<AccountingEntry>, voucherId: string) {
    VoucherEntries(es, voucherId) != [] && Balanced(VoucherEntries(es, voucherId))
  }

  /** The entries of the voucher marked posted; nothing else changes. */
  function MarkPosted(es: seq<AccountingEntry>, voucherId: string): (m: seq<AccountingEntry>)
    ensures |m| == |es|
    ensures forall k :: 0 <= k < |es| ==> m[k] == (if es[k].voucherId == Some(voucherId) then es[k].(isPosted := true) else es[k])
  {
    seq(|es|, k requires 0 <= k < |es| => if es[k].voucherId == Some(voucherId) then es[k].(isPosted := true) else es[k])
  }

  /** The vouchers marked posted one after the other. */
  function MarkAllPosted(es: seq<AccountingEntry>, voucherIds: seq<string>): (m: seq<AccountingEntry>)
    ensures |m| == |es|
    decreases |voucherIds|
  {
    if voucherIds == [] then es
    else MarkPosted(MarkAllPosted(es, voucherIds[..|voucherIds| - 1]), voucherIds[|voucherIds| - 1])
  }

  lemma MarkAllPostedSnoc(es: seq<AccountingEntry>, voucherIds: seq<string>, v: string)
    ensures MarkAllPosted(es, voucherIds + [v]) == MarkPosted(MarkAllPosted(es, voucherIds), v)
  {
    assert (voucherIds + [v])[..|voucherIds|] == voucherIds;
  }

  /** Entry lists that agree in everything posting reads: voucher, currency and both amounts. */
  predicate SameBooks(a: seq<AccountingEntry>, b: seq<AccountingEntry>) {
    |a| == |b| &&
    forall k :: 0 <= k < |a| ==>
      a[k].voucherId == b[k].voucherId && a[k].currency == b[k].currency &&
      a[k].debitAmount == b[k].debitAmount && a[k].creditAmount == b[k].creditAmount
  }

  lemma {:induction false} SameBooksBalance(a: seq<AccountingEntry>, b: seq<AccountingEntry>, currency: string)
    requires SameBooks(a, b)
    ensures CurrencyBalance(a, currency) == CurrencyBalance(b, currency)
    decreases |a|
  {
    if a != [] {
      SameBooksBalance(a[..|a| - 1], b[..|b| - 1], currency);
    }
  }

  lemma {:induction false} SameBooksVoucher(a: seq<AccountingEntry>, b: seq<AccountingEntry>, voucherId: string)
    requires SameBooks(a, b)
    ensures SameBooks(VoucherEntries(a, voucherId), VoucherEntries(b, voucherId))
    decreases |a|
  {
    if a != [] {
      SameBooksVoucher(a[1..], b[1..], voucherId);
      var p := InVoucher(voucherId);
      var fa, fb := VoucherEntries(a[1..], voucherId), VoucherEntries(b[1..], voucherId);
      assert p(a[0]) == p(b[0]);
      if p(a[0]) {
        assert VoucherEntries(a, voucherId) == [a[0]] + fa;
        assert VoucherEntries(b, voucherId) == [b[0]] + fb;
      } else {
        assert VoucherEntries(a, voucherId) == fa;
        assert VoucherEntries(b, voucherId) == fb;
      }
    }
  }

  /** Posting reads only what SameBooks keeps. */
  lemma SameBooksCanPost(a: seq<AccountingEntry>, b: seq<AccountingEntry>, voucherId: string)
    requires SameBooks(a, b)
    ensures CanPost(a, voucherId) <==> CanPost(b, voucherId)
  {
    var va, vb := VoucherEntries(a, voucherId), VoucherEntries(b, voucherId);
    SameBooksVoucher(a, b, voucherId);
    forall k | 0 <= k < |va| ensures CurrencyBalance(va, va[k].currency) == CurrencyBalance(vb, vb[k].currency) {
      SameBooksBalance(va, vb, va[k].currency);
    }
  }

  /** Marking vouchers posted changes no voucher's postability: the batch outcome does not depend on its order. */
  lemma {:induction false} MarkAllPostedKeepsBooks(es: seq<AccountingEntry>, voucherIds: seq<string>)
    ensures SameBooks(MarkAllPosted(es, voucherIds), es)
    decreases |voucherIds|
  {
    if voucherIds != [] {
      MarkAllPostedKeepsBooks(es, voucherIds[..|voucherIds| - 1]);
    }
  }

  lemma PostingKeepsPostability(es: seq<AccountingEntry>, posted: seq<string>, voucherId: string)
    ensures CanPost(MarkAllPosted(es, posted), voucherId) <==> CanPost(es, voucherId)
  {
    MarkAllPostedKeepsBooks(es, posted);
    SameBooksCanPost(MarkAllPosted(es, posted), es, voucherId);
  }

  function Postable(es: seq<AccountingEntry>): string -> bool {
    (v: string) => CanPost(es, v)
  }

  /** The vouchers of ids that can be posted, in order. */
  function Postings(es: seq<AccountingEntry>, ids: seq<string>): seq<string>
    decreases |ids|
  {
    if ids == [] then []
    else Postings(es, ids[..|ids| - 1]) + (if CanPost(es, ids[|ids| - 1]) then [ids[|ids| - 1]] else [])
  }

  lemma {:induction false} PostingsFilter(es: seq<AccountingEntry>, ids: seq<string>)
    ensures Postings(es, ids) == Filter(ids, Postable(es))
    decreases |ids|
  {
    if ids != [] {
      var p := ids[..|ids| - 1];
      PostingsFilter(es, p);
      assert ids == p + [ids[|ids| - 1]];
      FilterSnoc(p, ids[|ids| - 1], Postable(es));
    }
  }

  /** The stored accounting entries and the voucher operations on them. */
  class Ledger {
    var entries: seq<AccountingEntry>

    constructor ()
      ensures entries == []
    {
      entries := [];
    }

    /**
     * createVoucher: the generated entries are stamped with the voucher id
     * and operator and saved; unbalanced entries save nothing.
     */
    method CreateVoucher(rs: seq<ClearingResult>, voucherId: string, operator: string) returns (ok: bool)
      modifies this
      ensures ok <==> GenerateAccountingEntries(rs).Ok?
      ensures ok ==> entries == old(entries) + Stamped(GenerateAccountingEntries(rs).value, voucherId, operator)
      ensures !ok ==> entries == old(entries)
    {
      var generated := GenerateAccountingEntries(rs);
      if generated.Err? {
        return false;
      }
      entries := entries + Stamped(generated.value, voucherId, operator);
      return true;
    }

    /** postVoucher: refused for a voucher without entries or with unbalanced ones; otherwise every entry of it is marked posted. */
    method PostVoucher(voucherId: string) returns (ok: bool)
      modifies this
      ensures ok <==> CanPost(old(entries), voucherId)
      ensures entries == if ok then MarkPosted(old(entries), voucherId) else old(entries)
    {
      var found := VoucherEntries(entries, voucherId);
      if found == [] {
        return false;
      }
      var balanced := ValidateBalance(found);
      if !balanced {
        return false;
      }
      var marked := entries;
      for i := 0 to |entries|
        invariant |marked| == |entries|
        invariant forall k :: 0 <= k < i ==> marked[k] == MarkPosted(entries, voucherId)[k]
        invariant forall k :: i <= k < |entries| ==> marked[k] == entries[k]
      {
        if marked[i].voucherId == Some(voucherId) {
          marked := marked[i := marked[i].(isPosted := true)];
        }
      }
      entries := marked;
      return true;
    }

    /** batchPostVouchers: the ids whose posting succeeded, in order; each was postable before the batch began. */
    method BatchPostVouchers(voucherIds: seq<string>) returns (posted: seq<string>)
      modifies this
      ensures posted == Filter(voucherIds, Postable(old(entries)))
      ensures entries == MarkAllPosted(old(entries), posted)
    {
      posted := [];
      var before := entries;
      for i := 0 to |voucherIds|
        invariant posted == Postings(before, voucherIds[..i])
        invariant entries == MarkAllPosted(before, posted)
      {
        var v := voucherIds[i];
        assert voucherIds[..i + 1][..i] == voucherIds[..i];
        PostingKeepsPostability(before, posted, v);
        MarkAllPostedSnoc(before, posted, v);
        var ok := PostVoucher(v);
        if ok {
          posted := posted + [v];
        }
      }
      assert voucherIds[..|voucherIds|] == voucherIds;
      PostingsFilter(before, voucherIds);
    }
  }
}

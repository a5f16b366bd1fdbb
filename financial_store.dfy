/**
 * The demo `FinancialService` of `financial.service.simulation.ts`: an
 * in-memory `mockTransactions` array that the record operations change in
 * place, a word-by-word search, and a summary and breakdowns that differ in
 * small ways from the real report service.
 *
 * Every operation first awaits `apiCall`, which fails at random; whether it
 * succeeded is the `apiOk` parameter.
 */
module FinancialSimulation {
  import opened Wrappers
  import opened JsText
  import opened Collections
  import opened Ledger
  import FinancialReport

  /** `ts.findIndex(t => t.id === id)`: the first index with that id, or -1. */
  function IndexOfId(ts: seq<Transaction>, id: string): (i: int)
    ensures -1 <= i < |ts|
    ensures 0 <= i ==> ts[i].id == id && forall j :: 0 <= j < i ==> ts[j].id != id
    ensures i == -1 ==> forall j :: 0 <= j < |ts| ==> ts[j].id != id
  {
    if ts == [] then -1
    else if ts[0].id == id then 0
    else
      var k := IndexOfId(ts[1..], id);
      if k == -1 then -1 else k + 1
  }

  /** `find` and `findIndex` agree: the record found is the one at the index found. */
  lemma {:induction false} FindAtIndex(ts: seq<Transaction>, id: string)
    ensures IndexOfId(ts, id) == -1 ==> FinancialReport.FindById(ts, id).None?
    ensures IndexOfId(ts, id) >= 0 ==> FinancialReport.FindById(ts, id) == Some(ts[IndexOfId(ts, id)])
    decreases |ts|
  {
    if ts != [] && ts[0].id != id {
      FindAtIndex(ts[1..], id);
    }
  }

  /** The predicate of `filter(t => t.id !== id)`. */
  function NotId(id: string): Transaction -> bool {
    (t: Transaction) => t.id != id
  }

  /** The object `createFinancialRecord` receives; `id` is `None` when the caller sends none. */
  datatype RecordDraft = RecordDraft(
    id: Option<string>, date: int, kind: TxType, category: string, description: string,
    amount: int, paymentMethod: string, status: TxStatus)

  const DemoUser: string := "Demo User"
  const IdPrefix: string := "FIN-"

  /**
   * `{id: 'FIN-' + now, ...data, date, createdBy: 'Demo User'}`: an id the
   * draft carries wins over the generated one, the creator never does.
   */
  function NewRecord(d: RecordDraft, now: nat): (r: Transaction)
    ensures r.createdBy == DemoUser
    ensures d.id.Some? ==> r.id == d.id.value
    ensures d.id.None? ==> StartsWith(r.id, IdPrefix) && ParseNat(r.id[|IdPrefix|..]) == Some(now)
    ensures r.date == d.date && r.kind == d.kind && r.category == d.category && r.description == d.description
      && r.amount == d.amount && r.paymentMethod == d.paymentMethod && r.status == d.status
  {
    var generated := IdPrefix + NatToString(now);
    ParseNatToString(now);
    assert generated[|IdPrefix|..] == NatToString(now);
    Transaction(d.id.GetOr(generated), d.date, d.kind, d.category, d.description, d.amount, d.paymentMethod, d.status, DemoUser)
  }

  /** Two drafts without ids created at different instants get different ids. */
  lemma GeneratedIdsDiffer(d: RecordDraft, e: RecordDraft, m: nat, n: nat)
    requires d.id.None? && e.id.None? && m != n
    ensures NewRecord(d, m).id != NewRecord(e, n).id
  {
    var a := NewRecord(d, m).id;
    var b := NewRecord(e, n).id;
    assert ParseNat(a[|IdPrefix|..]) != ParseNat(b[|IdPrefix|..]);
  }

  /** `{id, ...data}`: the patch, with the requested id unless the patch names its own. */
  function WithId(p: TransactionPatch, id: string): (q: TransactionPatch)
    ensures q.id == Some(p.id.GetOr(id))
    ensures q.(id := p.id) == p
  {
    p.(id := Some(p.id.GetOr(id)))
  }

  /** What `updateFinancialRecord` returns: the stored record, or an unstored object built from the patch. */
  datatype UpdateReply = Stored(record: Transaction) | Unstored(fields: TransactionPatch)

  class FinancialStore {
    /** `mockTransactions` */
    var records: seq<Transaction>

    constructor (initial: seq<Transaction>)
      ensures records == initial
    {
      records := initial;
    }

    /**
     * `getFinancialRecord`, on either path: the first record with that id,
     * otherwise the first record of all (`undefined` when there is none).
     */
    method GetFinancialRecord(id: string) returns (r: Option<Transaction>)
      ensures IndexOfId(records, id) >= 0 ==> r == Some(records[IndexOfId(records, id)])
      ensures IndexOfId(records, id) == -1 && records != [] ==> r == Some(records[0])
      ensures r.None? <==> records == []
    {
      FindAtIndex(records, id);
      r := FinancialReport.FindById(records, id);
      if r.None? && records != [] {
        r := Some(records[0]);
      }
    }

    /** `createFinancialRecord`: the record is appended only when the call succeeds. */
    method CreateFinancialRecord(d: RecordDraft, now: nat, apiOk: bool) returns (r: Transaction)
      modifies this
      ensures r == NewRecord(d, now)
      ensures apiOk ==> records == old(records) + [r]
      ensures !apiOk ==> records == old(records)
    {
      r := NewRecord(d, now);
      if apiOk {
        records := records + [r];
      }
    }

    /**
     * `updateFinancialRecord`: when the call succeeds and the id is stored,
     * the patch is merged over the first record with that id, in place;
     * otherwise nothing changes and the patch comes back with the id.
     */
    method UpdateFinancialRecord(id: string, data: TransactionPatch, apiOk: bool) returns (r: UpdateReply)
      modifies this
      ensures var i := IndexOfId(old(records), id);
        if apiOk && i >= 0 then
          |records| == |old(records)| && records[i] == Merge(old(records)[i], data)
          && (forall j :: 0 <= j < |records| && j != i ==> records[j] == old(records)[j])
          && r == Stored(records[i])
        else records == old(records) && r == Unstored(WithId(data, id))
    {
      if apiOk {
        var i := IndexOfId(records, id);
        if i != -1 {
          records := records[i := Merge(records[i], data)];
          r := Stored(records[i]);
          return;
        }
      }
      r := Unstored(WithId(data, id));
    }

    /**
     * `deleteFinancialRecord`: a successful call returns the stub's missing
     * `success` and removes nothing; a failed call removes every record with
     * that id and reports whether the length changed.
     */
    method DeleteFinancialRecord(id: string, apiOk: bool) returns (r: Option<bool>)
      modifies this
      ensures apiOk ==> r.None? && records == old(records)
      ensures !apiOk ==> records == Filter(old(records), NotId(id)) && r == Some(|records| != |old(records)|)
      ensures !apiOk ==> forall i :: 0 <= i < |records| ==> records[i].id != id
    {
      if apiOk {
        r := None;
      } else {
        var initialLength := |records|;
        records := Filter(records, NotId(id));
        r := Some(initialLength != |records|);
      }
    }

    /** `getFinancialReport` over the stored records. */
    method GetFinancialReport(f: FinancialReport.Filters) returns (rep: SimReport)
      ensures rep == ReportOf(records, f)
    {
      var transactions := FinancialReport.GenerateTransactions(records);
      var filtered := FilterRecords(transactions, f);
      rep := SimReport(CalculateSummary(filtered), filtered, CalculateCategoryBreakdown(filtered), CalculatePaymentMethods(filtered));
    }
  }

  /** The deletion of a failed call reports a change exactly when some record had the id. */
  lemma DeleteReportsPresence(ts: seq<Transaction>, id: string)
    ensures |Filter(ts, NotId(id))| != |ts| <==> exists i :: 0 <= i < |ts| && ts[i].id == id
  {
    FilterDropsIff(ts, NotId(id));
  }

  /** The search words: the lower-cased, trimmed search split on whitespace. */
  function SearchWords(search: string): seq<string> {
    SplitOnSpace(FinancialReport.Needle(search))
  }

  /** A word occurs in the lower-cased description, category or id; the payment method is not searched. */
  predicate MentionsWord(t: Transaction, w: string) {
    Contains(ToLower(t.description), w) || Contains(ToLower(t.category), w) || Contains(ToLower(t.id), w)
  }

  predicate WordSearchKept(f: FinancialReport.Filters, t: Transaction) {
    f.search.None? || Trim(f.search.value) == []
    || exists w :: w in SearchWords(f.search.value) && MentionsWord(t, w)
  }

  lemma LowerSpace(c: char)
    ensures IsSpace(LowerChar(c)) <==> IsSpace(c)
  {
  }

  /** Lower-casing neither adds nor removes whitespace, so the search is blank exactly when its needle is. */
  lemma NeedleBlankIff(search: string)
    ensures FinancialReport.Needle(search) == [] <==> Trim(search) == []
  {
    var l := ToLower(search);
    TrimEmptyIff(search);
    TrimEmptyIff(l);
    forall i | 0 <= i < |search|
      ensures IsSpace(l[i]) <==> IsSpace(search[i])
    {
      LowerSpace(search[i]);
    }
  }

  /** A non-blank search splits into non-empty words without whitespace. */
  lemma SearchWordsShape(search: string)
    requires Trim(search) != []
    ensures forall w :: w in SearchWords(search) ==> w != [] && forall k :: 0 <= k < |w| ==> !IsSpace(w[k])
  {
    var n := FinancialReport.Needle(search);
    NeedleBlankIff(search);
    var a := TrimShape(ToLower(search));
    SplitWords(n);
  }

  /** The first piece of a split is the text up to the first whitespace. */
  lemma FirstWord(n: string)
    ensures SplitOnSpace(n)[0] == n[0..NextSpace(n, 0)]
  {
  }

  /** A mention of a text is a mention of each of its prefixes. */
  lemma MentionsPrefix(t: Transaction, n: string, i: nat)
    requires MentionsWord(t, n) && i <= |n|
    ensures MentionsWord(t, n[0..i])
  {
    if Contains(ToLower(t.description), n) {
      ContainsInfix(ToLower(t.description), n, 0, i);
    } else if Contains(ToLower(t.category), n) {
      ContainsInfix(ToLower(t.category), n, 0, i);
    } else {
      ContainsInfix(ToLower(t.id), n, 0, i);
    }
  }

  /**
   * The word search keeps at least what a search for the whole needle in the
   * same three fields keeps: the needle's first word occurs wherever it does.
   */
  lemma WholeNeedleIsKept(f: FinancialReport.Filters, t: Transaction)
    requires f.search.Some? && MentionsWord(t, FinancialReport.Needle(f.search.value))
    ensures WordSearchKept(f, t)
  {
    var n := FinancialReport.Needle(f.search.value);
    var words := SearchWords(f.search.value);
    FirstWord(n);
    MentionsPrefix(t, n, NextSpace(n, 0));
    assert words[0] in words && MentionsWord(t, words[0]);
  }

  /**
   * A transaction found only through its payment method is kept by the
   * report service's search and dropped here.
   */
  lemma PaymentMethodNotSearched(f: FinancialReport.Filters, t: Transaction)
    requires f.search == Some("card") && t.paymentMethod == "card" && !MentionsWord(t, "card")
    ensures FinancialReport.SearchKept(f, t) && !WordSearchKept(f, t)
  {
    CardNeedle();
    assert OccursAt(ToLower(t.paymentMethod), 0, "card");
    CardSearchWords();
  }

  /** Such transactions exist: one whose other searched fields are too short to hold the word. */
  lemma CardNotMentioned(t: Transaction)
    requires |t.description| == 1 && |t.category| == 1 && |t.id| == 2
    ensures !MentionsWord(t, "card")
  {
    assert |ToLower(t.description)| == 1 && |ToLower(t.category)| == 1 && |ToLower(t.id)| == 2;
  }

  lemma CardNeedle()
    ensures ToLower("card") == "card" && FinancialReport.Needle("card") == "card"
  {
    ToLowerOfLower("card");
    TrimUnpadded("card");
  }

  lemma CardSearchWords()
    ensures SearchWords("card") == ["card"]
  {
    CardNeedle();
    assert NextSpace("card", 0) == 4;
  }

  /** All the filters of the demo report; only the search differs from the report service. */
  predicate SimKeep(f: FinancialReport.Filters, t: Transaction) {
    FinancialReport.TypeKept(f, t) && FinancialReport.CategoryKept(f, t) && FinancialReport.StatusKept(f, t)
    && FinancialReport.MethodKept(f, t) && WordSearchKept(f, t)
  }

  function SimKeeper(f: FinancialReport.Filters): Transaction -> bool {
    (t: Transaction) => SimKeep(f, t)
  }

  /** The filter chain of the demo `getFinancialReport`, without the date range. */
  function FilterRecords(ts: seq<Transaction>, f: FinancialReport.Filters): (r: seq<Transaction>)
    ensures IsSubsequence(r, ts)
    ensures forall i :: 0 <= i < |r| ==> SimKeep(f, r[i])
    ensures forall i :: 0 <= i < |ts| && SimKeep(f, ts[i]) ==> ts[i] in r
  {
    FilterSubsequence(ts, SimKeeper(f));
    FilterMembers(ts, SimKeeper(f));
    Filter(ts, SimKeeper(f))
  }

  function IsPending(t: Transaction): bool {
    t.status == Pending
  }

  /** `FinancialSummary` of the demo service; the ratios are exact rationals. */
  datatype SimSummary = SimSummary(
    totalIncome: int, totalExpense: int, totalBalance: int, totalTransactions: nat,
    averageTransaction: real, balancePercentage: real, pendingTransactions: nat)

  /**
   * `totalBalance === 0 ? 0 : (totalBalance / totalIncome) * 100` as written:
   * `None` stands for the infinite value JavaScript produces when the income
   * is zero and the balance is not.
   */
  function BalancePercentageAsWritten(balance: int, income: int): (r: Option<real>)
    ensures r.None? <==> balance != 0 && income == 0
    ensures r.Some? && income != 0 ==> r.value * income as real == balance as real * 100.0
  {
    BalancePercentageMeaning(balance, income);
    if balance == 0 then Some(0.0)
    else if income == 0 then None
    else Some(BalancePercentage(balance, income))
  }

  /** The guard as evidently intended, on the divisor: 0 when there is no income. */
  function BalancePercentage(balance: int, income: int): real {
    if income == 0 then 0.0 else (balance as real / income as real) * 100.0
  }

  /** The corrected percentage is the balance as a share of the income, and 0 without income. */
  lemma BalancePercentageMeaning(balance: int, income: int)
    ensures income != 0 ==> BalancePercentage(balance, income) * income as real == balance as real * 100.0
    ensures income == 0 ==> BalancePercentage(balance, income) == 0.0
  {
    if income != 0 {
      FinancialReport.DivisionCancels(balance as real, income as real);
    }
  }

  /** Expenses with no income make the guard pass a division by zero. */
  lemma BalancePercentageDividesByZero()
    ensures BalancePercentageAsWritten(0 - 500, 0).None?
    ensures BalancePercentage(0 - 500, 0) == 0.0
  {
  }

  /** Wherever the written guard gives a finite number, the corrected one gives the same. */
  lemma BalancePercentageAgrees(balance: int, income: int)
    requires BalancePercentageAsWritten(balance, income).Some?
    ensures BalancePercentageAsWritten(balance, income).value == BalancePercentage(balance, income)
  {
    BalancePercentageMeaning(balance, income);
  }

  /** `calculateSummary` of the demo service: completed totals, and the pending count over all the input. */
  function CalculateSummary(ts: seq<Transaction>): (s: SimSummary)
    ensures var completed := Filter(ts, IsCompleted);
      s.totalIncome == SumBy(Filter(completed, FinancialReport.IsIncome), Amount)
      && s.totalExpense == SumBy(Filter(completed, FinancialReport.IsExpense), Amount)
      && s.totalTransactions == |completed|
    ensures s.totalBalance == s.totalIncome - s.totalExpense
    ensures s.averageTransaction == FinancialReport.Average(s.totalIncome + s.totalExpense, s.totalTransactions)
    ensures s.balancePercentage == BalancePercentage(s.totalBalance, s.totalIncome)
    ensures s.pendingTransactions == |Filter(ts, IsPending)|
  {
    var completed := Filter(ts, IsCompleted);
    Summarize(SumBy(Filter(completed, FinancialReport.IsIncome), Amount),
      SumBy(Filter(completed, FinancialReport.IsExpense), Amount), |completed|, |Filter(ts, IsPending)|)
  }

  /** The summary object built from the two totals and the two counts. */
  function Summarize(income: int, expense: int, completed: nat, pending: nat): (s: SimSummary)
    ensures s.totalIncome == income && s.totalExpense == expense && s.totalTransactions == completed
    ensures s.totalBalance == income - expense && s.pendingTransactions == pending
    ensures s.averageTransaction == FinancialReport.Average(income + expense, completed)
    ensures s.balancePercentage == BalancePercentage(income - expense, income)
  {
    SimSummary(income, expense, income - expense, completed,
      FinancialReport.Average(income + expense, completed), BalancePercentage(income - expense, income), pending)
  }

  /** The summary's totals agree with the report service's and cover every completed amount. */
  lemma SummaryAgreesWithReport(ts: seq<Transaction>)
    ensures CalculateSummary(ts).totalIncome == FinancialReport.CalculateSummary(ts).totalIncome
    ensures CalculateSummary(ts).totalBalance == FinancialReport.CalculateSummary(ts).netProfit
    ensures CalculateSummary(ts).totalIncome + CalculateSummary(ts).totalExpense == SumBy(Filter(ts, IsCompleted), Amount)
  {
    FinancialReport.SummaryCoversCompleted(ts);
  }

  /** One entry of the demo category breakdown. */
  datatype CategoryBalance = CategoryBalance(category: string, total: int, income: int, expense: int, balance: int)

  function BalanceTotal(c: CategoryBalance): int {
    c.total
  }

  /**
   * `calculateCategoryBreakdown` of the demo service: the completed
   * transactions grouped by category, in insertion order, unsorted.
   */
  function CalculateCategoryBreakdown(ts: seq<Transaction>): (r: seq<CategoryBalance>)
    ensures var g := GroupBy(Filter(ts, IsCompleted), FinancialReport.Category);
      WellFormed(g) && |r| == |g.keys|
      && forall i :: 0 <= i < |r| ==>
        r[i].category == g.keys[i]
        && r[i].income == g.totals[g.keys[i]].income && r[i].expense == g.totals[g.keys[i]].expense
        && r[i].total == r[i].income + r[i].expense && r[i].balance == r[i].income - r[i].expense
  {
    var g := GroupBy(Filter(ts, IsCompleted), FinancialReport.Category);
    GroupByTotals(Filter(ts, IsCompleted), FinancialReport.Category);
    BalanceRows(g.keys, g.totals)
  }

  /** One `CategoryBalance` per key, in key order, from that key's tally. */
  function BalanceRows(keys: seq<string>, totals: map<string, Tally>): (r: seq<CategoryBalance>)
    requires forall k :: k in keys ==> k in totals
    ensures |r| == |keys|
    ensures forall i :: 0 <= i < |r| ==>
      r[i].category == keys[i] && r[i].income == totals[keys[i]].income && r[i].expense == totals[keys[i]].expense
      && r[i].total == r[i].income + r[i].expense && r[i].balance == r[i].income - r[i].expense
  {
    seq(|keys|, i requires 0 <= i < |keys| =>
      var c := totals[keys[i]];
      CategoryBalance(keys[i], c.income + c.expense, c.income, c.expense, c.income - c.expense))
  }

  /**
   * The categories are distinct, each is the category of some completed
   * transaction with exactly that category's income and expense, and the
   * totals add up to the completed amount.
   */
  lemma CategoryBreakdownProperties(ts: seq<Transaction>, i: nat)
    requires i < |CalculateCategoryBreakdown(ts)|
    ensures var r := CalculateCategoryBreakdown(ts);
      var completed := Filter(ts, IsCompleted);
      var k := KeyTally(completed, FinancialReport.Category, r[i].category);
      Distinct(GroupBy(completed, FinancialReport.Category).keys)
      && r[i].income == k.income && r[i].expense == k.expense
      && FinancialReport.HasCategory(completed, r[i].category)
    ensures SumBy(CalculateCategoryBreakdown(ts), BalanceTotal) == SumBy(Filter(ts, IsCompleted), Amount)
  {
    var r := CalculateCategoryBreakdown(ts);
    var completed := Filter(ts, IsCompleted);
    var g := GroupBy(completed, FinancialReport.Category);
    GroupByTotals(completed, FinancialReport.Category);
    GroupByEntry(completed, FinancialReport.Category, r[i].category);
    GroupByKeys(completed, FinancialReport.Category, r[i].category);
    AmountsSum(r, g.keys, g.totals, BalanceTotal);
  }

  /** Summing entries that each carry one `Map` entry's income plus expense is summing over the `Map`. */
  lemma {:induction false} AmountsSum<E>(e: seq<E>, keys: seq<string>, totals: map<string, Tally>, amount: E -> int)
    requires forall k :: k in keys ==> k in totals
    requires |e| == |keys|
    requires forall i :: 0 <= i < |e| ==> amount(e[i]) == totals[keys[i]].income + totals[keys[i]].expense
    ensures SumBy(e, amount) == SumAmounts(keys, totals)
  {
    if e != [] {
      AmountsSum(e[1..], keys[1..], totals, amount);
    }
  }

  /** One entry of the demo payment-method totals; the percentage is left out. */
  datatype MethodTotal = MethodTotal(methodKey: string, total: int)

  function MethodTotalOf(m: MethodTotal): int {
    m.total
  }

  /**
   * `calculatePaymentMethods` of the demo service: the amounts of every
   * transaction, whatever its status, summed per payment method.
   */
  function CalculatePaymentMethods(ts: seq<Transaction>): (r: seq<MethodTotal>)
    ensures var g := GroupBy(ts, FinancialReport.PaymentMethod);
      WellFormed(g) && |r| == |g.keys|
      && forall i :: 0 <= i < |r| ==>
        r[i].methodKey == g.keys[i] && r[i].total == g.totals[g.keys[i]].income + g.totals[g.keys[i]].expense
  {
    var g := GroupBy(ts, FinancialReport.PaymentMethod);
    GroupByTotals(ts, FinancialReport.PaymentMethod);
    seq(|g.keys|, i requires 0 <= i < |g.keys| =>
      var c := g.totals[g.keys[i]];
      MethodTotal(g.keys[i], c.income + c.expense))
  }

  /** The payment totals add up to every amount of the input, pending and cancelled ones included. */
  lemma PaymentTotalsCoverAll(ts: seq<Transaction>)
    ensures SumBy(CalculatePaymentMethods(ts), MethodTotalOf) == SumBy(ts, Amount)
  {
    var g := GroupBy(ts, FinancialReport.PaymentMethod);
    GroupByTotals(ts, FinancialReport.PaymentMethod);
    AmountsSum(CalculatePaymentMethods(ts), g.keys, g.totals, MethodTotalOf);
  }

  /** `FinancialReport` of the demo service without the period and the monthly data. */
  datatype SimReport = SimReport(
    summary: SimSummary, transactions: seq<Transaction>,
    categoryBreakdown: seq<CategoryBalance>, paymentMethods: seq<MethodTotal>)

  /** The report of a store: everything is computed from the filtered, date-sorted records. */
  function ReportOf(store: seq<Transaction>, f: FinancialReport.Filters): (rep: SimReport)
    ensures IsSubsequence(rep.transactions, FinancialReport.GenerateTransactions(store))
    ensures forall i :: 0 <= i < |rep.transactions| ==> SimKeep(f, rep.transactions[i])
    ensures forall t :: t in FinancialReport.GenerateTransactions(store) && SimKeep(f, t) ==> t in rep.transactions
    ensures rep.transactions == FilterRecords(FinancialReport.GenerateTransactions(store), f)
    ensures rep.summary == CalculateSummary(rep.transactions)
    ensures rep.categoryBreakdown == CalculateCategoryBreakdown(rep.transactions)
    ensures rep.paymentMethods == CalculatePaymentMethods(rep.transactions)
  {
    var filtered := FilterRecords(FinancialReport.GenerateTransactions(store), f);
    SimReport(CalculateSummary(filtered), filtered, CalculateCategoryBreakdown(filtered), CalculatePaymentMethods(filtered))
  }
}

/**
 * The financial report of `FinancialService` (`financial.service.ts`): the
 * stored transactions sorted newest first, the filter chain of the report,
 * the summary, and the category and payment-method breakdowns, computed
 * from the filtered list.
 */
module FinancialReport {
  import opened Wrappers
  import opened JsText
  import opened Collections
  import opened Ledger

  function Date(t: Transaction): int {
    t.date
  }

  /** `generateTransactions`: a copy of the store, newest first; the store itself is never changed by this service. */
  function GenerateTransactions(store: seq<Transaction>): (r: seq<Transaction>)
    ensures |r| == |store| && multiset(r) == multiset(store)
    ensures SortedDesc(r, Date)
  {
    SortDescSorted(store, Date);
    SortDesc(store, Date)
  }

  datatype TypeFilter = AllTypes | OnlyType(kind: TxType)
  datatype StatusFilter = AllStatuses | OnlyStatus(status: TxStatus)

  /** `FinancialFilters` without the date range. */
  datatype Filters = Filters(
    kind: Option<TypeFilter>, category: Option<string>, status: Option<StatusFilter>,
    paymentMethod: Option<string>, search: Option<string>)

  predicate TypeKept(f: Filters, t: Transaction) {
    f.kind.None? || f.kind.value.AllTypes? || t.kind == f.kind.value.kind
  }

  predicate CategoryKept(f: Filters, t: Transaction) {
    f.category.None? || f.category.value == [] || ToLower(t.category) == ToLower(f.category.value)
  }

  predicate StatusKept(f: Filters, t: Transaction) {
    f.status.None? || f.status.value.AllStatuses? || t.status == f.status.value.status
  }

  predicate MethodKept(f: Filters, t: Transaction) {
    f.paymentMethod.None? || f.paymentMethod.value == [] || t.paymentMethod == f.paymentMethod.value
  }

  /** The search needle: lower-cased, then trimmed. */
  function Needle(search: string): string {
    Trim(ToLower(search))
  }

  /** The needle is a substring of the lower-cased description, category, id or payment method. */
  predicate Mentions(t: Transaction, needle: string) {
    Contains(ToLower(t.description), needle) || Contains(ToLower(t.category), needle)
    || Contains(ToLower(t.id), needle) || Contains(ToLower(t.paymentMethod), needle)
  }

  predicate SearchKept(f: Filters, t: Transaction) {
    f.search.None? || Trim(f.search.value) == [] || Mentions(t, Needle(f.search.value))
  }

  /** All the filters of the report at once. */
  predicate Keep(f: Filters, t: Transaction) {
    TypeKept(f, t) && CategoryKept(f, t) && StatusKept(f, t) && MethodKept(f, t) && SearchKept(f, t)
  }

  /** One step of the chain: filtering what the earlier steps kept, when this filter is set, is filtering by all of them. */
  lemma Stage(ts: seq<Transaction>, r: seq<Transaction>, before: Transaction -> bool, step: Transaction -> bool,
              after: Transaction -> bool, applied: bool)
    requires forall t :: after(t) == (before(t) && step(t))
    requires !applied ==> forall t :: step(t)
    requires r == (if applied then Filter(Filter(ts, before), step) else Filter(ts, before))
    ensures r == Filter(ts, after)
  {
    FilterFuse(ts, before, step, after);
    if !applied {
      FilterKeepsAll(Filter(ts, before), step);
    }
  }

  /**
   * The filter chain of `getFinancialReport`, one `filter` per filter that is
   * set. The result is the single filter by all of them, so it only drops
   * transactions and keeps the order of the rest.
   */
  method FilterTransactions(ts: seq<Transaction>, f: Filters) returns (r: seq<Transaction>)
    ensures r == Filter(ts, t => Keep(f, t))
    ensures IsSubsequence(r, ts)
  {
    var always := (t: Transaction) => true;
    var byType := (t: Transaction) => TypeKept(f, t);
    var upToCategory := (t: Transaction) => TypeKept(f, t) && CategoryKept(f, t);
    var upToStatus := (t: Transaction) => TypeKept(f, t) && CategoryKept(f, t) && StatusKept(f, t);
    var upToMethod := (t: Transaction) => TypeKept(f, t) && CategoryKept(f, t) && StatusKept(f, t) && MethodKept(f, t);
    var all := (t: Transaction) => Keep(f, t);
    FilterKeepsAll(ts, always);
    r := ts;
    var applied := f.kind.Some? && !f.kind.value.AllTypes?;
    var sameType := (t: Transaction) => applied ==> t.kind == f.kind.value.kind;
    if applied {
      r := Filter(r, sameType);
    }
    Stage(ts, r, always, sameType, byType, applied);
    applied := f.category.Some? && f.category.value != [];
    var sameCategory := (t: Transaction) => applied ==> ToLower(t.category) == ToLower(f.category.value);
    if applied {
      r := Filter(r, sameCategory);
    }
    Stage(ts, r, byType, sameCategory, upToCategory, applied);
    applied := f.status.Some? && !f.status.value.AllStatuses?;
    var sameStatus := (t: Transaction) => applied ==> t.status == f.status.value.status;
    if applied {
      r := Filter(r, sameStatus);
    }
    Stage(ts, r, upToCategory, sameStatus, upToStatus, applied);
    applied := f.paymentMethod.Some? && f.paymentMethod.value != [];
    var sameMethod := (t: Transaction) => applied ==> t.paymentMethod == f.paymentMethod.value;
    if applied {
      r := Filter(r, sameMethod);
    }
    Stage(ts, r, upToStatus, sameMethod, upToMethod, applied);
    applied := f.search.Some? && Trim(f.search.value) != [];
    var mentioned := (t: Transaction) => applied ==> Mentions(t, Needle(f.search.value));
    if applied {
      r := Filter(r, mentioned);
    }
    Stage(ts, r, upToMethod, mentioned, all, applied);
    FilterSubsequence(ts, all);
  }

  /** A whitespace-only or empty search keeps every transaction, as does a missing one. */
  lemma BlankSearchKeepsAll(f: Filters, t: Transaction)
    requires f.search.None? || AllSpace(f.search.value)
    ensures SearchKept(f, t)
  {
    if f.search.Some? {
      TrimEmptyIff(f.search.value);
    }
  }

  function IsIncome(t: Transaction): bool {
    t.kind == Income
  }

  function IsExpense(t: Transaction): bool {
    t.kind == Expense
  }

  lemma DivisionCancels(a: real, b: real)
    requires b != 0.0
    ensures (a / b) * b == a
  {
  }

  /** `total > 0 ? (amount / total) * 100 : 0`, as an exact rational. */
  function Percentage(amount: int, total: int): real {
    if total > 0 then (amount as real / total as real) * 100.0 else 0.0
  }

  /** The percentage is the amount's share of a positive total, and 0 otherwise. */
  lemma PercentageMeaning(amount: int, total: int)
    ensures total > 0 ==> Percentage(amount, total) * total as real == amount as real * 100.0
    ensures total <= 0 ==> Percentage(amount, total) == 0.0
  {
    if total > 0 {
      DivisionCancels(amount as real, total as real);
    }
  }

  /** `count > 0 ? total / count : 0`, as an exact rational. */
  function Average(total: int, count: nat): real {
    if count > 0 then total as real / count as real else 0.0
  }

  /** The average times the count gives back the total; without transactions it is 0. */
  lemma AverageMeaning(total: int, count: nat)
    ensures count > 0 ==> Average(total, count) * count as real == total as real
    ensures count == 0 ==> Average(total, count) == 0.0
  {
    if count > 0 {
      DivisionCancels(total as real, count as real);
    }
  }

  /** `FinancialSummary`; the ratios are exact rationals. */
  datatype Summary = Summary(
    totalIncome: int, totalExpense: int, netProfit: int, profitMargin: real,
    transactionCount: nat, avgTransactionValue: real)

  /** `calculateSummary`: totals over the completed transactions only. */
  function CalculateSummary(ts: seq<Transaction>): (s: Summary)
    ensures var completed := Filter(ts, IsCompleted);
      s.totalIncome == SumBy(Filter(completed, IsIncome), Amount)
      && s.totalExpense == SumBy(Filter(completed, IsExpense), Amount)
      && s.transactionCount == |completed|
    ensures s.netProfit == s.totalIncome - s.totalExpense
    ensures s.profitMargin == Percentage(s.netProfit, s.totalIncome)
    ensures s.avgTransactionValue == Average(s.totalIncome + s.totalExpense, s.transactionCount)
  {
    var completed := Filter(ts, IsCompleted);
    var income := SumBy(Filter(completed, IsIncome), Amount);
    var expense := SumBy(Filter(completed, IsExpense), Amount);
    var net := income - expense;
    Summary(income, expense, net, Percentage(net, income), |completed|, Average(income + expense, |completed|))
  }

  /** Income and expense together are all of the completed amounts. */
  lemma SummaryCoversCompleted(ts: seq<Transaction>)
    ensures CalculateSummary(ts).totalIncome + CalculateSummary(ts).totalExpense == SumBy(Filter(ts, IsCompleted), Amount)
  {
    SumBySplit(Filter(ts, IsCompleted), Amount, IsIncome, IsExpense);
  }

  /** The ten colours the breakdown cycles through. */
  const Palette: seq<string> := [
    "#3b82f6", "#10b981", "#f59e0b", "#ef4444", "#8b5cf6",
    "#ec4899", "#14b8a6", "#f97316", "#06b6d4", "#84cc16"
  ]

  datatype CategorySummary = CategorySummary(category: string, amount: int, percentage: real, transactionCount: nat, color: string)

  function Category(t: Transaction): string {
    t.category
  }

  function PaymentMethod(t: Transaction): string {
    t.paymentMethod
  }

  function SummaryAmount(c: CategorySummary): int {
    c.amount
  }

  function SummaryCount(c: CategorySummary): int {
    c.transactionCount
  }

  /**
   * The `forEach` that fills the `Map`: for each transaction, the entry of its
   * key (or a zero entry) plus the transaction, set back under the key.
   */
  method TallyBy(ts: seq<Transaction>, key: Transaction -> string) returns (g: Groups)
    ensures g == GroupBy(ts, key)
  {
    var keys: seq<string> := [];
    var totals: map<string, Tally> := map[];
    var i := 0;
    while i < |ts|
      invariant 0 <= i <= |ts|
      invariant Groups(keys, totals) == GroupBy(ts[..i], key)
    {
      var t := ts[i];
      var k := key(t);
      var current := if k in totals then totals[k] else NoTally;
      if k !in totals {
        keys := keys + [k];
      }
      totals := totals[k := Add(current, t)];
      assert ts[..i + 1][..i] == ts[..i];
      i := i + 1;
    }
    assert ts[..|ts|] == ts;
    g := Groups(keys, totals);
  }

  /** The entries of the category `Map`, in insertion order, with their colours. */
  function CategoryEntries(g: Groups, total: int): (r: seq<CategorySummary>)
    requires WellFormed(g)
    ensures |r| == |g.keys|
    ensures forall i :: 0 <= i < |r| ==>
      r[i].category == g.keys[i] && r[i].color == Palette[i % 10]
      && r[i].amount == g.totals[g.keys[i]].income + g.totals[g.keys[i]].expense
      && r[i].transactionCount == g.totals[g.keys[i]].count
      && r[i].percentage == Percentage(r[i].amount, total)
  {
    seq(|g.keys|, i requires 0 <= i < |g.keys| =>
      var tally := g.totals[g.keys[i]];
      CategorySummary(g.keys[i], tally.income + tally.expense, Percentage(tally.income + tally.expense, total), tally.count, Palette[i % 10]))
  }

  /** The category entries of the completed transactions, before sorting. */
  function CategoryEntriesOf(ts: seq<Transaction>): (r: seq<CategorySummary>)
    ensures |r| == |GroupBy(Filter(ts, IsCompleted), Category).keys|
    ensures forall i :: 0 <= i < |r| ==> r[i].category == GroupBy(Filter(ts, IsCompleted), Category).keys[i]
  {
    var g := GroupBy(Filter(ts, IsCompleted), Category);
    GroupByTotals(Filter(ts, IsCompleted), Category);
    CategoryEntries(g, SumAmounts(g.keys, g.totals))
  }

  /** The breakdown `calculateCategoryBreakdown` returns, as a value. */
  function CategoryBreakdownOf(ts: seq<Transaction>): seq<CategorySummary> {
    SortDesc(CategoryEntriesOf(ts), SummaryAmount)
  }

  /**
   * `calculateCategoryBreakdown`: the completed transactions grouped by
   * category, coloured in insertion order, then sorted by amount, largest
   * first.
   */
  method CalculateCategoryBreakdown(ts: seq<Transaction>) returns (r: seq<CategorySummary>)
    ensures r == CategoryBreakdownOf(ts)
  {
    var completed := Filter(ts, IsCompleted);
    var g := TallyBy(completed, Category);
    GroupByTotals(completed, Category);
    var total := SumAmounts(g.keys, g.totals);
    r := SortDesc(CategoryEntries(g, total), SummaryAmount);
  }

  /** Summing the entries' amounts, or counts, is summing over the `Map`. */
  lemma {:induction false} EntriesSum<E>(e: seq<E>, keys: seq<string>, totals: map<string, Tally>, amount: E -> int, count: E -> int)
    requires forall k :: k in keys ==> k in totals
    requires |e| == |keys|
    requires forall i :: 0 <= i < |e| ==>
      amount(e[i]) == totals[keys[i]].income + totals[keys[i]].expense && count(e[i]) == totals[keys[i]].count
    ensures SumBy(e, amount) == SumAmounts(keys, totals)
    ensures SumBy(e, count) == SumCounts(keys, totals)
  {
    if e != [] {
      EntriesSum(e[1..], keys[1..], totals, amount, count);
    }
  }

  /**
   * The breakdown's amounts add up to the completed total, and its counts to
   * the number of completed transactions.
   */
  lemma CategoryBreakdownSums(ts: seq<Transaction>)
    ensures SumBy(CategoryBreakdownOf(ts), SummaryAmount) == SumBy(Filter(ts, IsCompleted), Amount)
    ensures SumBy(CategoryBreakdownOf(ts), SummaryCount) == |Filter(ts, IsCompleted)|
  {
    var completed := Filter(ts, IsCompleted);
    var g := GroupBy(completed, Category);
    GroupByTotals(completed, Category);
    var e := CategoryEntriesOf(ts);
    EntriesSum(e, g.keys, g.totals, SummaryAmount, SummaryCount);
    SumByPermutation(CategoryBreakdownOf(ts), e, SummaryAmount);
    SumByPermutation(CategoryBreakdownOf(ts), e, SummaryCount);
  }

  /** The breakdown is sorted by amount, largest first. */
  lemma CategoryBreakdownSorted(ts: seq<Transaction>)
    ensures SortedDesc(CategoryBreakdownOf(ts), SummaryAmount)
  {
    SortDescSorted(CategoryEntriesOf(ts), SummaryAmount);
  }

  /** Some transaction of `ts` has category `c`. */
  predicate HasCategory(ts: seq<Transaction>, c: string) {
    exists j :: 0 <= j < |ts| && ts[j].category == c
  }

  /** Each entry names a category of some completed transaction. */
  lemma EntryCategoryOrigin(ts: seq<Transaction>, m: nat) returns (j: nat)
    requires m < |CategoryEntriesOf(ts)|
    ensures j < |Filter(ts, IsCompleted)| && Filter(ts, IsCompleted)[j].category == CategoryEntriesOf(ts)[m].category
  {
    var completed := Filter(ts, IsCompleted);
    var g := GroupBy(completed, Category);
    GroupByKeys(completed, Category, g.keys[m]);
    j :| 0 <= j < |completed| && Category(completed[j]) == g.keys[m];
  }

  /** The breakdown names only categories of completed transactions. */
  lemma CategoryBreakdownOrigin(ts: seq<Transaction>)
    ensures forall i :: 0 <= i < |CategoryBreakdownOf(ts)| ==>
      HasCategory(Filter(ts, IsCompleted), CategoryBreakdownOf(ts)[i].category)
  {
    var e := CategoryEntriesOf(ts);
    var r := CategoryBreakdownOf(ts);
    PermutationSameElements(r, e);
    forall i | 0 <= i < |r|
      ensures HasCategory(Filter(ts, IsCompleted), r[i].category)
    {
      var m :| 0 <= m < |e| && e[m] == r[i];
      var j := EntryCategoryOrigin(ts, m);
    }
  }

  /** Every category of a completed transaction has exactly one entry, coloured by its position in the `Map`. */
  lemma CategoryEntriesCover(ts: seq<Transaction>, c: string)
    requires exists j :: 0 <= j < |ts| && ts[j].status == Completed && ts[j].category == c
    ensures var e := CategoryEntriesOf(ts);
      exists i :: 0 <= i < |e| && e[i].category == c && e[i].color == Palette[i % 10]
        && (forall i' :: 0 <= i' < |e| && e[i'].category == c ==> i' == i)
  {
    var completed := Filter(ts, IsCompleted);
    var j :| 0 <= j < |ts| && ts[j].status == Completed && ts[j].category == c;
    FilterMembers(ts, IsCompleted);
    assert ts[j] in completed;
    var j' :| 0 <= j' < |completed| && completed[j'] == ts[j];
    GroupByKeys(completed, Category, c);
    var g := GroupBy(completed, Category);
    GroupByTotals(completed, Category);
    var e := CategoryEntriesOf(ts);
    var i :| 0 <= i < |g.keys| && g.keys[i] == c;
    assert e[i].category == c && e[i].color == Palette[i % 10];
  }

  /** The labels of the known payment methods; any other method is shown as it is. */
  function MethodLabel(m: string): (shown: string)
    ensures m !in {"cash", "transfer", "card", "e-wallet"} ==> shown == m
  {
    if m == "cash" then "Tunai"
    else if m == "transfer" then "Transfer Bank"
    else if m == "card" then "Kartu Kredit/Debit"
    else if m == "e-wallet" then "E-Wallet"
    else m
  }

  datatype PaymentMethodSummary = PaymentMethodSummary(methodLabel: string, amount: int, percentage: real, count: nat)

  function MethodAmount(p: PaymentMethodSummary): int {
    p.amount
  }

  function MethodCount(p: PaymentMethodSummary): int {
    p.count
  }

  /** The entries of the payment-method `Map`, in insertion order, labelled. */
  function PaymentEntries(g: Groups, total: int): (r: seq<PaymentMethodSummary>)
    requires WellFormed(g)
    ensures |r| == |g.keys|
    ensures forall i :: 0 <= i < |r| ==>
      r[i].methodLabel == MethodLabel(g.keys[i])
      && r[i].amount == g.totals[g.keys[i]].income + g.totals[g.keys[i]].expense
      && r[i].count == g.totals[g.keys[i]].count
      && r[i].percentage == Percentage(r[i].amount, total)
  {
    seq(|g.keys|, i requires 0 <= i < |g.keys| =>
      var tally := g.totals[g.keys[i]];
      PaymentMethodSummary(MethodLabel(g.keys[i]), tally.income + tally.expense, Percentage(tally.income + tally.expense, total), tally.count))
  }

  /** The payment entries of the completed transactions, before sorting. */
  function PaymentEntriesOf(ts: seq<Transaction>): (r: seq<PaymentMethodSummary>)
    ensures |r| == |GroupBy(Filter(ts, IsCompleted), PaymentMethod).keys|
    ensures forall i :: 0 <= i < |r| ==> r[i].methodLabel == MethodLabel(GroupBy(Filter(ts, IsCompleted), PaymentMethod).keys[i])
  {
    var g := GroupBy(Filter(ts, IsCompleted), PaymentMethod);
    GroupByTotals(Filter(ts, IsCompleted), PaymentMethod);
    PaymentEntries(g, SumAmounts(g.keys, g.totals))
  }

  /** The list `calculatePaymentMethods` returns, as a value. */
  function PaymentMethodsOf(ts: seq<Transaction>): seq<PaymentMethodSummary> {
    SortDesc(PaymentEntriesOf(ts), MethodAmount)
  }

  /**
   * `calculatePaymentMethods`: the completed transactions grouped by payment
   * method, labelled, then sorted by amount, largest first.
   */
  method CalculatePaymentMethods(ts: seq<Transaction>) returns (r: seq<PaymentMethodSummary>)
    ensures r == PaymentMethodsOf(ts)
  {
    var completed := Filter(ts, IsCompleted);
    var g := TallyBy(completed, PaymentMethod);
    GroupByTotals(completed, PaymentMethod);
    var total := SumAmounts(g.keys, g.totals);
    r := SortDesc(PaymentEntries(g, total), MethodAmount);
  }

  /** The payment-method list is sorted by amount, and its amounts and counts add up to the completed totals. */
  lemma PaymentMethodsProperties(ts: seq<Transaction>)
    ensures SortedDesc(PaymentMethodsOf(ts), MethodAmount)
    ensures SumBy(PaymentMethodsOf(ts), MethodAmount) == SumBy(Filter(ts, IsCompleted), Amount)
    ensures SumBy(PaymentMethodsOf(ts), MethodCount) == |Filter(ts, IsCompleted)|
  {
    var completed := Filter(ts, IsCompleted);
    var g := GroupBy(completed, PaymentMethod);
    GroupByTotals(completed, PaymentMethod);
    var e := PaymentEntriesOf(ts);
    SortDescSorted(e, MethodAmount);
    EntriesSum(e, g.keys, g.totals, MethodAmount, MethodCount);
    SumByPermutation(PaymentMethodsOf(ts), e, MethodAmount);
    SumByPermutation(PaymentMethodsOf(ts), e, MethodCount);
  }

  const IncomeCategories: seq<string> := ["Penjualan Produk", "Jasa", "Investasi", "Lainnya"]
  const ExpenseCategories: seq<string> := ["Pembelian Stok", "Gaji Karyawan", "Sewa", "Utilitas", "Marketing", "Transport", "Lainnya"]

  /** `getCategories`: the names for one type, or both lists one after the other. */
  function GetCategories(kind: Option<TxType>): (r: seq<string>)
    ensures kind == Some(Income) ==> r == IncomeCategories
    ensures kind == Some(Expense) ==> r == ExpenseCategories
    ensures kind.None? ==> r == IncomeCategories + ExpenseCategories
  {
    match kind
    case Some(Income) => IncomeCategories
    case Some(Expense) => ExpenseCategories
    case None => IncomeCategories + ExpenseCategories
  }

  /** Four income categories, seven expense ones, and eleven together, in which "Lainnya" appears twice. */
  lemma CategoryCounts()
    ensures |GetCategories(Some(Income))| == 4 && |GetCategories(Some(Expense))| == 7
    ensures |GetCategories(None)| == 11
    ensures GetCategories(None)[3] == "Lainnya" && GetCategories(None)[10] == "Lainnya"
    ensures forall i :: 0 <= i < 11 && i != 3 && i != 10 ==> GetCategories(None)[i] != "Lainnya"
  {
  }

  /** `t` is in `ts`, and no transaction before it has that id. */
  predicate FirstWithId(ts: seq<Transaction>, id: string, t: Transaction) {
    exists i :: 0 <= i < |ts| && ts[i] == t && (forall j :: 0 <= j < i ==> ts[j].id != id)
  }

  /** `transactions.find(t => t.id === id)`: the first match. */
  function FindById(ts: seq<Transaction>, id: string): (r: Option<Transaction>)
    ensures r.None? <==> forall i :: 0 <= i < |ts| ==> ts[i].id != id
    ensures r.Some? ==> r.value.id == id && FirstWithId(ts, id, r.value)
  {
    if ts == [] then None
    else if ts[0].id == id then Some(ts[0])
    else
      var r := FindById(ts[1..], id);
      if r.Some? then
        var i :| 0 <= i < |ts[1..]| && ts[1..][i] == r.value && (forall j :: 0 <= j < i ==> ts[1..][j].id != id);
        assert ts[i + 1] == r.value && forall j :: 0 <= j < i + 1 ==> ts[j].id != id;
        r
      else r
  }

  /** `getTransactionDetail`: the newest transaction with that id, or nothing. */
  function GetTransactionDetail(store: seq<Transaction>, id: string): (r: Option<Transaction>)
    ensures r.None? <==> forall i :: 0 <= i < |store| ==> store[i].id != id
    ensures r.Some? ==> r.value in store && r.value.id == id
    ensures r.Some? ==> FirstWithId(GenerateTransactions(store), id, r.value)
  {
    var sorted := GenerateTransactions(store);
    PermutationSameElements(sorted, store);
    FindById(sorted, id)
  }

  const NotFoundMessage: string := "Transaction not found"

  /** `updateTransaction`: the found transaction with the updates spread over it; nothing is stored. */
  function UpdateTransaction(store: seq<Transaction>, id: string, updates: TransactionPatch): (r: Result<Transaction, string>)
    ensures r.Err? <==> forall i :: 0 <= i < |store| ==> store[i].id != id
    ensures r.Err? ==> r.error == NotFoundMessage
    ensures r.Ok? ==> exists t :: t in store && t.id == id && r.value == Merge(t, updates)
    ensures r.Ok? ==> exists t :: FirstWithId(GenerateTransactions(store), id, t) && t.id == id && r.value == Merge(t, updates)
  {
    match GetTransactionDetail(store, id)
    case None => Err(NotFoundMessage)
    case Some(t) => Ok(Merge(t, updates))
  }

  /** `FinancialReport` without the period and the monthly data. */
  datatype Report = Report(
    summary: Summary, transactions: seq<Transaction>,
    categoryBreakdown: seq<CategorySummary>, paymentMethods: seq<PaymentMethodSummary>)

  /**
   * `getFinancialReport`: everything but the monthly chart is computed from
   * the filtered transactions.
   */
  method GetFinancialReport(store: seq<Transaction>, f: Filters) returns (rep: Report)
    ensures rep.transactions == Filter(GenerateTransactions(store), t => Keep(f, t))
    ensures IsSubsequence(rep.transactions, GenerateTransactions(store))
    ensures rep.summary == CalculateSummary(rep.transactions)
    ensures rep.categoryBreakdown == CategoryBreakdownOf(rep.transactions)
    ensures rep.paymentMethods == PaymentMethodsOf(rep.transactions)
  {
    var transactions := GenerateTransactions(store);
    var filtered := FilterTransactions(transactions, f);
    var categories := CalculateCategoryBreakdown(filtered);
    var methods := CalculatePaymentMethods(filtered);
    rep := Report(CalculateSummary(filtered), filtered, categories, methods);
  }
}


/**
 * The financial `Transaction` record shared by the report service and its
 * simulation, the `{...record, ...patch}` merge, and the grouping both
 * services do through a `Map` keyed by category or payment method.
 */
module Ledger {
  import opened Wrappers
  import opened Collections

  datatype TxType = Income | Expense
  datatype TxStatus = Completed | Pending | Cancelled

  /** A transaction; `date` is in milliseconds since the epoch. */
  datatype Transaction = Transaction(
    id: string, date: int, kind: TxType, category: string, description: string,
    amount: int, paymentMethod: string, status: TxStatus, createdBy: string)

  /** A `Partial<Transaction>`: `None` is a field the object does not have. */
  datatype TransactionPatch = TransactionPatch(
    id: Option<string>, date: Option<int>, kind: Option<TxType>, category: Option<string>,
    description: Option<string>, amount: Option<int>, paymentMethod: Option<string>,
    status: Option<TxStatus>, createdBy: Option<string>)

  const EmptyPatch: TransactionPatch := TransactionPatch(None, None, None, None, None, None, None, None, None)

  /** `{...t, ...p}`: every field the patch has wins. */
  function Merge(t: Transaction, p: TransactionPatch): (r: Transaction) {
    Transaction(
      p.id.GetOr(t.id), p.date.GetOr(t.date), p.kind.GetOr(t.kind), p.category.GetOr(t.category),
      p.description.GetOr(t.description), p.amount.GetOr(t.amount), p.paymentMethod.GetOr(t.paymentMethod),
      p.status.GetOr(t.status), p.createdBy.GetOr(t.createdBy))
  }

  /** A field the patch has is taken from it; a field it lacks keeps the record's value. */
  lemma MergeFields(t: Transaction, p: TransactionPatch)
    ensures var r := Merge(t, p);
      (p.id.Some? ==> r.id == p.id.value) && (p.id.None? ==> r.id == t.id)
      && (p.date.Some? ==> r.date == p.date.value) && (p.date.None? ==> r.date == t.date)
      && (p.kind.Some? ==> r.kind == p.kind.value) && (p.kind.None? ==> r.kind == t.kind)
      && (p.category.Some? ==> r.category == p.category.value) && (p.category.None? ==> r.category == t.category)
      && (p.description.Some? ==> r.description == p.description.value)
      && (p.description.None? ==> r.description == t.description)
      && (p.amount.Some? ==> r.amount == p.amount.value) && (p.amount.None? ==> r.amount == t.amount)
      && (p.paymentMethod.Some? ==> r.paymentMethod == p.paymentMethod.value)
      && (p.paymentMethod.None? ==> r.paymentMethod == t.paymentMethod)
      && (p.status.Some? ==> r.status == p.status.value) && (p.status.None? ==> r.status == t.status)
      && (p.createdBy.Some? ==> r.createdBy == p.createdBy.value) && (p.createdBy.None? ==> r.createdBy == t.createdBy)
      && (p == EmptyPatch ==> r == t)
  {
  }

  /** Merging the same patch twice changes nothing more. */
  lemma MergeIdempotent(t: Transaction, p: TransactionPatch)
    ensures Merge(Merge(t, p), p) == Merge(t, p)
  {
  }

  predicate IsCompleted(t: Transaction) {
    t.status == Completed
  }

  function Amount(t: Transaction): int {
    t.amount
  }

  /** What one `Map` entry accumulates: income and expense amounts, and how many transactions. */
  datatype Tally = Tally(income: int, expense: int, count: nat)

  const NoTally: Tally := Tally(0, 0, 0)

  function Add(c: Tally, t: Transaction): Tally {
    if t.kind == Income then Tally(c.income + t.amount, c.expense, c.count + 1)
    else Tally(c.income, c.expense + t.amount, c.count + 1)
  }

  /** A `Map<string, Tally>`: `keys` is its insertion order. */
  datatype Groups = Groups(keys: seq<string>, totals: map<string, Tally>)

  const NoGroups: Groups := Groups([], map[])

  predicate Distinct(keys: seq<string>) {
    forall i, j :: 0 <= i < j < |keys| ==> keys[i] != keys[j]
  }

  predicate WellFormed(g: Groups) {
    Distinct(g.keys) && (forall k :: k in g.totals ==> k in g.keys) && (forall k :: k in g.keys ==> k in g.totals)
  }

  /** `map.set(k, add(map.get(k) || zero, t))`: a new key goes to the end of the insertion order. */
  function AddTo(g: Groups, k: string, t: Transaction): Groups {
    var current := if k in g.totals then g.totals[k] else NoTally;
    Groups(if k in g.totals then g.keys else g.keys + [k], g.totals[k := Add(current, t)])
  }

  /** The `Map` left by a `forEach` over `ts` that adds each transaction under `key(t)`. */
  function GroupBy(ts: seq<Transaction>, key: Transaction -> string): Groups {
    if ts == [] then NoGroups
    else AddTo(GroupBy(ts[..|ts| - 1], key), key(ts[|ts| - 1]), ts[|ts| - 1])
  }

  /** `income + expense` summed over the entries, in key order. */
  function SumAmounts(keys: seq<string>, totals: map<string, Tally>): int
    requires forall k :: k in keys ==> k in totals
  {
    if keys == [] then 0 else totals[keys[0]].income + totals[keys[0]].expense + SumAmounts(keys[1..], totals)
  }

  /** The counts summed over the entries, in key order. */
  function SumCounts(keys: seq<string>, totals: map<string, Tally>): int
    requires forall k :: k in keys ==> k in totals
  {
    if keys == [] then 0 else totals[keys[0]].count + SumCounts(keys[1..], totals)
  }

  /** Changing the entry of one listed key changes the sums by exactly that entry's difference. */
  lemma {:induction false} SumsAfterUpdate(keys: seq<string>, totals: map<string, Tally>, k: string, v: Tally)
    requires forall x :: x in keys ==> x in totals
    requires Distinct(keys)
    ensures k in keys ==>
      SumAmounts(keys, totals[k := v]) == SumAmounts(keys, totals) - totals[k].income - totals[k].expense + v.income + v.expense
      && SumCounts(keys, totals[k := v]) == SumCounts(keys, totals) - totals[k].count + v.count
    ensures k !in keys ==>
      SumAmounts(keys, totals[k := v]) == SumAmounts(keys, totals) && SumCounts(keys, totals[k := v]) == SumCounts(keys, totals)
  {
    if keys != [] {
      assert Distinct(keys[1..]);
      SumsAfterUpdate(keys[1..], totals, k, v);
      assert keys[0] == k ==> k !in keys[1..];
    }
  }

  /** Appending a key adds its entry to the sums. */
  lemma {:induction false} SumsAfterAppend(keys: seq<string>, totals: map<string, Tally>, k: string)
    requires forall x :: x in keys + [k] ==> x in totals
    ensures SumAmounts(keys + [k], totals) == SumAmounts(keys, totals) + totals[k].income + totals[k].expense
    ensures SumCounts(keys + [k], totals) == SumCounts(keys, totals) + totals[k].count
  {
    if keys == [] {
      assert keys + [k] == [k];
      assert [k][1..] == [];
    } else {
      assert (keys + [k])[1..] == keys[1..] + [k];
      SumsAfterAppend(keys[1..], totals, k);
    }
  }

  lemma {:induction false} AddToInvariant(g: Groups, k: string, t: Transaction)
    requires WellFormed(g)
    ensures WellFormed(AddTo(g, k, t))
    ensures AddTo(g, k, t).keys == (if k in g.keys then g.keys else g.keys + [k])
    ensures SumAmounts(AddTo(g, k, t).keys, AddTo(g, k, t).totals) == SumAmounts(g.keys, g.totals) + t.amount
    ensures SumCounts(AddTo(g, k, t).keys, AddTo(g, k, t).totals) == SumCounts(g.keys, g.totals) + 1
  {
    var h := AddTo(g, k, t);
    if k in g.totals {
      SumsAfterUpdate(g.keys, g.totals, k, h.totals[k]);
    } else {
      SumsAfterUpdate(g.keys, g.totals, k, h.totals[k]);
      SumsAfterAppend(g.keys, h.totals, k);
    }
  }

  /**
   * The grouping is a well-formed map whose amounts add up to the sum of
   * all the amounts, and whose counts add up to the number of transactions.
   */
  lemma {:induction false} GroupByTotals(ts: seq<Transaction>, key: Transaction -> string)
    ensures WellFormed(GroupBy(ts, key))
    ensures SumAmounts(GroupBy(ts, key).keys, GroupBy(ts, key).totals) == SumBy(ts, Amount)
    ensures SumCounts(GroupBy(ts, key).keys, GroupBy(ts, key).totals) == |ts|
    decreases |ts|
  {
    if ts != [] {
      var n := |ts| - 1;
      var g := GroupBy(ts[..n], key);
      GroupByTotals(ts[..n], key);
      AddToInvariant(g, key(ts[n]), ts[n]);
      assert GroupBy(ts, key) == AddTo(g, key(ts[n]), ts[n]);
      SumByLast(ts, Amount);
    }
  }

  /** The grouping has an entry for exactly the keys of the transactions. */
  lemma {:induction false} GroupByKeys(ts: seq<Transaction>, key: Transaction -> string, k: string)
    ensures k in GroupBy(ts, key).keys <==> exists i :: 0 <= i < |ts| && key(ts[i]) == k
  {
    if k in GroupBy(ts, key).keys {
      var i := KeyOrigin(ts, key, k);
    }
    if exists i :: 0 <= i < |ts| && key(ts[i]) == k {
      var i :| 0 <= i < |ts| && key(ts[i]) == k;
      KeyPresent(ts, key, i);
    }
  }

  /** Each key of the grouping is the key of some transaction. */
  lemma {:induction false} KeyOrigin(ts: seq<Transaction>, key: Transaction -> string, k: string) returns (i: nat)
    requires k in GroupBy(ts, key).keys
    ensures i < |ts| && key(ts[i]) == k
    decreases |ts|
  {
    var n := |ts| - 1;
    var g := GroupBy(ts[..n], key);
    if k in g.keys {
      i := KeyOrigin(ts[..n], key, k);
      assert ts[..n][i] == ts[i];
    } else {
      i := n;
    }
  }

  /** The key of every transaction is a key of the grouping. */
  lemma {:induction false} KeyPresent(ts: seq<Transaction>, key: Transaction -> string, i: nat)
    requires i < |ts|
    ensures key(ts[i]) in GroupBy(ts, key).keys
    decreases |ts|
  {
    var n := |ts| - 1;
    var g := GroupBy(ts[..n], key);
    GroupByTotals(ts[..n], key);
    AddToKeys(g, key(ts[n]), ts[n]);
    assert GroupBy(ts, key) == AddTo(g, key(ts[n]), ts[n]);
    if i < n {
      KeyPresent(ts[..n], key, i);
      assert ts[..n][i] == ts[i];
    }
  }

  /** Adding under a key keeps every earlier key and lists the new one. */
  lemma AddToKeys(g: Groups, k: string, t: Transaction)
    requires WellFormed(g)
    ensures k in AddTo(g, k, t).keys
    ensures forall x :: x in g.keys ==> x in AddTo(g, k, t).keys
  {
  }

  /** The tally of the transactions whose key is `k`, on its own. */
  function KeyTally(ts: seq<Transaction>, key: Transaction -> string, k: string): Tally {
    if ts == [] then NoTally
    else if key(ts[|ts| - 1]) == k then Add(KeyTally(ts[..|ts| - 1], key, k), ts[|ts| - 1])
    else KeyTally(ts[..|ts| - 1], key, k)
  }

  /** Each entry of the grouping is the tally of exactly the transactions with its key. */
  lemma {:induction false} GroupByEntry(ts: seq<Transaction>, key: Transaction -> string, k: string)
    requires k in GroupBy(ts, key).totals
    ensures GroupBy(ts, key).totals[k] == KeyTally(ts, key, k)
    decreases |ts|
  {
    var n := |ts| - 1;
    var init := ts[..n];
    if k in GroupBy(init, key).totals {
      GroupByEntry(init, key, k);
    } else {
      KeyTallyAbsent(init, key, k);
    }
  }

  /** A key the grouping has no entry for has the empty tally. */
  lemma {:induction false} KeyTallyAbsent(ts: seq<Transaction>, key: Transaction -> string, k: string)
    requires k !in GroupBy(ts, key).totals
    ensures KeyTally(ts, key, k) == NoTally
    decreases |ts|
  {
    if ts != [] {
      KeyTallyAbsent(ts[..|ts| - 1], key, k);
    }
  }
}

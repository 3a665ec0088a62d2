/**
 * The stateful side of `TransactionCategorizer`: the per-category buckets in
 * `self.categories`, filled by `categorize_transactions` one row at a time,
 * and the per-bucket counts of `get_category_summary`.
 */
module Store {
  import opened Text
  import opened Wrappers
  import opened Classify

  /** One entry of the dictionary `categorize_transactions` returns: a key and its records. */
  datatype Bucket = Bucket(name: string, records: seq<Classified>)

  /** The counting columns of one row of `get_category_summary`. */
  datatype SummaryRow = SummaryRow(category: string, transactionCount: nat, uniqueEntities: nat)

  // ---------------------------------------------------------------------
  // Buckets as functions of the records
  // ---------------------------------------------------------------------

  /** The records of `ts` filed under the key `name`, in the order they come. */
  function Filter(ts: seq<Classified>, name: string): (r: seq<Classified>)
    ensures |r| <= |ts|
    decreases |ts|
  {
    if ts == [] then []
    else (if ts[0].category == name then [ts[0]] else []) + Filter(ts[1..], name)
  }

  /** A bucket holds exactly the records of its key. */
  lemma {:induction false} FilterMembers(ts: seq<Classified>, name: string, t: Classified)
    ensures t in Filter(ts, name) <==> t in ts && t.category == name
    decreases |ts|
  {
    if ts != [] {
      FilterMembers(ts[1..], name, t);
      assert ts == [ts[0]] + ts[1..];
    }
  }

  lemma {:induction false} FilterAppend(ts: seq<Classified>, us: seq<Classified>, name: string)
    ensures Filter(ts + us, name) == Filter(ts, name) + Filter(us, name)
    decreases |ts|
  {
    if ts == [] {
      assert ts + us == us;
    } else {
      var head := if ts[0].category == name then [ts[0]] else [];
      assert (ts + us)[0] == ts[0];
      assert (ts + us)[1..] == ts[1..] + us;
      assert Filter(ts + us, name) == head + Filter(ts[1..] + us, name);
      FilterAppend(ts[1..], us, name);
    }
  }

  /** The buckets `m` after each record of `ts` is appended under its category's key, if present. */
  function Appended(m: map<string, seq<Classified>>, ts: seq<Classified>): map<string, seq<Classified>> {
    map name | name in m :: m[name] + Filter(ts, name)
  }

  lemma AppendedNothing(m: map<string, seq<Classified>>)
    ensures Appended(m, []) == m
  {
    forall name | name in m
      ensures Appended(m, [])[name] == m[name]
    {
      assert Filter([], name) == [];
    }
  }

  /** Appending one more record extends exactly the bucket its category names. */
  lemma AppendedStep(m: map<string, seq<Classified>>, ts: seq<Classified>, t: Classified)
    ensures var before := Appended(m, ts);
      var name := t.category;
      Appended(m, ts + [t]) == if name in m then before[name := before[name] + [t]] else before
  {
    var before, after := Appended(m, ts), Appended(m, ts + [t]);
    var expected := if t.category in m then before[t.category := before[t.category] + [t]] else before;
    forall name | name in m
      ensures after[name] == expected[name]
    {
      FilterAppend(ts, [t], name);
      assert [t][1..] == [];
      assert Filter([t], name) == if t.category == name then [t] else [];
    }
    assert after.Keys == expected.Keys;
  }

  /** Filing the next record of `ts` extends the buckets filed so far by that record. */
  lemma AppendedNext(m: map<string, seq<Classified>>, ts: seq<Classified>, i: nat)
    requires i < |ts|
    ensures var before := Appended(m, ts[..i]);
      var t := ts[i];
      Appended(m, ts[..i + 1]) == if t.category in m then before[t.category := before[t.category] + [t]] else before
  {
    assert ts[..i + 1] == ts[..i] + [ts[i]];
    AppendedStep(m, ts[..i], ts[i]);
  }

  /** `categorize_transaction` applied to each row. */
  function Classifications(rows: seq<Row>): seq<Result<Classified>> {
    seq(|rows|, i requires 0 <= i < |rows| => CategorizeTransaction(rows[i]))
  }

  /** The records of the results before the first failure. */
  function Leading(results: seq<Result<Classified>>): (ts: seq<Classified>)
    ensures |ts| <= |results|
    decreases |results|
  {
    if results == [] || results[0].IndexError? then []
    else [results[0].value] + Leading(results[1..])
  }

  /**
   * The records of the rows before the first row whose classification
   * fails: what a pass over `rows` files before it stops.
   */
  function LeadingRecords(rows: seq<Row>): seq<Classified> {
    Leading(Classifications(rows))
  }

  /** The leading records are the results' records, up to the first failure. */
  lemma {:induction false} LeadingAt(results: seq<Result<Classified>>, i: nat)
    requires i < |results| && i <= |Leading(results)|
    ensures i < |Leading(results)| ==> results[i] == Ok(Leading(results)[i])
    ensures i == |Leading(results)| ==> results[i].IndexError?
    decreases i
  {
    if i > 0 {
      assert results[1..][i - 1] == results[i];
      LeadingAt(results[1..], i - 1);
    }
  }

  /** Every leading record is the record of some result. */
  lemma {:induction false} LeadingFrom(results: seq<Result<Classified>>, t: Classified) returns (i: nat)
    requires t in Leading(results)
    ensures i < |results| && results[i] == Ok(t)
    decreases |results|
  {
    if t == results[0].value {
      i := 0;
    } else {
      var j := LeadingFrom(results[1..], t);
      i := j + 1;
    }
  }

  // ---------------------------------------------------------------------
  // The categorizer
  // ---------------------------------------------------------------------

  class TransactionCategorizer {
    /** `self.categories`: the records filed so far under each key. */
    var categories: map<string, seq<Classified>>
    /** The keys of `categories` in insertion order, the order a dict iterates them in. */
    var order: seq<string>

    /** Every key is listed once in `order`, and the nineteen declared keys are never lost. */
    ghost predicate Valid()
      reads this
    {
      && (forall name :: name in categories <==> name in order)
      && (forall i, j :: 0 <= i < j < |order| ==> order[i] != order[j])
      && (forall name :: name in CategoryNames ==> name in categories)
    }

    /** The nineteen declared keys, in declaration order, each with an empty bucket. */
    constructor ()
      ensures Valid()
      ensures order == CategoryNames
      ensures forall name :: name in categories <==> name in CategoryNames
      ensures forall name :: name in categories ==> categories[name] == []
    {
      NamesDistinct();
      order := CategoryNames;
      categories := map name | name in CategoryNames :: [];
    }

    /**
     * `add_category`: a new key gets an empty bucket at the end of the
     * order; a known key changes nothing, so a second call is a no-op.
     */
    method AddCategory(name: string)
      requires Valid()
      modifies this
      ensures Valid()
      ensures name in categories
      ensures forall n :: n in old(categories) ==> n in categories && categories[n] == old(categories)[n]
      ensures old(name in categories) ==> categories == old(categories) && order == old(order)
      ensures old(name !in categories) ==>
        categories == old(categories)[name := []] && order == old(order) + [name]
    {
      if name !in categories {
        categories := categories[name := []];
        order := order + [name];
      }
    }

    /**
     * `categorize_transactions`: each row's record is appended to the bucket
     * of its category, in row order; then every bucket is returned, in key
     * order, empty ones included. A row whose classification fails stops the
     * pass with the error, and the records of the rows before it stay filed.
     */
    method CategorizeTransactions(rows: seq<Row>) returns (r: Result<seq<Bucket>>)
      requires Valid()
      modifies this
      ensures Valid() && order == old(order)
      ensures categories == Appended(old(categories), LeadingRecords(rows))
      ensures r.IndexError? <==> |LeadingRecords(rows)| < |rows|
      ensures r.Ok? ==> |r.value| == |order|
      ensures r.Ok? ==> forall i :: 0 <= i < |order| ==> r.value[i] == Bucket(order[i], categories[order[i]])
    {
      ghost var start := categories;
      ghost var ts := LeadingRecords(rows);
      ghost var results := Classifications(rows);
      AppendedNothing(start);
      assert ts[..0] == [];
      var i := 0;
      while i < |rows|
        invariant i <= |ts|
        invariant Valid() && order == old(order)
        invariant categories == Appended(start, ts[..i])
      {
        var res := CategorizeTransaction(rows[i]);
        assert res == results[i];
        LeadingAt(results, i);
        if res.IndexError? {
          assert ts[..i] == ts;
          return IndexError;
        }
        var t := res.value;
        AppendedNext(start, ts, i);
        File(t);
        i := i + 1;
      }
      assert ts[..i] == ts;
      var buckets := Buckets();
      return Ok(buckets);
    }

    /** The `if category in self.categories` append of one record. */
    method File(t: Classified)
      requires Valid()
      modifies this
      ensures Valid() && order == old(order)
      ensures var name := t.category;
        categories == if name in old(categories) then old(categories)[name := old(categories)[name] + [t]]
                      else old(categories)
    {
      var name := t.category;
      if name in categories {
        categories := categories[name := categories[name] + [t]];
      }
    }

    /** The loop that builds `categorized_dfs`: every bucket, in key order. */
    method Buckets() returns (out: seq<Bucket>)
      requires Valid()
      ensures |out| == |order|
      ensures forall i :: 0 <= i < |order| ==> out[i] == Bucket(order[i], categories[order[i]])
    {
      out := [];
      var n := 0;
      while n < |order|
        invariant n <= |order| && |out| == n
        invariant forall j :: 0 <= j < n ==> out[j] == Bucket(order[j], categories[order[j]])
      {
        out := out + [Bucket(order[n], categories[order[n]])];
        n := n + 1;
      }
    }

    /**
     * The counting columns of `get_category_summary`: one row per non-empty
     * bucket, in the order given, with the distinct receipt numbers and the
     * distinct counterparties of its records.
     */
    method GetCategorySummary(data: seq<Bucket>) returns (summary: seq<SummaryRow>)
      ensures summary == Summary(data)
    {
      summary := [];
      var i := 0;
      while i < |data|
        invariant i <= |data|
        invariant summary == Summary(data[..i])
      {
        assert data[..i + 1][..i] == data[..i];
        if data[i].records != [] {
          summary := summary + [SummaryOf(data[i])];
        }
        i := i + 1;
      }
      assert data[..i] == data;
    }
  }

  /** `categorize_transactions_efficiently`: a fresh categorizer's pass over the rows. */
  method CategorizeTransactionsEfficiently(rows: seq<Row>) returns (r: Result<seq<Bucket>>)
    ensures r.IndexError? <==> |LeadingRecords(rows)| < |rows|
    ensures r.Ok? ==> |r.value| == |CategoryNames|
    ensures r.Ok? ==> forall i :: 0 <= i < |CategoryNames| ==>
      r.value[i] == Bucket(CategoryNames[i], Filter(LeadingRecords(rows), CategoryNames[i]))
  {
    var categorizer := new TransactionCategorizer();
    r := categorizer.CategorizeTransactions(rows);
  }

  /** `get_transaction_summary`: the summary, from a fresh categorizer. */
  method GetTransactionSummary(data: seq<Bucket>) returns (summary: seq<SummaryRow>)
    ensures summary == Summary(data)
  {
    var categorizer := new TransactionCategorizer();
    summary := categorizer.GetCategorySummary(data);
  }

  // ---------------------------------------------------------------------
  // Partition: every record lands in exactly one bucket
  // ---------------------------------------------------------------------

  /** The sizes of the buckets keyed by `names`, added up. */
  function TotalSize(ts: seq<Classified>, names: seq<string>): nat {
    if names == [] then 0 else |Filter(ts, names[0])| + TotalSize(ts, names[1..])
  }

  predicate Distinct(names: seq<string>) {
    forall i, j :: 0 <= i < j < |names| ==> names[i] != names[j]
  }

  lemma {:induction false} TotalSizeAppend(ts: seq<Classified>, us: seq<Classified>, names: seq<string>)
    ensures TotalSize(ts + us, names) == TotalSize(ts, names) + TotalSize(us, names)
    decreases |names|
  {
    if names != [] {
      FilterAppend(ts, us, names[0]);
      TotalSizeAppend(ts, us, names[1..]);
    }
  }

  /** One record is counted once if its key is among the distinct `names`, else not at all. */
  lemma {:induction false} TotalSizeSingle(t: Classified, names: seq<string>)
    requires Distinct(names)
    ensures TotalSize([t], names) == if t.category in names then 1 else 0
    decreases |names|
  {
    if names != [] {
      assert Filter([t], names[0]) == (if t.category == names[0] then [t] else []);
      assert Distinct(names[1..]);
      TotalSizeSingle(t, names[1..]);
      assert t.category in names <==> t.category == names[0] || t.category in names[1..];
      if t.category == names[0] {
        assert names[0] !in names[1..];
      }
    }
  }

  lemma {:induction false} TotalSizeEmpty(names: seq<string>)
    ensures TotalSize([], names) == 0
    decreases |names|
  {
    if names != [] {
      TotalSizeEmpty(names[1..]);
    }
  }

  lemma {:induction false} PartitionBy(ts: seq<Classified>, names: seq<string>)
    requires Distinct(names)
    requires forall t :: t in ts ==> t.category in names
    ensures TotalSize(ts, names) == |ts|
    decreases |ts|
  {
    if ts == [] {
      TotalSizeEmpty(names);
    } else {
      assert ts == [ts[0]] + ts[1..];
      TotalSizeAppend([ts[0]], ts[1..], names);
      TotalSizeSingle(ts[0], names);
      PartitionBy(ts[1..], names);
    }
  }

  /** Every leading record carries one of the nineteen declared keys. */
  lemma LeadingDeclared(rows: seq<Row>, t: Classified)
    requires t in LeadingRecords(rows)
    ensures t.category in CategoryNames
  {
    var i := LeadingFrom(Classifications(rows), t);
    Totality(rows[i]);
  }

  /**
   * Partition completeness: the nineteen declared buckets between them hold
   * every record of a pass exactly once.
   */
  lemma Partition(rows: seq<Row>)
    ensures TotalSize(LeadingRecords(rows), CategoryNames) == |LeadingRecords(rows)|
  {
    NamesDistinct();
    forall t | t in LeadingRecords(rows)
      ensures t.category in CategoryNames
    {
      LeadingDeclared(rows, t);
    }
    PartitionBy(LeadingRecords(rows), CategoryNames);
  }

  /** A classified row is filed under the key of category `c` exactly when `c` is its first match. */
  lemma OneBucket(row: Row, c: Category)
    requires CategorizeTransaction(row).Ok?
    ensures CategorizeTransaction(row).value.category == c.Name() <==> FirstMatch(KeyOf(row)) == c
  {
    NameInjective(FirstMatch(KeyOf(row)), c);
  }

  // ---------------------------------------------------------------------
  // The summary
  // ---------------------------------------------------------------------

  /** `df["receipt_no"].nunique()`: the distinct receipt numbers, a missing one not counted. */
  function Receipts(ts: seq<Classified>): set<string> {
    set t | t in ts && t.receiptNo.Present? :: t.receiptNo.text
  }

  /** `df["processed_entity"].nunique()` */
  function Entities(ts: seq<Classified>): set<Entity> {
    set t | t in ts :: t.processedEntity
  }

  function SummaryOf(b: Bucket): SummaryRow {
    SummaryRow(b.name, |Receipts(b.records)|, |Entities(b.records)|)
  }

  /** The buckets that hold at least one record, in the order given. */
  function NonEmpty(data: seq<Bucket>): (r: seq<Bucket>)
    ensures |r| <= |data|
    decreases |data|
  {
    if data == [] then []
    else
      var last := data[|data| - 1];
      NonEmpty(data[..|data| - 1]) + (if last.records != [] then [last] else [])
  }

  lemma {:induction false} NonEmptyMembers(data: seq<Bucket>, b: Bucket)
    ensures b in NonEmpty(data) <==> b in data && b.records != []
    decreases |data|
  {
    if data != [] {
      var init := data[..|data| - 1];
      NonEmptyMembers(init, b);
      assert data == init + [data[|data| - 1]];
    }
  }

  /** The rows of `get_category_summary`: one per non-empty bucket, in order. */
  function Summary(data: seq<Bucket>): seq<SummaryRow>
    decreases |data|
  {
    if data == [] then []
    else
      var last := data[|data| - 1];
      Summary(data[..|data| - 1]) + (if last.records != [] then [SummaryOf(last)] else [])
  }

  /** The summary has a row for each non-empty bucket and for nothing else, in the same order. */
  lemma {:induction false} SummaryRows(data: seq<Bucket>)
    ensures |Summary(data)| == |NonEmpty(data)|
    ensures forall i :: 0 <= i < |Summary(data)| ==> Summary(data)[i] == SummaryOf(NonEmpty(data)[i])
    decreases |data|
  {
    if data != [] {
      SummaryRows(data[..|data| - 1]);
    }
  }

  lemma {:induction false} SubsetCard<T>(a: set<T>, b: set<T>)
    requires a <= b
    ensures |a| <= |b|
    decreases |a|
  {
    if a != {} {
      var x :| x in a;
      SubsetCard(a - {x}, b - {x});
    }
  }

  lemma {:induction false} EntitiesBound(ts: seq<Classified>)
    ensures |Entities(ts)| <= |ts|
    ensures ts != [] ==> |Entities(ts)| >= 1
    decreases |ts|
  {
    if ts != [] {
      var rest := ts[1..];
      EntitiesBound(rest);
      forall e | e in Entities(ts)
        ensures e in Entities(rest) + {ts[0].processedEntity}
      {
        var t :| t in ts && t.processedEntity == e;
        if t != ts[0] {
          assert t in rest;
        }
      }
      SubsetCard(Entities(ts), Entities(rest) + {ts[0].processedEntity});
      assert ts[0].processedEntity in Entities(ts);
    }
  }

  lemma {:induction false} ReceiptsBound(ts: seq<Classified>)
    ensures |Receipts(ts)| <= |ts|
    decreases |ts|
  {
    if ts != [] {
      var rest := ts[1..];
      ReceiptsBound(rest);
      var head: set<string> := if ts[0].receiptNo.Present? then {ts[0].receiptNo.text} else {};
      forall r | r in Receipts(ts)
        ensures r in Receipts(rest) + head
      {
        var t :| t in ts && t.receiptNo.Present? && t.receiptNo.text == r;
        if t != ts[0] {
          assert t in rest;
        }
      }
      SubsetCard(Receipts(ts), Receipts(rest) + head);
    }
  }

  /** A summary row counts no more receipts or counterparties than its bucket has records, and at least one counterparty. */
  lemma SummaryCounts(b: Bucket)
    requires b.records != []
    ensures var row := SummaryOf(b);
      && row.category == b.name
      && row.transactionCount <= |b.records|
      && 1 <= row.uniqueEntities <= |b.records|
  {
    EntitiesBound(b.records);
    ReceiptsBound(b.records);
  }
}

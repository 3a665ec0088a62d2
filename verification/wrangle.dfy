/**
 * The parts of `load_wrangle.py` that produce the categorizer's inputs: the
 * header normalisation of the loaded table, the drop/rename/keep rule for
 * its columns, the whitespace collapse of the details text, and the two
 * splitters that turn the details into (type, entity) and the type into
 * (type_class, type_desc).
 */
module Wrangle {
  import opened Text
  import opened Wrappers
  import opened Scan
  import Classify

  // ---------------------------------------------------------------------
  // Headers
  // ---------------------------------------------------------------------

  /** `.str.replace(r"\s+", "", regex=True)`: every whitespace character removed. */
  function RemoveWhitespace(s: string): (r: string)
    ensures forall i :: 0 <= i < |r| ==> !IsSpace(r[i])
    decreases |s|
  {
    if s == [] then []
    else (if IsSpace(s[0]) then [] else [s[0]]) + RemoveWhitespace(s[1..])
  }

  /** Removing whitespace works piece by piece, so what is left keeps its order. */
  lemma {:induction false} RemoveWhitespaceAppend(a: string, b: string)
    ensures RemoveWhitespace(a + b) == RemoveWhitespace(a) + RemoveWhitespace(b)
    decreases |a|
  {
    if a == [] {
      assert a + b == b;
    } else {
      assert (a + b)[0] == a[0];
      assert (a + b)[1..] == a[1..] + b;
      RemoveWhitespaceAppend(a[1..], b);
    }
  }

  /** Every character that is not whitespace survives, as often as it occurs. */
  lemma {:induction false} RemoveWhitespaceCount(s: string, c: char)
    requires !IsSpace(c)
    ensures multiset(RemoveWhitespace(s))[c] == multiset(s)[c]
    decreases |s|
  {
    if s != [] {
      assert s == [s[0]] + s[1..];
      RemoveWhitespaceCount(s[1..], c);
    }
  }

  /** Leading whitespace makes no difference once whitespace is removed. */
  lemma {:induction false} RemoveWhitespaceTrimStart(s: string)
    ensures RemoveWhitespace(TrimStart(s)) == RemoveWhitespace(s)
    decreases |s|
  {
    if s != [] && IsSpace(s[0]) {
      RemoveWhitespaceTrimStart(s[1..]);
    }
  }

  lemma {:induction false} RemoveWhitespaceKeeps(s: string, c: char)
    requires c in RemoveWhitespace(s)
    ensures c in s
    decreases |s|
  {
    if c != s[0] {
      RemoveWhitespaceKeeps(s[1..], c);
    }
  }

  lemma {:induction false} RemoveWhitespaceOfClean(s: string)
    requires forall i :: 0 <= i < |s| ==> !IsSpace(s[i])
    ensures RemoveWhitespace(s) == s
    decreases |s|
  {
    if s != [] {
      RemoveWhitespaceOfClean(s[1..]);
      assert s == [s[0]] + s[1..];
    }
  }

  /** `.str.strip().str.lower().str.replace(r"\s+", "", regex=True)` on one header. */
  function NormaliseHeader(h: string): string {
    RemoveWhitespace(Lower(Strip(h)))
  }

  lemma LowerOfLower(s: string)
    requires forall i :: 0 <= i < |s| ==> !IsUpper(s[i])
    ensures Lower(s) == s
  {
  }

  /** A normalised header is lower case and holds no whitespace. */
  lemma HeaderShape(h: string)
    ensures forall i :: 0 <= i < |NormaliseHeader(h)| ==> !IsSpace(NormaliseHeader(h)[i])
    ensures forall i :: 0 <= i < |NormaliseHeader(h)| ==> !IsUpper(NormaliseHeader(h)[i])
  {
    var lowered := Lower(Strip(h));
    var r := RemoveWhitespace(lowered);
    LowerIsLower(Strip(h));
    forall i | 0 <= i < |r|
      ensures !IsUpper(r[i])
    {
      RemoveWhitespaceKeeps(lowered, r[i]);
      var j :| 0 <= j < |lowered| && lowered[j] == r[i];
    }
  }

  /** Normalising a header twice gives what normalising it once gives. */
  lemma HeaderIdempotent(h: string)
    ensures NormaliseHeader(NormaliseHeader(h)) == NormaliseHeader(h)
  {
    var r := NormaliseHeader(h);
    HeaderShape(h);
    StripOfTrimmed(r);
    assert Strip(r) == r;
    LowerOfLower(r);
    assert Lower(Strip(r)) == r;
    RemoveWhitespaceOfClean(r);
  }

  // ---------------------------------------------------------------------
  // Columns: drop, rename, keep
  // ---------------------------------------------------------------------

  /** The headers `clean_data` expects; any other column is dropped. */
  const Expected: seq<string> := [
    "receiptno.", "receiptno", "completiontime", "details", "transactionstatus",
    "paidin", "withdrawn", "withdraw"
  ]

  /** The standard columns `clean_data` keeps, in the order it keeps them. */
  const KeepCols: seq<string> := ["receipt_no", "date_time", "details", "paid_in", "withdrawn"]

  /** A column of the table: its header and where it sits in the loaded table. */
  datatype Column = Column(header: string, position: nat)

  /**
   * The body of the renaming loop: the standard name of a header, by the
   * first test it passes, in the order the tests are written.
   */
  function StandardName(col: string): (r: Option<string>)
    ensures r.Some? ==> r.value in KeepCols
  {
    var lc := Lower(col);
    if Contains(lc, "receipt") || Contains(lc, "ref") then Some("receipt_no")
    else if Contains(lc, "completion") || Contains(lc, "time") then Some("date_time")
    else if Contains(lc, "detail") || Contains(lc, "details") then Some("details")
    else if Contains(lc, "paid") && Contains(lc, "in") then Some("paid_in")
    else if Contains(lc, "withdrawn") || Contains(lc, "withdr") then Some("withdrawn")
    else None
  }

  /** `df.rename(columns=mapping)` on one header. */
  function Rename(header: string): string {
    match StandardName(header)
    case Some(name) => name
    case None => header
  }

  /** The columns whose header is expected, in table order. */
  function Survivors(columns: seq<string>): seq<Column>
    decreases |columns|
  {
    if columns == [] then []
    else
      var n := |columns| - 1;
      Survivors(columns[..n]) + (if columns[n] in Expected then [Column(columns[n], n)] else [])
  }

  function Renamed(cs: seq<Column>): seq<Column> {
    seq(|cs|, j requires 0 <= j < |cs| => Column(Rename(cs[j].header), cs[j].position))
  }

  function Headers(cs: seq<Column>): seq<string> {
    seq(|cs|, j requires 0 <= j < |cs| => cs[j].header)
  }

  /** `df[k]`: every column labelled `k`, in table order. */
  function Labelled(cs: seq<Column>, k: string): seq<Column>
    decreases |cs|
  {
    if cs == [] then []
    else
      var n := |cs| - 1;
      Labelled(cs[..n], k) + (if cs[n].header == k then [cs[n]] else [])
  }

  /** `df[[k for k in keep if k in df.columns]]` */
  function Selected(cs: seq<Column>, keep: seq<string>): seq<Column>
    decreases |keep|
  {
    if keep == [] then []
    else
      var n := |keep| - 1;
      Selected(cs, keep[..n]) + Labelled(cs, keep[n])
  }

  /** The columns `clean_data` ends its first three steps with. */
  function Cleaned(columns: seq<string>): seq<Column> {
    Selected(Renamed(Survivors(columns)), KeepCols)
  }

  /**
   * Steps 1 to 3 of `clean_data`: drop the unexpected columns, build the
   * rename mapping header by header, rename, and keep the standard columns
   * in their fixed order.
   */
  method CleanColumns(columns: seq<string>) returns (kept: seq<Column>)
    ensures kept == Cleaned(columns)
  {
    var cs := DropUnexpected(columns);
    var mapping := BuildMapping(cs);
    var renamed := ApplyMapping(cs, mapping);
    MappingRenames(cs, mapping);
    kept := KeepStandard(renamed);
  }

  /** Step 1: drop every column whose header is not expected. */
  method DropUnexpected(columns: seq<string>) returns (cs: seq<Column>)
    ensures cs == Survivors(columns)
  {
    cs := [];
    var i := 0;
    while i < |columns|
      invariant i <= |columns|
      invariant cs == Survivors(columns[..i])
    {
      assert columns[..i + 1][..i] == columns[..i];
      if columns[i] in Expected {
        cs := cs + [Column(columns[i], i)];
      }
      i := i + 1;
    }
    assert columns[..i] == columns;
  }

  /** Step 2: map each header that some test renames to its standard name. */
  method BuildMapping(cs: seq<Column>) returns (mapping: map<string, string>)
    ensures forall h :: h in mapping ==> StandardName(h) == Some(mapping[h])
    ensures forall q :: 0 <= q < |cs| && StandardName(cs[q].header).Some? ==> cs[q].header in mapping
    ensures forall h :: h in mapping ==> exists q :: 0 <= q < |cs| && cs[q].header == h
  {
    mapping := map[];
    var j := 0;
    while j < |cs|
      invariant j <= |cs|
      invariant forall h :: h in mapping ==> StandardName(h) == Some(mapping[h])
      invariant forall q :: 0 <= q < j && StandardName(cs[q].header).Some? ==> cs[q].header in mapping
      invariant forall h :: h in mapping ==> exists q :: 0 <= q < j && cs[q].header == h
    {
      var name := StandardName(cs[j].header);
      if name.Some? {
        mapping := mapping[cs[j].header := name.value];
      }
      j := j + 1;
    }
  }

  /** `rename(columns=mapping)` on one header: a header the mapping lacks is left as it is. */
  function MappedName(mapping: map<string, string>, header: string): string {
    if header in mapping then mapping[header] else header
  }

  function RenamedBy(cs: seq<Column>, mapping: map<string, string>): seq<Column> {
    seq(|cs|, j requires 0 <= j < |cs| => Column(MappedName(mapping, cs[j].header), cs[j].position))
  }

  /** Step 3: rename the headers the mapping holds, keep the others. */
  method ApplyMapping(cs: seq<Column>, mapping: map<string, string>) returns (renamed: seq<Column>)
    ensures renamed == RenamedBy(cs, mapping)
  {
    renamed := [];
    var j := 0;
    while j < |cs|
      invariant j <= |cs| && |renamed| == j
      invariant forall q :: 0 <= q < j ==> renamed[q] == RenamedBy(cs, mapping)[q]
    {
      var header := cs[j].header;
      var newHeader := if header in mapping then mapping[header] else header;
      renamed := renamed + [Column(newHeader, cs[j].position)];
      j := j + 1;
    }
  }

  /** Renaming by the mapping step 2 builds is renaming each header by its first passing test. */
  lemma MappingRenames(cs: seq<Column>, mapping: map<string, string>)
    requires forall h :: h in mapping ==> StandardName(h) == Some(mapping[h])
    requires forall q :: 0 <= q < |cs| && StandardName(cs[q].header).Some? ==> cs[q].header in mapping
    ensures RenamedBy(cs, mapping) == Renamed(cs)
  {
    forall q | 0 <= q < |cs|
      ensures MappedName(mapping, cs[q].header) == Rename(cs[q].header)
    {
    }
  }

  /** Step 4: the standard columns present, in their fixed order. */
  method KeepStandard(renamed: seq<Column>) returns (kept: seq<Column>)
    ensures kept == Selected(renamed, KeepCols)
  {
    kept := [];
    var q := 0;
    while q < |KeepCols|
      invariant q <= |KeepCols|
      invariant kept == Selected(renamed, KeepCols[..q])
    {
      var k := KeepCols[q];
      assert KeepCols[..q + 1][..q] == KeepCols[..q];
      if k in Headers(renamed) {
        var picked := SelectLabel(renamed, k);
        kept := kept + picked;
      } else {
        LabelledAbsent(renamed, k);
      }
      q := q + 1;
    }
    assert KeepCols[..q] == KeepCols;
  }

  /** `df[k]` as the loop pandas runs over the columns. */
  method SelectLabel(cs: seq<Column>, k: string) returns (picked: seq<Column>)
    ensures picked == Labelled(cs, k)
  {
    picked := [];
    var p := 0;
    while p < |cs|
      invariant p <= |cs|
      invariant picked == Labelled(cs[..p], k)
    {
      assert cs[..p + 1][..p] == cs[..p];
      if cs[p].header == k {
        picked := picked + [cs[p]];
      }
      p := p + 1;
    }
    assert cs[..p] == cs;
  }

  lemma {:induction false} LabelledAbsent(cs: seq<Column>, k: string)
    requires k !in Headers(cs)
    ensures Labelled(cs, k) == []
    decreases |cs|
  {
    if cs != [] {
      var n := |cs| - 1;
      assert Headers(cs)[n] == cs[n].header;
      assert Headers(cs[..n]) == Headers(cs)[..n];
      LabelledAbsent(cs[..n], k);
    }
  }

  lemma {:induction false} LabelledMembers(cs: seq<Column>, k: string, c: Column)
    ensures c in Labelled(cs, k) <==> c in cs && c.header == k
    decreases |cs|
  {
    if cs != [] {
      var n := |cs| - 1;
      LabelledMembers(cs[..n], k, c);
      assert cs == cs[..n] + [cs[n]];
    }
  }

  lemma {:induction false} SelectedMembers(cs: seq<Column>, keep: seq<string>, c: Column)
    ensures c in Selected(cs, keep) <==> c in cs && c.header in keep
    decreases |keep|
  {
    if keep != [] {
      var n := |keep| - 1;
      SelectedMembers(cs, keep[..n], c);
      LabelledMembers(cs, keep[n], c);
      assert keep == keep[..n] + [keep[n]];
    }
  }

  lemma {:induction false} SurvivorMembers(columns: seq<string>, c: Column)
    ensures c in Survivors(columns) <==>
      c.position < |columns| && c.header == columns[c.position] && c.header in Expected
    decreases |columns|
  {
    if columns != [] {
      var n := |columns| - 1;
      SurvivorMembers(columns[..n], c);
    }
  }

  lemma DetailsName()
    ensures StandardName("details") == Some("details")
  {
    assert Lower("details") == "details";
    AbsentChar("details", "receipt", 'r');
    AbsentChar("details", "ref", 'r');
    AbsentChar("details", "completion", 'c');
    AbsentChar("details", "time", 'm');
    assert OccursAt("details", "detail", 0);
  }

  lemma WithdrawnSkipsEarlierTests()
    ensures !Contains("withdrawn", "receipt") && !Contains("withdrawn", "ref")
    ensures !Contains("withdrawn", "completion") && !Contains("withdrawn", "time")
    ensures !Contains("withdrawn", "detail") && !Contains("withdrawn", "details")
    ensures !Contains("withdrawn", "paid")
  {
    AbsentChar("withdrawn", "receipt", 'c');
    AbsentChar("withdrawn", "ref", 'f');
    AbsentChar("withdrawn", "completion", 'c');
    AbsentChar("withdrawn", "time", 'm');
    AbsentChar("withdrawn", "detail", 'e');
    AbsentChar("withdrawn", "details", 'e');
    AbsentChar("withdrawn", "paid", 'p');
  }

  lemma WithdrawnName()
    ensures StandardName("withdrawn") == Some("withdrawn")
  {
    assert Lower("withdrawn") == "withdrawn";
    WithdrawnSkipsEarlierTests();
    assert OccursAt("withdrawn", "withdrawn", 0);
  }

  lemma ReceiptNames()
    ensures StandardName("receiptno.") == Some("receipt_no")
    ensures StandardName("receiptno") == Some("receipt_no")
  {
    assert Lower("receiptno.") == "receiptno.";
    assert OccursAt("receiptno.", "receipt", 0);
    assert Lower("receiptno") == "receiptno";
    assert OccursAt("receiptno", "receipt", 0);
  }

  lemma CompletionTimeName()
    ensures StandardName("completiontime") == Some("date_time")
  {
    assert Lower("completiontime") == "completiontime";
    AbsentChar("completiontime", "receipt", 'r');
    AbsentChar("completiontime", "ref", 'r');
    assert OccursAt("completiontime", "completion", 0);
  }

  lemma PaidInSkipsEarlierTests()
    ensures !Contains("paidin", "receipt") && !Contains("paidin", "ref")
    ensures !Contains("paidin", "completion") && !Contains("paidin", "time")
    ensures !Contains("paidin", "detail") && !Contains("paidin", "details")
  {
    AbsentChar("paidin", "receipt", 'r');
    AbsentChar("paidin", "ref", 'r');
    AbsentChar("paidin", "completion", 'c');
    AbsentChar("paidin", "time", 't');
    AbsentChar("paidin", "detail", 'e');
    AbsentChar("paidin", "details", 'e');
  }

  lemma PaidInName()
    ensures StandardName("paidin") == Some("paid_in")
  {
    assert Lower("paidin") == "paidin";
    PaidInSkipsEarlierTests();
    assert OccursAt("paidin", "paid", 0);
    assert OccursAt("paidin", "in", 4);
  }

  lemma WithdrawSkipsEarlierTests()
    ensures !Contains("withdraw", "receipt") && !Contains("withdraw", "ref")
    ensures !Contains("withdraw", "completion") && !Contains("withdraw", "time")
    ensures !Contains("withdraw", "detail") && !Contains("withdraw", "details")
    ensures !Contains("withdraw", "paid") && !Contains("withdraw", "withdrawn")
  {
    AbsentChar("withdraw", "receipt", 'c');
    AbsentChar("withdraw", "ref", 'f');
    AbsentChar("withdraw", "completion", 'c');
    AbsentChar("withdraw", "time", 'm');
    AbsentChar("withdraw", "detail", 'e');
    AbsentChar("withdraw", "details", 'e');
    AbsentChar("withdraw", "paid", 'p');
    TooLong("withdraw", "withdrawn");
  }

  lemma WithdrawName()
    ensures StandardName("withdraw") == Some("withdrawn")
  {
    assert Lower("withdraw") == "withdraw";
    WithdrawSkipsEarlierTests();
    assert OccursAt("withdraw", "withdr", 0);
  }

  lemma TransactionStatusSkipsFirstTests()
    ensures !Contains("transactionstatus", "receipt") && !Contains("transactionstatus", "ref")
    ensures !Contains("transactionstatus", "completion") && !Contains("transactionstatus", "time")
  {
    AbsentChar("transactionstatus", "receipt", 'p');
    AbsentChar("transactionstatus", "ref", 'e');
    AbsentChar("transactionstatus", "completion", 'm');
    AbsentChar("transactionstatus", "time", 'm');
  }

  lemma TransactionStatusSkipsLastTests()
    ensures !Contains("transactionstatus", "detail") && !Contains("transactionstatus", "details")
    ensures !Contains("transactionstatus", "paid")
    ensures !Contains("transactionstatus", "withdrawn") && !Contains("transactionstatus", "withdr")
  {
    AbsentChar("transactionstatus", "detail", 'd');
    AbsentChar("transactionstatus", "details", 'd');
    AbsentChar("transactionstatus", "paid", 'p');
    AbsentChar("transactionstatus", "withdrawn", 'w');
    AbsentChar("transactionstatus", "withdr", 'w');
  }

  /** The transaction status is expected but has no standard name, so it is dropped at the end. */
  lemma TransactionStatusName()
    ensures StandardName("transactionstatus") == None
  {
    assert Lower("transactionstatus") == "transactionstatus";
    TransactionStatusSkipsFirstTests();
    TransactionStatusSkipsLastTests();
  }

  /** Every column of the table, at its own position. */
  function Positioned(columns: seq<string>): seq<Column> {
    seq(|columns|, i requires 0 <= i < |columns| => Column(columns[i], i))
  }

  lemma {:induction false} SurvivorsAllExpected(columns: seq<string>)
    requires forall i :: 0 <= i < |columns| ==> columns[i] in Expected
    ensures Survivors(columns) == Positioned(columns)
    decreases |columns|
  {
    if columns != [] {
      var n := |columns| - 1;
      SurvivorsAllExpected(columns[..n]);
      assert Positioned(columns) == Positioned(columns[..n]) + [Column(columns[n], n)];
    }
  }

  lemma {:induction false} LabelledOnce(cs: seq<Column>, p: nat, k: string)
    requires p < |cs| && cs[p].header == k
    requires forall q :: 0 <= q < |cs| && q != p ==> cs[q].header != k
    ensures Labelled(cs, k) == [cs[p]]
    decreases |cs|
  {
    var n := |cs| - 1;
    if p < n {
      LabelledOnce(cs[..n], p, k);
    } else {
      LabelledAbsent(cs[..n], k);
    }
  }

  lemma SelectedSnoc(cs: seq<Column>, keep: seq<string>, k: string)
    ensures Selected(cs, keep + [k]) == Selected(cs, keep) + Labelled(cs, k)
  {
    assert (keep + [k])[..|keep|] == keep;
  }

  /** The header row of an M-PESA statement, normalised. */
  const StatementHeaders: seq<string> :=
    ["receiptno.", "completiontime", "details", "transactionstatus", "paidin", "withdrawn"]

  /** That header row once renamed: every column but the status has its standard name. */
  const StatementRenamedColumns: seq<Column> := [Column("receipt_no", 0), Column("date_time", 1),
    Column("details", 2), Column("transactionstatus", 3), Column("paid_in", 4), Column("withdrawn", 5)]

  lemma StatementSurvivors()
    ensures Survivors(StatementHeaders) == Positioned(StatementHeaders)
  {
    var h := StatementHeaders;
    assert h[0] == Expected[0] && h[1] == Expected[2] && h[2] == Expected[3];
    assert h[3] == Expected[4] && h[4] == Expected[5] && h[5] == Expected[6];
    SurvivorsAllExpected(h);
  }

  lemma StatementRenamed()
    ensures Renamed(Positioned(StatementHeaders)) == StatementRenamedColumns
  {
    ReceiptNames();
    CompletionTimeName();
    DetailsName();
    TransactionStatusName();
    PaidInName();
    WithdrawnName();
  }

  /** No two renamed statement columns share a header: they differ in their first two characters. */
  lemma StatementHeadersDistinct()
    ensures forall p, q :: 0 <= p < 6 && 0 <= q < 6 && p != q ==>
      StatementRenamedColumns[p].header != StatementRenamedColumns[q].header
  {
    var r := StatementRenamedColumns;
    forall p, q | 0 <= p < 6 && 0 <= q < 6 && p != q
      ensures r[p].header != r[q].header
    {
      assert r[p].header[0] != r[q].header[0] || r[p].header[1] != r[q].header[1];
    }
  }

  lemma StatementLabelled()
    ensures Labelled(StatementRenamedColumns, "receipt_no") == [StatementRenamedColumns[0]]
    ensures Labelled(StatementRenamedColumns, "date_time") == [StatementRenamedColumns[1]]
    ensures Labelled(StatementRenamedColumns, "details") == [StatementRenamedColumns[2]]
    ensures Labelled(StatementRenamedColumns, "paid_in") == [StatementRenamedColumns[4]]
    ensures Labelled(StatementRenamedColumns, "withdrawn") == [StatementRenamedColumns[5]]
  {
    var r := StatementRenamedColumns;
    StatementHeadersDistinct();
    LabelledOnce(r, 0, "receipt_no");
    LabelledOnce(r, 1, "date_time");
    LabelledOnce(r, 2, "details");
    LabelledOnce(r, 4, "paid_in");
    LabelledOnce(r, 5, "withdrawn");
  }

  lemma StatementKept()
    ensures Selected(StatementRenamedColumns, KeepCols) == [Column("receipt_no", 0), Column("date_time", 1),
      Column("details", 2), Column("paid_in", 4), Column("withdrawn", 5)]
  {
    var r := StatementRenamedColumns;
    var k1 := [] + ["receipt_no"];
    var k2 := k1 + ["date_time"];
    var k3 := k2 + ["details"];
    var k4 := k3 + ["paid_in"];
    var k5 := k4 + ["withdrawn"];
    assert k5 == KeepCols;
    StatementLabelled();
    SelectedSnoc(r, [], "receipt_no");
    SelectedSnoc(r, k1, "date_time");
    SelectedSnoc(r, k2, "details");
    SelectedSnoc(r, k3, "paid_in");
    SelectedSnoc(r, k4, "withdrawn");
  }

  /**
   * A statement's header row comes out as the five standard columns in
   * their fixed order, the status column gone.
   */
  lemma StatementColumns()
    ensures Cleaned(StatementHeaders) == [Column("receipt_no", 0), Column("date_time", 1),
      Column("details", 2), Column("paid_in", 4), Column("withdrawn", 5)]
  {
    StatementSurvivors();
    StatementRenamed();
    StatementKept();
  }

  /** A header that keeps its own name after renaming is never one of the standard names. */
  lemma UnrenamedNotKept(header: string)
    requires header in Expected && StandardName(header).None?
    ensures header !in KeepCols
  {
    DetailsName();
    WithdrawnName();
  }

  /**
   * Every kept column is an expected column of the loaded table, now under
   * the standard name its header's first passing test gives.
   */
  lemma CleanedSound(columns: seq<string>, c: Column)
    requires c in Cleaned(columns)
    ensures c.header in KeepCols && c.position < |columns|
    ensures columns[c.position] in Expected && StandardName(columns[c.position]) == Some(c.header)
  {
    var cs := Survivors(columns);
    SelectedMembers(Renamed(cs), KeepCols, c);
    var j :| 0 <= j < |cs| && Renamed(cs)[j] == c;
    SurvivorMembers(columns, cs[j]);
    if StandardName(cs[j].header).None? {
      UnrenamedNotKept(cs[j].header);
    }
  }

  /** Every expected column that some test renames is kept, under that name. */
  lemma CleanedComplete(columns: seq<string>, p: nat)
    requires p < |columns| && columns[p] in Expected && StandardName(columns[p]).Some?
    ensures Column(StandardName(columns[p]).value, p) in Cleaned(columns)
  {
    var cs := Survivors(columns);
    SurvivorMembers(columns, Column(columns[p], p));
    var j :| 0 <= j < |cs| && cs[j] == Column(columns[p], p);
    assert Renamed(cs)[j] == Column(StandardName(columns[p]).value, p);
    SelectedMembers(Renamed(cs), KeepCols, Column(StandardName(columns[p]).value, p));
  }

  // ---------------------------------------------------------------------
  // The details text
  // ---------------------------------------------------------------------

  /** `.str.replace(r"\s+", " ", regex=True)`: each run of whitespace becomes one space. */
  function CollapseWhitespace(s: string): (r: string)
    ensures forall i :: 0 <= i < |r| && IsSpace(r[i]) ==> r[i] == ' '
    ensures forall i :: 0 <= i < |r| - 1 ==> !IsSpace(r[i]) || !IsSpace(r[i + 1])
    ensures r == [] <==> s == []
    ensures r != [] ==> (IsSpace(r[0]) <==> IsSpace(s[0]))
    ensures RemoveWhitespace(r) == RemoveWhitespace(s)
    decreases |s|
  {
    if s == [] then []
    else if IsSpace(s[0]) then
      var rest := CollapseWhitespace(TrimStart(s));
      RemoveWhitespaceTrimStart(s);
      assert (" " + rest)[1..] == rest;
      " " + rest
    else
      var rest := CollapseWhitespace(s[1..]);
      assert ([s[0]] + rest)[1..] == rest;
      [s[0]] + rest
  }

  /** Text without whitespace comes through the collapse unchanged. */
  lemma {:induction false} CollapseClean(s: string)
    requires forall i :: 0 <= i < |s| ==> !IsSpace(s[i])
    ensures CollapseWhitespace(s) == s
    decreases |s|
  {
    if s != [] {
      CollapseClean(s[1..]);
      assert s == [s[0]] + s[1..];
    }
  }

  /** Leading whitespace before a word is dropped whatever follows the word. */
  lemma {:induction false} TrimStartBeforeWord(a: string, b: string)
    requires a != [] && !IsSpace(a[|a| - 1])
    ensures TrimStart(a + b) == TrimStart(a) + b
    decreases |a|
  {
    assert (a + b)[0] == a[0];
    if IsSpace(a[0]) {
      assert (a + b)[1..] == a[1..] + b;
      TrimStartBeforeWord(a[1..], b);
    }
  }

  /** A text that ends in a word collapses independently of what follows it. */
  lemma {:induction false} CollapseAfterWord(a: string, b: string)
    requires a == [] || !IsSpace(a[|a| - 1])
    ensures CollapseWhitespace(a + b) == CollapseWhitespace(a) + CollapseWhitespace(b)
    decreases |a|
  {
    if a == [] {
      assert a + b == b;
    } else if IsSpace(a[0]) {
      CollapseAfterWordSpace(a, b);
    } else {
      CollapseAfterWordChar(a, b);
    }
  }

  lemma {:induction false} CollapseAfterWordSpace(a: string, b: string)
    requires a != [] && !IsSpace(a[|a| - 1]) && IsSpace(a[0])
    ensures CollapseWhitespace(a + b) == CollapseWhitespace(a) + CollapseWhitespace(b)
    decreases |a|, 0
  {
    var t := TrimStart(a);
    assert (a + b)[0] == a[0];
    TrimStartBeforeWord(a, b);
    assert t == a[|a| - |t|..];
    assert t != [] && t[|t| - 1] == a[|a| - 1];
    CollapseAfterWord(t, b);
    var x, y := CollapseWhitespace(t), CollapseWhitespace(b);
    assert CollapseWhitespace(a + b) == " " + (x + y);
    assert CollapseWhitespace(a) == " " + x;
    AppendAssoc(" ", x, y);
  }

  lemma {:induction false} CollapseAfterWordChar(a: string, b: string)
    requires a != [] && !IsSpace(a[|a| - 1]) && !IsSpace(a[0])
    ensures CollapseWhitespace(a + b) == CollapseWhitespace(a) + CollapseWhitespace(b)
    decreases |a|, 0
  {
    var rest := a[1..];
    assert (a + b)[0] == a[0];
    assert (a + b)[1..] == rest + b;
    assert rest == [] || rest[|rest| - 1] == a[|a| - 1];
    CollapseAfterWord(rest, b);
    var x, y := CollapseWhitespace(rest), CollapseWhitespace(b);
    assert CollapseWhitespace(a + b) == [a[0]] + (x + y);
    assert CollapseWhitespace(a) == [a[0]] + x;
    AppendAssoc([a[0]], x, y);
  }

  lemma AppendAssoc(p: string, q: string, r: string)
    ensures p + (q + r) == (p + q) + r
  {
  }

  /** A run of whitespace between two words becomes exactly one space. */
  lemma CollapseRun(a: string, w: string, b: string)
    requires a == [] || !IsSpace(a[|a| - 1])
    requires w != [] && AllSpace(w)
    requires b == [] || !IsSpace(b[0])
    ensures CollapseWhitespace(a + w + b) == CollapseWhitespace(a) + " " + CollapseWhitespace(b)
  {
    AppendAssoc(a, w, b);
    CollapseAfterWord(a, w + b);
    assert (w + b)[0] == w[0];
    TrimStartAfterSpace(w, b);
    assert TrimStart(b) == b;
    var x, y := CollapseWhitespace(a), CollapseWhitespace(b);
    assert CollapseWhitespace(w + b) == " " + y;
    AppendAssoc(x, " ", y);
  }

  /** After the collapse the details are one line, so `.` in the patterns matches every character. */
  lemma CollapsedSingleLine(s: string)
    ensures SingleLine(CollapseWhitespace(s))
  {
    var r := CollapseWhitespace(s);
    forall i | 0 <= i < |r|
      ensures r[i] != '\n'
    {
      if IsSpace(r[i]) {
        assert r[i] == ' ';
      }
    }
  }

  /** The details column after the collapse; a missing value stays missing. */
  function CleanDetails(details: Cell): Cell {
    match details
    case Missing => Missing
    case Present(s) => Present(CollapseWhitespace(s))
  }

  // ---------------------------------------------------------------------
  // split_details and split_type
  // ---------------------------------------------------------------------

  /**
   * `split_details`: the text before and after the first hyphen separator,
   * each stripped; without a separator, the input twice, as it was.
   */
  function SplitDetails(details: Cell): (r: (Cell, Cell))
  {
    var s := Str(details);
    match SearchGroups(DetailSeparator, s)
    case None => (details, details)
    case Some(g) => (Present(Strip(g.g1)), Present(Strip(g.g2.GetOr(""))))
  }

  /** Text with a first separator: the stripped text before it and the stripped text after it. */
  lemma SplitDetailsFirstSeparator(s: string, k: nat, d: nat, e: nat)
    requires SingleLine(s) && Separator(s, k, d, e)
    requires forall l: nat, d': nat, e': nat :: l < k ==> !Separator(s, l, d', e')
    ensures SplitDetails(Present(s)) == (Present(Strip(s[..k])), Present(Strip(s[e + 1..])))
  {
    FirstSeparatorGroups(s, k, d, e);
  }

  lemma NoEarlierTail(s: string, k: nat)
    requires k <= |s|
    requires forall l: nat, d': nat, e': nat :: l < k ==> !Separator(s, l, d', e')
    ensures forall l :: 0 <= l < k ==> TailAt(DetailSeparator, s, l).None?
  {
    forall l | 0 <= l < k
      ensures TailAt(DetailSeparator, s, l).None?
    {
      TailSeparator(s, l);
    }
  }

  lemma FirstSeparatorGroups(s: string, k: nat, d: nat, e: nat)
    requires SingleLine(s) && Separator(s, k, d, e)
    requires forall l: nat, d': nat, e': nat :: l < k ==> !Separator(s, l, d', e')
    ensures SearchGroups(DetailSeparator, s) == Some(Groups(s[..k], Some(s[e + 1..])))
  {
    SeparatorTail(s, k, d, e);
    NoEarlierTail(s, k);
    FirstTailGroups(DetailSeparator, s, k);
  }

  /** Without a separator the cell comes back twice, unchanged and unstripped. */
  lemma SplitDetailsNoSeparator(details: Cell)
    requires forall l: nat, d: nat, e: nat :: !Separator(Str(details), l, d, e)
    ensures SplitDetails(details) == (details, details)
  {
    var s := Str(details);
    forall l | 0 <= l <= |s|
      ensures TailAt(DetailSeparator, s, l).None?
    {
      TailSeparator(s, l);
    }
    SearchFailsWithoutTail(DetailSeparator, s, 0);
  }

  /** A hyphen right after a non-space character, as in "M-PESA", never separates. */
  lemma HyphenInWord(s: string, k: nat, d: nat, e: nat)
    requires 0 < d < |s| && !IsSpace(s[d - 1])
    ensures !Separator(s, k, d, e)
  {
  }

  /** Missing details ("nan" as text, no hyphen) stay missing in both halves. */
  lemma SplitDetailsMissing()
    ensures SplitDetails(Missing) == (Missing, Missing)
  {
    forall l: nat, d: nat, e: nat
      ensures !Separator("nan", l, d, e)
    {
      if d < 3 {
        assert "nan"[d] != '-';
      }
    }
    SplitDetailsNoSeparator(Missing);
  }

  function Min(a: nat, b: nat): nat {
    if a <= b then a else b
  }

  /**
   * `split_type`: "" and "" for a missing type; otherwise the first four
   * pieces between single spaces, joined again, and the rest, joined.
   */
  function SplitType(t: Cell): (r: (string, string))
    ensures t.Missing? ==> r == ("", "")
  {
    match t
    case Missing => ("", "")
    case Present(s) =>
      var pieces := SplitOnSpace(s);
      var n := Min(4, |pieces|);
      (Join(pieces[..n]), Join(pieces[n..]))
  }

  /**
   * A type of more than four pieces is type_class, a space and type_desc;
   * a shorter one is all type_class.
   */
  lemma SplitTypeRejoins(s: string)
    ensures |SplitOnSpace(s)| > 4 ==> SplitType(Present(s)).0 + " " + SplitType(Present(s)).1 == s
    ensures |SplitOnSpace(s)| <= 4 ==> SplitType(Present(s)) == (s, "")
  {
    var pieces := SplitOnSpace(s);
    var n := Min(4, |pieces|);
    JoinSplit(s);
    assert pieces[..n] + pieces[n..] == pieces;
    if n < |pieces| {
      JoinAppend(pieces[..n], pieces[n..]);
    } else {
      assert pieces[..n] == pieces;
    }
  }

  /** type_class is at most four pieces: exactly the first pieces of the type. */
  lemma TypeClassPieces(s: string)
    ensures SplitOnSpace(SplitType(Present(s)).0) == SplitOnSpace(s)[..Min(4, |SplitOnSpace(s)|)]
    ensures |SplitOnSpace(s)| > 4 ==> SplitOnSpace(SplitType(Present(s)).1) == SplitOnSpace(s)[4..]
  {
    var pieces := SplitOnSpace(s);
    var n := Min(4, |pieces|);
    SplitJoin(pieces[..n]);
    if |pieces| > 4 {
      SplitJoin(pieces[4..]);
    }
  }

  /** The columns of one row that `clean_data` derives from its details. */
  datatype DetailFields = DetailFields(entity: Cell, typeClass: string, typeDesc: string)

  /**
   * Lines 214-220 of `clean_data` for one row: the entity, type_class and
   * type_desc that the categorizer reads, from the raw details.
   */
  function DetailColumns(details: Cell): DetailFields {
    var (kind, entity) := SplitDetails(CleanDetails(details));
    var (typeClass, typeDesc) := SplitType(kind);
    DetailFields(entity, typeClass, typeDesc)
  }

  /** A row without details gets a missing entity and empty type columns. */
  lemma MissingDetailsColumns()
    ensures DetailColumns(Missing) == DetailFields(Missing, "", "")
  {
    SplitDetailsMissing();
  }

  /** No arm before NoDetails matches the lowered key of a row without details. */
  lemma MissingKeyGuards(k: Classify.Key)
    requires k == Classify.Key("nan", "", "")
    ensures forall d: Classify.Category :: d.Rank() < Classify.Category.NoDetails.Rank() ==> !Classify.Guard(d, k)
  {
    TooLong("nan", "deposit of");
    TooLong("nan", "reversal");
    TooLong("nan", "term loan");
    TooLong("nan", "kcb m-pesa");
    TooLong("nan", "m-shwari");
    TooLong("nan", "customer transfer");
    TooLong("nan", "send money");
    TooLong("nan", "transfer to other small business to");
    TooLong("nan", "overdraft");
    TooLong("nan", "od loan");
    TooLong("nan", "merchant payment");
    TooLong("nan", "pay merchant");
    TooLong("nan", "pay bill");
    TooLong("nan", "customer payment to small business to");
    TooLong("nan", "withdrawal");
    TooLong("nan", "airtime");
    TooLong("nan", "bundle");
    EmptyTypeGuards();
  }

  lemma EmptyTypeGuards()
    ensures !Contains("", "salary payment from") && !Contains("", "promotion payment from")
    ensures !Contains("", "business payment from") && !Contains("", "funds received from business")
    ensures !Contains("", "small business transfer to") && !Contains("", "other small business from")
    ensures !Contains("", "bundles")
  {
    TooLong("", "salary payment from");
    TooLong("", "promotion payment from");
    TooLong("", "business payment from");
    TooLong("", "funds received from business");
    TooLong("", "small business transfer to");
    TooLong("", "other small business from");
    TooLong("", "bundles");
  }

  /**
   * A statement line without details, cleaned and split as `clean_data`
   * does, is filed under NoDetails by the categorizer.
   */
  lemma MissingDetailsRow(row: Classify.Row)
    requires row.details == Missing
    requires DetailColumns(row.details) == DetailFields(row.entity, row.typeClass, row.typeDesc)
    ensures Classify.CategorizeTransaction(row).Ok?
    ensures Classify.CategorizeTransaction(row).value.category == "NoDetails"
  {
    MissingDetailsColumns();
    var k := Classify.KeyOf(row);
    assert Lower("") == "" && Lower("nan") == "nan";
    assert k == Classify.Key("nan", "", "");
    MissingKeyGuards(k);
    Classify.MissingDetails(row);
  }
}

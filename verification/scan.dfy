/**
 * Explicit scanners for the three regular expressions of the core, with
 * Python's `re.search` semantics:
 *
 *   Paybill          `(.*?)(?:\s+Acc\.\s+(.*)|$)`
 *   BusinessPayment  `(.*?)(?:\s+(?:via).*?(?:is)\s+(.*)|$)`, ignoring case
 *   DetailSeparator  `(.*?)(?<!\S)(?: *)-(?: *)\s(?=\S)(.*)`
 *
 * Each has the shape "lazy group 1, then a tail that opens group 2". The
 * search tries start positions from the left; from a start, group 1 grows
 * one character at a time (never over a line feed, since `.` does not
 * match one); at each length the tail is tried, then the `$` alternative
 * when the pattern has one. Greedy runs inside a tail never need to give
 * characters back except where `DetailSeparator` says so.
 */
module Scan {
  import opened Text
  import opened Wrappers

  datatype Pattern = Paybill | BusinessPayment | DetailSeparator

  /** Whether the pattern ends in the always-matching `|$` alternative. */
  predicate HasEndAlternative(p: Pattern) {
    p != DetailSeparator
  }

  /** `$` without MULTILINE: at the end, or before a final line feed. */
  predicate AtEnd(s: string, k: nat) {
    k == |s| || (k + 1 == |s| && s[k] == '\n')
  }

  /** Where a greedy `\s*` starting at `i` stops. */
  function WsEnd(s: string, i: nat): (j: nat)
    requires i <= |s|
    ensures i <= j <= |s|
    decreases |s| - i
  {
    if i < |s| && IsSpace(s[i]) then WsEnd(s, i + 1) else i
  }

  /** The run a greedy `\s*` passes over is all whitespace. */
  lemma {:induction false} WsEndRun(s: string, i: nat)
    requires i <= |s|
    ensures AllSpace(s[i..WsEnd(s, i)])
    decreases |s| - i
  {
    if i < |s| && IsSpace(s[i]) {
      WsEndRun(s, i + 1);
      assert s[i..WsEnd(s, i)] == [s[i]] + s[i + 1..WsEnd(s, i + 1)];
    }
  }

  /** On a single line, a greedy `.*` runs to the end. */
  lemma {:induction false} LineEndSingle(s: string, i: nat)
    requires SingleLine(s) && i <= |s|
    ensures LineEnd(s, i) == |s|
    decreases |s| - i
  {
    if i < |s| {
      assert s[i] in s;
      LineEndSingle(s, i + 1);
    }
  }

  /** Where a greedy ` *` (literal spaces) starting at `i` stops. */
  function BlankEnd(s: string, i: nat): (j: nat)
    requires i <= |s|
    ensures i <= j <= |s|
    decreases |s| - i
  {
    if i < |s| && s[i] == ' ' then BlankEnd(s, i + 1) else i
  }

  /** Where a greedy `.*` starting at `i` stops. */
  function LineEnd(s: string, i: nat): (j: nat)
    requires i <= |s|
    ensures i <= j <= |s|
    decreases |s| - i
  {
    if i < |s| && s[i] != '\n' then LineEnd(s, i + 1) else i
  }

  /** `is\s+` at `m`, ignoring case. */
  predicate IsAt(s: string, m: nat) {
    m + 2 < |s| && Lower(s[m..m + 2]) == "is" && IsSpace(s[m + 2])
  }

  /** The lazy `.*?` before `(?:is)\s+`: where the first `is` it can use begins. */
  function IsClauseFrom(s: string, i: nat): (m: Option<nat>)
    requires i <= |s|
    ensures m.Some? ==> i <= m.value && IsAt(s, m.value)
    decreases |s| - i
  {
    if IsAt(s, i) then Some(i)
    else if i < |s| && s[i] != '\n' then IsClauseFrom(s, i + 1)
    else None
  }

  /** The tail of pattern `p` tried at `k`: where group 2 starts when it matches. */
  function TailAt(p: Pattern, s: string, k: nat): (g: Option<nat>)
    requires k <= |s|
    ensures g.Some? ==> k < g.value <= |s|
  {
    match p
    case Paybill =>
      var j := WsEnd(s, k);
      if j > k && OccursAt(s, "Acc.", j) && WsEnd(s, j + 4) > j + 4 then Some(WsEnd(s, j + 4))
      else None
    case BusinessPayment =>
      var j := WsEnd(s, k);
      if j > k && j + 3 <= |s| && Lower(s[j..j + 3]) == "via" then
        match IsClauseFrom(s, j + 3)
        case Some(m) => Some(WsEnd(s, m + 2))
        case None => None
      else None
    case DetailSeparator =>
      if k > 0 && !IsSpace(s[k - 1]) then None
      else
        var d := BlankEnd(s, k);
        if d < |s| && s[d] == '-' then
          var b := BlankEnd(s, d + 1);
          if b + 1 < |s| && IsSpace(s[b]) && !IsSpace(s[b + 1]) then Some(b + 1)
          else if b > d + 1 && b < |s| && !IsSpace(s[b]) then Some(b)
          else None
        else None
  }

  /** Group 1 ends at `g1End`; group 2 starts at `g2Start` when it took part. */
  datatype Match = Match(g1End: nat, g2Start: Option<nat>)

  /** A match found by the search: it starts at `start`. */
  datatype Hit = Hit(start: nat, g1End: nat, g2Start: Option<nat>)

  datatype Groups = Groups(g1: string, g2: Option<string>)

  /** The lazy group 1 growing from its current end `k`. */
  function LazyScan(p: Pattern, s: string, k: nat): (r: Option<Match>)
    requires k <= |s|
    ensures r.Some? ==> k <= r.value.g1End <= |s|
    ensures r.Some? && r.value.g2Start.Some? ==> r.value.g2Start.value <= |s|
    decreases |s| - k
  {
    var tail := TailAt(p, s, k);
    if tail.Some? then Some(Match(k, tail))
    else if HasEndAlternative(p) && AtEnd(s, k) then Some(Match(k, None))
    else if k < |s| && s[k] != '\n' then LazyScan(p, s, k + 1)
    else None
  }

  /** `re.search`: the leftmost start position from which the pattern matches. */
  function Search(p: Pattern, s: string, from: nat): (h: Option<Hit>)
    requires from <= |s|
    ensures h.Some? ==> from <= h.value.start <= h.value.g1End <= |s|
    ensures h.Some? && h.value.g2Start.Some? ==> h.value.g2Start.value <= |s|
    decreases |s| - from
  {
    match LazyScan(p, s, from)
    case Some(m) => Some(Hit(from, m.g1End, m.g2Start))
    case None => if from < |s| then Search(p, s, from + 1) else None
  }

  /** `match.group(1)` and `match.group(2)` of `re.search(p, s)`. */
  function SearchGroups(p: Pattern, s: string): Option<Groups> {
    match Search(p, s, 0)
    case None => None
    case Some(h) =>
      var g2 := match h.g2Start
        case None => None
        case Some(g) => Some(s[g..LineEnd(s, g)]);
      Some(Groups(s[h.start..h.g1End], g2))
  }

  // ---------------------------------------------------------------------
  // The scan on a single line: group 1 ends where the first tail begins
  // ---------------------------------------------------------------------

  /** One step of the lazy group: no tail at `k` and no line feed there, so it grows. */
  lemma ScanStep(p: Pattern, s: string, k: nat)
    requires k < |s| && s[k] != '\n' && TailAt(p, s, k).None?
    ensures LazyScan(p, s, k) == LazyScan(p, s, k + 1)
  {
    assert !AtEnd(s, k);
  }

  lemma {:induction false} ScanFindsFirstTail(p: Pattern, s: string, k: nat, i: nat)
    requires SingleLine(s) && k <= i <= |s|
    requires TailAt(p, s, i).Some?
    requires forall l :: k <= l < i ==> TailAt(p, s, l).None?
    ensures LazyScan(p, s, k) == Some(Match(i, TailAt(p, s, i)))
    decreases i - k
  {
    if k < i {
      assert s[k] != '\n';
      ScanStep(p, s, k);
      ScanFindsFirstTail(p, s, k + 1, i);
    }
  }

  lemma {:induction false} ScanReachesEnd(p: Pattern, s: string, k: nat)
    requires SingleLine(s) && HasEndAlternative(p) && k <= |s|
    requires forall l :: k <= l <= |s| ==> TailAt(p, s, l).None?
    ensures LazyScan(p, s, k) == Some(Match(|s|, None))
    decreases |s| - k
  {
    if k < |s| {
      assert s[k] != '\n';
      ScanStep(p, s, k);
      ScanReachesEnd(p, s, k + 1);
    }
  }

  /** Without a tail anywhere, a pattern without `|$` finds nothing (line feeds or not). */
  lemma {:induction false} ScanFailsWithoutTail(p: Pattern, s: string, k: nat)
    requires !HasEndAlternative(p) && k <= |s|
    requires forall l :: k <= l <= |s| ==> TailAt(p, s, l).None?
    ensures LazyScan(p, s, k).None?
    decreases |s| - k
  {
    if k < |s| && s[k] != '\n' {
      ScanFailsWithoutTail(p, s, k + 1);
    }
  }

  lemma {:induction false} SearchFailsWithoutTail(p: Pattern, s: string, from: nat)
    requires !HasEndAlternative(p) && from <= |s|
    requires forall l :: from <= l <= |s| ==> TailAt(p, s, l).None?
    ensures Search(p, s, from).None?
    decreases |s| - from
  {
    ScanFailsWithoutTail(p, s, from);
    if from < |s| {
      SearchFailsWithoutTail(p, s, from + 1);
    }
  }

  /** On a single line, group 1 is the text before the first tail. */
  lemma FirstTailGroups(p: Pattern, s: string, i: nat)
    requires SingleLine(s) && i <= |s|
    requires TailAt(p, s, i).Some?
    requires forall l :: 0 <= l < i ==> TailAt(p, s, l).None?
    ensures SearchGroups(p, s) == Some(Groups(s[..i], Some(s[TailAt(p, s, i).value..])))
  {
    ScanFindsFirstTail(p, s, 0, i);
    var g := TailAt(p, s, i).value;
    LineEndSingle(s, g);
    assert Search(p, s, 0) == Some(Hit(0, i, Some(g)));
    assert s[0..i] == s[..i];
    assert s[g..LineEnd(s, g)] == s[g..];
  }

  /** On a single line without a tail, a pattern with `|$` takes the whole text as group 1. */
  lemma NoTailGroups(p: Pattern, s: string)
    requires SingleLine(s) && HasEndAlternative(p)
    requires forall l :: 0 <= l <= |s| ==> TailAt(p, s, l).None?
    ensures SearchGroups(p, s) == Some(Groups(s, None))
  {
    ScanReachesEnd(p, s, 0);
    assert s[0..|s|] == s;
  }

  // ---------------------------------------------------------------------
  // What each tail recognises, stated without the scanners
  // ---------------------------------------------------------------------

  lemma {:induction false} WsEndIs(s: string, k: nat, j: nat)
    requires k <= j < |s| && AllSpace(s[k..j]) && !IsSpace(s[j])
    ensures WsEnd(s, k) == j
    decreases j - k
  {
    if k < j {
      assert s[k..j][0] == s[k];
      var w := s[k + 1..j];
      forall t | 0 <= t < |w|
        ensures IsSpace(w[t])
      {
        assert w[t] == s[k..j][t + 1];
      }
      WsEndIs(s, k + 1, j);
    }
  }

  /** `\s+Acc\.\s+` at `k`, with "Acc." at `j`. */
  predicate AccountMarker(s: string, k: nat, j: nat) {
    k < j && j + 4 < |s| && AllSpace(s[k..j]) && s[j..j + 4] == "Acc." && IsSpace(s[j + 4])
  }

  lemma PaybillTail(s: string, k: nat)
    requires k <= |s|
    ensures forall j: nat :: AccountMarker(s, k, j) ==> TailAt(Paybill, s, k) == Some(WsEnd(s, j + 4))
    ensures TailAt(Paybill, s, k).Some? ==> AccountMarker(s, k, WsEnd(s, k))
  {
    forall j: nat | AccountMarker(s, k, j)
      ensures TailAt(Paybill, s, k) == Some(WsEnd(s, j + 4))
    {
      assert s[j] == "Acc."[0];
      WsEndIs(s, k, j);
      assert OccursAt(s, "Acc.", j);
    }
    WsEndRun(s, k);
  }

  /** `\s+via` at `k`, ignoring case, with "via" at `j`. */
  predicate ViaAt(s: string, k: nat, j: nat) {
    k < j && j + 3 <= |s| && AllSpace(s[k..j]) && Lower(s[j..j + 3]) == "via"
  }

  /** `\s+via.*?is\s+` at `k`: "via" at `j`, "is" at `m`. */
  predicate ViaClause(s: string, k: nat, j: nat, m: nat) {
    ViaAt(s, k, j) && j + 3 <= m && IsAt(s, m)
  }

  lemma {:induction false} IsClauseFirst(s: string, i: nat, m: nat)
    requires SingleLine(s) && i <= m && IsAt(s, m)
    requires forall l :: i <= l < m ==> !IsAt(s, l)
    ensures IsClauseFrom(s, i) == Some(m)
    decreases m - i
  {
    if i < m {
      assert s[i] != '\n';
      IsClauseFirst(s, i + 1, m);
    }
  }

  lemma BusinessTail(s: string, k: nat, j: nat, m: nat)
    requires SingleLine(s) && ViaClause(s, k, j, m)
    requires forall l :: j + 3 <= l < m ==> !IsAt(s, l)
    ensures TailAt(BusinessPayment, s, k) == Some(WsEnd(s, m + 2))
  {
    assert ToLower(s[j]) == 'v' by {
      assert Lower(s[j..j + 3])[0] == ToLower(s[j]);
    }
    WsEndIs(s, k, j);
    IsClauseFirst(s, j + 3, m);
  }

  lemma BusinessTailClause(s: string, k: nat)
    requires k <= |s|
    ensures TailAt(BusinessPayment, s, k).Some? ==>
      exists j, m :: ViaClause(s, k, j, m)
  {
    if TailAt(BusinessPayment, s, k).Some? {
      var j := WsEnd(s, k);
      var m := IsClauseFrom(s, j + 3).value;
      WsEndRun(s, k);
      assert ViaClause(s, k, j, m);
    }
  }

  /**
   * ` *- *\s(?=\S)` at `k`, not preceded by a non-space: spaces up to the
   * hyphen at `d`, spaces after it, then the whitespace at `e` and a
   * non-space at `e + 1`.
   */
  predicate Separator(s: string, k: nat, d: nat, e: nat) {
    && k <= d < e && e + 1 < |s|
    && (k == 0 || IsSpace(s[k - 1]))
    && (forall i :: k <= i < d ==> s[i] == ' ')
    && s[d] == '-'
    && (forall i :: d < i < e ==> s[i] == ' ')
    && IsSpace(s[e]) && !IsSpace(s[e + 1])
  }

  lemma {:induction false} BlankEndIs(s: string, k: nat, j: nat)
    requires k <= j < |s| && s[j] != ' '
    requires forall i :: k <= i < j ==> s[i] == ' '
    ensures BlankEnd(s, k) == j
    decreases j - k
  {
    if k < j {
      BlankEndIs(s, k + 1, j);
    }
  }

  /** The run a greedy ` *` passes over is all spaces. */
  lemma {:induction false} BlankEndRun(s: string, i: nat)
    requires i <= |s|
    ensures forall m :: i <= m < BlankEnd(s, i) ==> s[m] == ' '
    decreases |s| - i
  {
    if i < |s| && s[i] == ' ' {
      BlankEndRun(s, i + 1);
    }
  }

  lemma SeparatorTail(s: string, k: nat, d: nat, e: nat)
    requires Separator(s, k, d, e)
    ensures TailAt(DetailSeparator, s, k) == Some(e + 1)
  {
    BlankEndIs(s, k, d);
    if s[e] == ' ' {
      BlankEndIs(s, d + 1, e + 1);
    } else {
      BlankEndIs(s, d + 1, e);
    }
  }

  lemma TailSeparator(s: string, k: nat)
    requires k <= |s|
    ensures TailAt(DetailSeparator, s, k).Some? ==>
      Separator(s, k, BlankEnd(s, k), TailAt(DetailSeparator, s, k).value - 1)
  {
    if TailAt(DetailSeparator, s, k).Some? {
      var d := BlankEnd(s, k);
      BlankEndRun(s, k);
      BlankEndRun(s, d + 1);
    }
  }
}

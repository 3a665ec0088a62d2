/**
 * The three entity normalisers of `TransactionCategorizer`: the masked-phone
 * splitter, the business-payment splitter and the pay-bill splitter. Each
 * turns the raw counterparty text into a pair (name, extra).
 *
 * The categorizer only ever passes `str(row["entity"])`, so the entity is
 * always a string here; the `pd.isna` half of each guard cannot fire.
 */
module Normalise {
  import opened Text
  import opened Wrappers
  import opened Scan

  /**
   * `process_masked_phone`: an entity holding a `*` is "<masked phone> <name>";
   * it is split at its first space and both halves are title-cased. A masked
   * entity without a space makes `split(" ", 1)[1]` raise `IndexError`.
   */
  function MaskedPhone(entity: string): (r: Result<(string, string)>)
    ensures r.IndexError? <==> '*' in entity && ' ' !in entity
    ensures entity == [] ==> r == Ok((entity, ""))
    ensures r.Ok? && '*' !in entity ==> r.value == (Title(entity), "")
  {
    if entity == [] then
      assert Title(entity) == [];
      Ok((entity, ""))
    else if '*' in entity then
      if ' ' in entity then
        var i := IndexOf(entity, ' ');
        Ok((Title(entity[i + 1..]), Title(entity[..i])))
      else IndexError
    else
      Ok((Title(entity), ""))
  }

  /** Both halves of a split come out title-cased: title-casing them again changes nothing. */
  lemma MaskedPhoneTitled(entity: string)
    requires MaskedPhone(entity).Ok?
    ensures var (name, phone) := MaskedPhone(entity).value;
      Title(name) == name && Title(phone) == phone
  {
    if entity == [] {
      assert Title([]) == [];
    } else if '*' in entity {
      var i := IndexOf(entity, ' ');
      TitleIdempotent(entity[i + 1..]);
      TitleIdempotent(entity[..i]);
    } else {
      TitleIdempotent(entity);
    }
  }

  /**
   * A masked entity is the phone, one space and the name: ignoring case,
   * putting the two results back together gives the entity.
   */
  lemma MaskedPhoneRejoins(entity: string)
    requires '*' in entity && ' ' in entity
    ensures MaskedPhone(entity).Ok?
    ensures var (name, phone) := MaskedPhone(entity).value;
      ' ' !in phone && Lower(phone) + " " + Lower(name) == Lower(entity)
  {
    var i := IndexOf(entity, ' ');
    var (name, phone) := MaskedPhone(entity).value;
    LowerOfTitle(entity[i + 1..]);
    LowerOfTitle(entity[..i]);
    TitleKeepsChar(entity[..i], ' ');
    assert entity == entity[..i] + " " + entity[i + 1..];
    LowerAppend(entity[..i] + " ", entity[i + 1..]);
    LowerAppend(entity[..i], " ");
  }

  /** Without a mask the name is the whole entity, title-cased, and the phone is empty. */
  lemma UnmaskedKeepsText(entity: string)
    requires '*' !in entity
    ensures MaskedPhone(entity).Ok?
    ensures Lower(MaskedPhone(entity).value.0) == Lower(entity)
    ensures MaskedPhone(entity).value.1 == ""
  {
    LowerOfTitle(entity);
  }

  /** A regex with the `|$` alternative finds a match in every string. */
  lemma {:induction false} SearchAlwaysMatches(p: Pattern, s: string, from: nat)
    requires HasEndAlternative(p) && from <= |s|
    ensures Search(p, s, from).Some?
    decreases |s| - from
  {
    if LazyScan(p, s, from).None? {
      if from < |s| {
        SearchAlwaysMatches(p, s, from + 1);
      } else {
        assert AtEnd(s, from);
      }
    }
  }

  /** Both groups of a `|$` pattern, stripped, as the two normalisers below use them. */
  function StrippedGroups(p: Pattern, entity: string): (r: (string, string))
    requires HasEndAlternative(p)
  {
    SearchAlwaysMatches(p, entity, 0);
    var g := SearchGroups(p, entity).value;
    (if g.g1 != [] then Strip(g.g1) else "",
     if g.g2.Some? && g.g2.value != [] then Strip(g.g2.value) else "")
  }

  /**
   * `process_business_and_account`: "<business> via <anything> is <extra>",
   * ignoring case, gives the business and the extra, each stripped; without
   * such a clause the stripped entity and "".
   */
  function BusinessAndAccount(entity: string): (r: (string, string))
    ensures entity == [] ==> r == (entity, "")
  {
    if entity == [] then (entity, "")
    else
      SearchAlwaysMatches(BusinessPayment, entity, 0);
      match SearchGroups(BusinessPayment, entity)
      case None => (entity, "")
      case Some(_) => StrippedGroups(BusinessPayment, entity)
  }

  /**
   * `extract_paybill_details`: "<business> Acc. <account>" gives the business
   * and the account number, each stripped; without the marker the stripped
   * entity and "".
   */
  function PaybillDetails(entity: string): (r: (string, string))
    ensures entity == [] ==> r == (entity, "")
  {
    if entity == [] then (entity, "")
    else
      SearchAlwaysMatches(Paybill, entity, 0);
      match SearchGroups(Paybill, entity)
      case None => (entity, "")
      case Some(_) => StrippedGroups(Paybill, entity)
  }

  lemma SliceSingleLine(s: string, i: nat, j: nat)
    requires SingleLine(s) && i <= j <= |s|
    ensures SingleLine(s[i..j])
  {
    forall t | 0 <= t < j - i
      ensures s[i..j][t] != '\n'
    {
      assert s[i..j][t] == s[i + t];
    }
  }

  /** On one line, both splitters return single-line texts. */
  lemma NormalisersSingleLine(s: string)
    requires SingleLine(s)
    ensures SingleLine(BusinessAndAccount(s).0) && SingleLine(BusinessAndAccount(s).1)
    ensures SingleLine(PaybillDetails(s).0) && SingleLine(PaybillDetails(s).1)
  {
    if s != [] {
      GroupsSingleLine(BusinessPayment, s);
      GroupsSingleLine(Paybill, s);
    }
  }

  lemma GroupsSingleLine(p: Pattern, s: string)
    requires HasEndAlternative(p) && SingleLine(s)
    ensures SingleLine(StrippedGroups(p, s).0) && SingleLine(StrippedGroups(p, s).1)
  {
    SearchAlwaysMatches(p, s, 0);
    var h := Search(p, s, 0).value;
    var g := SearchGroups(p, s).value;
    SliceSingleLine(s, h.start, h.g1End);
    StripSingleLine(g.g1);
    if h.g2Start.Some? {
      SliceSingleLine(s, h.g2Start.value, LineEnd(s, h.g2Start.value));
      StripSingleLine(g.g2.value);
    }
  }

  /** The stripped groups when the first tail starts at `i`. */
  lemma StrippedFirstTail(p: Pattern, s: string, i: nat)
    requires HasEndAlternative(p) && SingleLine(s) && i <= |s|
    requires TailAt(p, s, i).Some?
    requires forall l :: 0 <= l < i ==> TailAt(p, s, l).None?
    ensures StrippedGroups(p, s) == (Strip(s[..i]), Strip(s[TailAt(p, s, i).value..]))
  {
    FirstTailGroups(p, s, i);
    StripEmptyGroup(s[..i]);
    StripEmptyGroup(s[TailAt(p, s, i).value..]);
  }

  /** The stripped groups when no tail starts anywhere. */
  lemma StrippedNoTail(p: Pattern, s: string)
    requires HasEndAlternative(p) && SingleLine(s)
    requires forall l :: 0 <= l <= |s| ==> TailAt(p, s, l).None?
    ensures StrippedGroups(p, s) == (Strip(s), "")
  {
    NoTailGroups(p, s);
    StripEmptyGroup(s);
  }

  // ---------------------------------------------------------------------
  // What the two splitters return, stated with the tails they look for
  // ---------------------------------------------------------------------

  /** With the first `\s+Acc\.\s+` starting at `k`, the business is before it and the account after it. */
  lemma PaybillFirstMarker(s: string, k: nat, j: nat)
    requires s != [] && SingleLine(s)
    requires AccountMarker(s, k, j)
    requires forall l: nat, j': nat :: l < k ==> !AccountMarker(s, l, j')
    ensures PaybillDetails(s) == (Strip(s[..k]), Strip(s[j + 4..]))
  {
    NoPaybillTailBefore(s, k);
    PaybillMarkerFirst(s, k, j);
  }

  lemma PaybillMarkerFirst(s: string, k: nat, j: nat)
    requires s != [] && SingleLine(s)
    requires AccountMarker(s, k, j)
    requires forall l :: 0 <= l < k && l <= |s| ==> TailAt(Paybill, s, l).None?
    ensures PaybillDetails(s) == (Strip(s[..k]), Strip(s[j + 4..]))
  {
    PaybillMarkerTail(s, k, j);
    PaybillAfterTail(s, k, j + 4);
  }

  lemma PaybillAfterTail(s: string, k: nat, i: nat)
    requires s != [] && SingleLine(s) && k <= i <= |s|
    requires TailAt(Paybill, s, k) == Some(WsEnd(s, i))
    requires forall l :: 0 <= l < k && l <= |s| ==> TailAt(Paybill, s, l).None?
    ensures PaybillDetails(s) == (Strip(s[..k]), Strip(s[i..]))
  {
    PaybillFirstTail(s, k);
    SpaceThenRest(s, i, WsEnd(s, i));
  }

  /** Without any `\s+Acc\.\s+`, the business is the stripped entity and the account is empty. */
  lemma PaybillNoMarker(s: string)
    requires s != [] && SingleLine(s)
    requires forall l: nat, j: nat :: !AccountMarker(s, l, j)
    ensures PaybillDetails(s) == (Strip(s), "")
  {
    NoPaybillTailBefore(s, |s| + 1);
    PaybillIsStripped(s);
    StrippedNoTail(Paybill, s);
  }

  /**
   * With the first `\s+via` starting at `k` and the first `is\s+` after it
   * at `m`, the business is before `k` and the extra after the `is`.
   */
  lemma BusinessFirstClause(s: string, k: nat, j: nat, m: nat)
    requires s != [] && SingleLine(s)
    requires ViaClause(s, k, j, m)
    requires forall l: nat, j': nat, m': nat :: l < k ==> !ViaClause(s, l, j', m')
    requires forall l :: j + 3 <= l < m ==> !IsAt(s, l)
    ensures BusinessAndAccount(s) == (Strip(s[..k]), Strip(s[m + 2..]))
  {
    NoBusinessTailBefore(s, k);
    BusinessClauseFirst(s, k, j, m);
  }

  lemma BusinessClauseFirst(s: string, k: nat, j: nat, m: nat)
    requires s != [] && SingleLine(s)
    requires ViaClause(s, k, j, m)
    requires forall l :: 0 <= l < k && l <= |s| ==> TailAt(BusinessPayment, s, l).None?
    requires forall l :: j + 3 <= l < m ==> !IsAt(s, l)
    ensures BusinessAndAccount(s) == (Strip(s[..k]), Strip(s[m + 2..]))
  {
    BusinessTail(s, k, j, m);
    BusinessAfterTail(s, k, m + 2);
  }

  lemma BusinessAfterTail(s: string, k: nat, i: nat)
    requires s != [] && SingleLine(s) && k <= i <= |s|
    requires TailAt(BusinessPayment, s, k) == Some(WsEnd(s, i))
    requires forall l :: 0 <= l < k && l <= |s| ==> TailAt(BusinessPayment, s, l).None?
    ensures BusinessAndAccount(s) == (Strip(s[..k]), Strip(s[i..]))
  {
    BusinessFirstTail(s, k);
    SpaceThenRest(s, i, WsEnd(s, i));
  }

  lemma BusinessFirstTail(s: string, k: nat)
    requires s != [] && SingleLine(s) && k <= |s|
    requires TailAt(BusinessPayment, s, k).Some?
    requires forall l :: 0 <= l < k && l <= |s| ==> TailAt(BusinessPayment, s, l).None?
    ensures BusinessAndAccount(s) == (Strip(s[..k]), Strip(s[TailAt(BusinessPayment, s, k).value..]))
  {
    BusinessIsStripped(s);
    StrippedFirstTail(BusinessPayment, s, k);
  }

  /** Without a "via … is" clause, the business is the stripped entity and the extra is empty. */
  lemma BusinessNoClause(s: string)
    requires s != [] && SingleLine(s)
    requires forall l: nat, j: nat, m: nat :: !ViaClause(s, l, j, m)
    ensures BusinessAndAccount(s) == (Strip(s), "")
  {
    NoBusinessTailBefore(s, |s| + 1);
    BusinessIsStripped(s);
    StrippedNoTail(BusinessPayment, s);
  }

  /** The `if match.group(n) else ""` guards agree with stripping. */
  lemma StripEmptyGroup(s: string)
    ensures (if s != [] then Strip(s) else "") == Strip(s)
  {
  }

  /** Stripping from `i` is stripping from where the whitespace run at `i` ends. */
  lemma SpaceThenRest(s: string, i: nat, g: nat)
    requires i <= |s| && g == WsEnd(s, i)
    ensures Strip(s[i..]) == Strip(s[g..])
  {
    var w, t := s[i..g], s[g..];
    assert s[i..] == w + t;
    WsEndRun(s, i);
    StripAfterSpace(w, t);
  }

  lemma PaybillIsStripped(s: string)
    requires s != []
    ensures PaybillDetails(s) == StrippedGroups(Paybill, s)
  {
    SearchAlwaysMatches(Paybill, s, 0);
  }

  lemma BusinessIsStripped(s: string)
    requires s != []
    ensures BusinessAndAccount(s) == StrippedGroups(BusinessPayment, s)
  {
    SearchAlwaysMatches(BusinessPayment, s, 0);
  }

  lemma PaybillFirstTail(s: string, k: nat)
    requires s != [] && SingleLine(s) && k <= |s|
    requires TailAt(Paybill, s, k).Some?
    requires forall l :: 0 <= l < k && l <= |s| ==> TailAt(Paybill, s, l).None?
    ensures PaybillDetails(s) == (Strip(s[..k]), Strip(s[TailAt(Paybill, s, k).value..]))
  {
    PaybillIsStripped(s);
    StrippedFirstTail(Paybill, s, k);
  }

  lemma PaybillMarkerTail(s: string, k: nat, j: nat)
    requires AccountMarker(s, k, j)
    ensures TailAt(Paybill, s, k) == Some(WsEnd(s, j + 4))
  {
    PaybillTail(s, k);
  }

  lemma NoPaybillTailBefore(s: string, k: nat)
    requires forall l: nat, j: nat :: l < k ==> !AccountMarker(s, l, j)
    ensures forall l :: 0 <= l < k && l <= |s| ==> TailAt(Paybill, s, l).None?
  {
    forall l | 0 <= l < k && l <= |s|
      ensures TailAt(Paybill, s, l).None?
    {
      PaybillTail(s, l);
    }
  }

  lemma NoBusinessTailBefore(s: string, k: nat)
    requires forall l: nat, j: nat, m: nat :: l < k ==> !ViaClause(s, l, j, m)
    ensures forall l :: 0 <= l < k && l <= |s| ==> TailAt(BusinessPayment, s, l).None?
  {
    forall l | 0 <= l < k && l <= |s|
      ensures TailAt(BusinessPayment, s, l).None?
    {
      BusinessTailClause(s, l);
    }
  }
}

/**
 * `TransactionCategorizer.categorize_transaction`: an ordered first-match
 * rule table over the lowered (details, type_desc, type_class) of a row.
 * Each arm names a category, may set the charge flag and the subcategory,
 * and may replace the counterparty with what one of the normalisers makes
 * of it.
 */
module Classify {
  import opened Text
  import opened Wrappers
  import opened Normalise

  /** The nineteen categories, in the order the categorizer declares them. */
  datatype Category =
    | ReceivedMoney | ReceivedMoneyBusiness | Deposit | PochiIn | Reversals
    | HustlerFund | Kcb | MShwari | BusinessPaymentFromOtherSme
    | SendMoney | BusinessPaymentToCustomer | Overdraft | BuyGoodsPayments
    | PayBillPayments | Pochi | CashWithdrawals | AirtimeBundle
    | NoDetails | Uncategorized
  {
    /** The key of the category's bucket. */
    function Name(): string {
      match this
      case ReceivedMoney => "ReceivedMoney"
      case ReceivedMoneyBusiness => "ReceivedMoney_business"
      case Deposit => "Deposit"
      case PochiIn => "Pochi_in"
      case Reversals => "Reversals"
      case HustlerFund => "HustlerFund"
      case Kcb => "KCB"
      case MShwari => "MShwari"
      case BusinessPaymentFromOtherSme => "businessPayment_fromOtherSME"
      case SendMoney => "SendMoney"
      case BusinessPaymentToCustomer => "businessPayment_toCustomer"
      case Overdraft => "Overdraft"
      case BuyGoodsPayments => "BuyGoodsPayments"
      case PayBillPayments => "PayBillPayments"
      case Pochi => "Pochi"
      case CashWithdrawals => "CashWithdrawals"
      case AirtimeBundle => "airtime_bundle"
      case NoDetails => "NoDetails"
      case Uncategorized => "uncategorized"
    }

    /** The position of the category's arm in the rule table. */
    function Rank(): nat {
      match this
      case ReceivedMoney => 0
      case ReceivedMoneyBusiness => 1
      case Deposit => 2
      case PochiIn => 3
      case Reversals => 4
      case HustlerFund => 5
      case Kcb => 6
      case MShwari => 7
      case BusinessPaymentFromOtherSme => 8
      case SendMoney => 9
      case BusinessPaymentToCustomer => 10
      case Overdraft => 11
      case BuyGoodsPayments => 12
      case PayBillPayments => 13
      case Pochi => 14
      case CashWithdrawals => 15
      case AirtimeBundle => 16
      case NoDetails => 17
      case Uncategorized => 18
    }
  }

  /** The arms of the rule table, in the order they are tried. */
  const Precedence: seq<Category> := [
    ReceivedMoney, ReceivedMoneyBusiness, Deposit, PochiIn, Reversals,
    HustlerFund, Kcb, MShwari, BusinessPaymentFromOtherSme,
    SendMoney, BusinessPaymentToCustomer, Overdraft, BuyGoodsPayments,
    PayBillPayments, Pochi, CashWithdrawals, AirtimeBundle,
    NoDetails, Uncategorized
  ]

  /** The keys of `self.categories` as the constructor creates them, in order. */
  const CategoryNames: seq<string> := [
    "ReceivedMoney", "ReceivedMoney_business", "Deposit", "Pochi_in", "Reversals",
    "HustlerFund", "KCB", "MShwari", "businessPayment_fromOtherSME",
    "SendMoney", "businessPayment_toCustomer", "Overdraft", "BuyGoodsPayments",
    "PayBillPayments", "Pochi", "CashWithdrawals", "airtime_bundle",
    "NoDetails", "uncategorized"
  ]

  /** The rule table lists every category once, at its rank, and under its declared key. */
  lemma PrecedenceTable()
    ensures |Precedence| == |CategoryNames| == 19
    ensures forall c: Category :: c.Rank() < 19 && Precedence[c.Rank()] == c
    ensures forall i :: 0 <= i < 19 ==> Precedence[i].Rank() == i
    ensures forall i :: 0 <= i < 19 ==> Precedence[i].Name() == CategoryNames[i]
  {
  }

  /** No two categories share a bucket key. */
  lemma NamesDistinct()
    ensures forall i, j :: 0 <= i < j < |CategoryNames| ==> CategoryNames[i] != CategoryNames[j]
  {
  }

  /** Every category's key is one the constructor declares. */
  lemma NameDeclared(c: Category)
    ensures c.Name() in CategoryNames
    ensures CategoryNames[c.Rank()] == c.Name()
  {
    PrecedenceTable();
  }

  /** No two categories share a key. */
  lemma NameInjective(c: Category, d: Category)
    ensures c.Name() == d.Name() <==> c == d
  {
    NamesDistinct();
    NameDeclared(c);
    NameDeclared(d);
    PrecedenceTable();
    if c.Name() == d.Name() {
      assert c.Rank() == d.Rank();
      assert c == Precedence[c.Rank()];
    }
  }

  // ---------------------------------------------------------------------
  // Rows in, records out
  // ---------------------------------------------------------------------

  /**
   * One cleaned statement row. The time, amount, month and week columns are
   * only copied, so they are kept as the cells they are.
   */
  datatype Row = Row(
    receiptNo: Cell, dateTime: Cell, details: Cell, paidIn: Cell, withdrawn: Cell,
    entity: Cell, typeClass: string, typeDesc: string, month: Cell, week: Cell)

  /** `is_charge`: a boolean, or the empty string the NoDetails arm stores. */
  datatype ChargeFlag = Flag(charge: bool) | EmptyFlag

  /** `subcategory`: `None`, a string, or the empty tuple the Reversals arm stores. */
  datatype Subcategory = NoSub | Sub(tag: string) | EmptyTuple

  /** `processed_entity`: a string, or the (name, phone) pair the uncategorized arm stores. */
  datatype Entity = Name(name: string) | NamePhone(person: string, phone: string)

  /** The dictionary `categorize_transaction` returns; `account_no` only where an arm sets it. */
  datatype Classified = Classified(
    receiptNo: Cell, dateTime: Cell, details: Cell, paidIn: Cell, withdrawn: Cell,
    entity: string, typeClass: string, typeDesc: string, month: Cell, week: Cell,
    processedEntity: Entity, isCharge: ChargeFlag, category: string,
    subcategory: Subcategory, accountNo: Option<string>)

  /** The texts the rule table looks at: lowered details, type_desc and type_class. */
  datatype Key = Key(x: string, y: string, z: string)

  function KeyOf(row: Row): Key {
    Key(Lower(Str(row.details)), Lower(row.typeDesc), Lower(row.typeClass))
  }

  /** The rules see only lower-case text, so letter case in a row never changes its category. */
  lemma KeyLowered(row: Row)
    ensures var k := KeyOf(row);
      && (forall i :: 0 <= i < |k.x| ==> !IsUpper(k.x[i]))
      && (forall i :: 0 <= i < |k.y| ==> !IsUpper(k.y[i]))
      && (forall i :: 0 <= i < |k.z| ==> !IsUpper(k.z[i]))
    ensures var k := KeyOf(row);
      Lower(k.x) == k.x && Lower(k.y) == k.y && Lower(k.z) == k.z
    ensures var k := KeyOf(row);
      |k.x| == |Str(row.details)| && |k.y| == |row.typeDesc| && |k.z| == |row.typeClass|
  {
    LowerIsLower(Str(row.details));
    LowerIsLower(row.typeDesc);
    LowerIsLower(row.typeClass);
  }

  /** The condition of each arm of the `match`. */
  predicate Guard(c: Category, k: Key) {
    var (x, y, z) := (k.x, k.y, k.z);
    match c
    case ReceivedMoney => z == "funds received from"
    case ReceivedMoneyBusiness =>
      || z == "merchant customer payment from"
      || Contains(z, "salary payment from")
      || Contains(z, "promotion payment from")
      || Contains(z, "business payment from")
      || Contains(z, "funds received from business")
    case Deposit => Contains(x, "deposit of")
    case PochiIn => z == "customer payment to small" && y == "business from"
    case Reversals => Contains(x, "reversal")
    case HustlerFund => Contains(x, "term loan")
    case Kcb => Contains(x, "kcb m-pesa")
    case MShwari => Contains(x, "m-shwari")
    case BusinessPaymentFromOtherSme =>
      Contains(z, "small business transfer to") && Contains(y, "other small business from")
    case SendMoney =>
      || Contains(x, "customer transfer")
      || Contains(x, "send money")
      || Contains(x, "transfer to other small business to")
    case BusinessPaymentToCustomer => z == "small business payment to"
    case Overdraft => Contains(x, "overdraft") || Contains(x, "od loan")
    case BuyGoodsPayments => Contains(x, "merchant payment") || Contains(x, "pay merchant")
    case PayBillPayments => Contains(x, "pay bill")
    case Pochi => Contains(x, "customer payment to small business to")
    case CashWithdrawals => Contains(x, "withdrawal") && !(Prefix(y, 4) == "from")
    case AirtimeBundle => Contains(x, "airtime") || Contains(y, "bundles") || Contains(x, "bundle")
    case NoDetails => x == "nan"
    case Uncategorized => true
  }

  /** The arms from position `i` on are tried in order: where the first that matches sits. */
  function FirstMatchFrom(k: Key, i: nat): (n: nat)
    requires i < |Precedence|
    ensures i <= n < |Precedence|
    decreases |Precedence| - i
  {
    if i + 1 == |Precedence| || Guard(Precedence[i], k) then i
    else FirstMatchFrom(k, i + 1)
  }

  /** The search stops at an arm that matches. */
  lemma {:induction false} FirstMatchFromMatches(k: Key, i: nat)
    requires i < |Precedence|
    ensures Guard(Precedence[FirstMatchFrom(k, i)], k)
    decreases |Precedence| - i
  {
    if i + 1 == |Precedence| {
      assert Precedence[i] == Uncategorized;
    } else if !Guard(Precedence[i], k) {
      FirstMatchFromMatches(k, i + 1);
    }
  }

  /** The search passes only arms that do not match. */
  lemma {:induction false} FirstMatchFromSkips(k: Key, i: nat, j: nat)
    requires i <= j < |Precedence| && j < FirstMatchFrom(k, i)
    ensures !Guard(Precedence[j], k)
    decreases |Precedence| - i
  {
    if i < j {
      FirstMatchFromSkips(k, i + 1, j);
    }
  }

  /** The category the `match` statement picks. */
  function FirstMatch(k: Key): Category {
    Precedence[FirstMatchFrom(k, 0)]
  }

  /** First match wins: the chosen arm matches and no earlier arm does, and only that arm is so. */
  lemma FirstMatchIsFirst(k: Key, c: Category)
    ensures FirstMatch(k) == c <==> Guard(c, k) && forall d: Category :: d.Rank() < c.Rank() ==> !Guard(d, k)
  {
    PrecedenceTable();
    var n := FirstMatchFrom(k, 0);
    FirstMatchFromMatches(k, 0);
    forall j | 0 <= j < n
      ensures !Guard(Precedence[j], k)
    {
      FirstMatchFromSkips(k, 0, j);
    }
    assert Precedence[n].Rank() == n;
    if Guard(c, k) && forall d: Category :: d.Rank() < c.Rank() ==> !Guard(d, k) {
      assert Precedence[c.Rank()] == c;
      assert n == c.Rank();
    }
  }

  /** `entity[0:n].isnumeric()` */
  predicate NumericPrefix(entity: string, n: nat) {
    IsNumeric(Prefix(entity, n))
  }

  /** The normaliser the counterparty arms pick: masked phone for a digit, else business. */
  function Counterparty(entity: string): Result<(string, string)> {
    if NumericPrefix(entity, 1) then MaskedPhone(entity) else Ok(BusinessAndAccount(entity))
  }

  /** The record before any arm has run; `category` is filled in by the arm. */
  function Base(row: Row, c: Category): (t: Classified)
    ensures Copied(row, t) && t.category == c.Name()
    ensures t.processedEntity == Name(t.entity) && t.isCharge == Flag(false)
    ensures t.subcategory == NoSub && t.accountNo == None
  {
    var entity := Str(row.entity);
    Classified(row.receiptNo, row.dateTime, row.details, row.paidIn, row.withdrawn,
      entity, row.typeClass, row.typeDesc, row.month, row.week,
      Name(entity), Flag(false), c.Name(), NoSub, None)
  }

  /** Every column of the row reaches the record unchanged. */
  predicate Copied(row: Row, t: Classified) {
    && t.receiptNo == row.receiptNo && t.dateTime == row.dateTime
    && t.details == row.details && t.paidIn == row.paidIn && t.withdrawn == row.withdrawn
    && t.entity == Str(row.entity) && t.typeClass == row.typeClass && t.typeDesc == row.typeDesc
    && t.month == row.month && t.week == row.week
  }

  /** The arms that hand the counterparty to `Counterparty` and record an account. */
  predicate CounterpartyArm(c: Category) {
    c in {ReceivedMoney, ReceivedMoneyBusiness, PochiIn, BusinessPaymentFromOtherSme,
          BusinessPaymentToCustomer}
  }

  /** The arms that take the name half of `MaskedPhone` as the counterparty. */
  predicate MaskedNameArm(c: Category) {
    c in {SendMoney, Pochi, AirtimeBundle}
  }

  /** Whether the arm for `c` calls `MaskedPhone` on the entity. */
  predicate CallsMaskedPhone(c: Category, entity: string) {
    || (CounterpartyArm(c) && NumericPrefix(entity, 1))
    || MaskedNameArm(c)
    || (c == Uncategorized && NumericPrefix(entity, 2))
  }

  function ChargeLabel(charge: bool, otherwise: string): string {
    if charge then "charge" else otherwise
  }

  /**
   * The body of the arm for category `c`: the record it builds from the base
   * record, or the error its masked-phone split raises.
   */
  function Arm(c: Category, row: Row): (r: Result<Classified>)
    ensures r.Ok? ==> Copied(row, r.value) && r.value.category == c.Name()
  {
    var k := KeyOf(row);
    var (x, y, z) := (k.x, k.y, k.z);
    var entity := Str(row.entity);
    var t := Base(row, c);
    match c
    case ReceivedMoney | ReceivedMoneyBusiness | PochiIn | BusinessPaymentFromOtherSme
       | BusinessPaymentToCustomer =>
      (match Counterparty(entity)
       case IndexError => IndexError
       case Ok((name, account)) =>
         Ok(t.(isCharge := Flag(false), processedEntity := Name(name), accountNo := Some(account))))
    case Deposit => Ok(t.(subcategory := Sub("deposit")))
    case Reversals => Ok(t.(subcategory := EmptyTuple))
    case HustlerFund => Ok(t.(subcategory := Sub(y), isCharge := Flag(Contains(z, "charge"))))
    case Kcb => Ok(t.(subcategory := Sub(y)))
    case MShwari => Ok(t.(subcategory := Sub("mshwari")))
    case SendMoney =>
      var charge := Contains(y, "charge");
      (match MaskedPhone(entity)
       case IndexError => IndexError
       case Ok((name, _)) =>
         Ok(t.(isCharge := Flag(charge), subcategory := Sub(ChargeLabel(charge, "transfer")),
               processedEntity := Name(name))))
    case Overdraft => Ok(t.(subcategory := Sub("overdraft")))
    case BuyGoodsPayments =>
      var charge := Contains(z, "charge");
      Ok(t.(isCharge := Flag(charge), subcategory := Sub(ChargeLabel(charge, ""))))
    case PayBillPayments =>
      var charge := Contains(z, "charge");
      var (business, account) := PaybillDetails(entity);
      Ok(t.(isCharge := Flag(charge), subcategory := Sub(ChargeLabel(charge, "")),
            processedEntity := Name(business), accountNo := Some(account)))
    case Pochi =>
      (match MaskedPhone(entity)
       case IndexError => IndexError
       case Ok((name, _)) => Ok(t.(subcategory := Sub("pochi"), processedEntity := Name(name))))
    case CashWithdrawals =>
      var charge := Contains(x, "charge");
      Ok(t.(isCharge := Flag(charge), subcategory := Sub(ChargeLabel(charge, "withdrawal"))))
    case AirtimeBundle =>
      (match MaskedPhone(entity)
       case IndexError => IndexError
       case Ok((name, _)) =>
         Ok(t.(isCharge := Flag(false), subcategory := Sub("purchase"), processedEntity := Name(name))))
    case NoDetails => Ok(t.(isCharge := EmptyFlag, subcategory := Sub("")))
    case Uncategorized =>
      if NumericPrefix(entity, 2) then
        (match MaskedPhone(entity)
         case IndexError => IndexError
         case Ok((name, phone)) =>
           Ok(t.(subcategory := Sub("unknown"), processedEntity := NamePhone(name, phone))))
      else Ok(t.(subcategory := Sub("unknown"), processedEntity := Name("non")))
  }

  /**
   * `categorize_transaction`: the record built by the first arm whose guard
   * holds; it fails only where that arm splits a masked entity lacking a space.
   */
  function CategorizeTransaction(row: Row): (r: Result<Classified>)
    ensures r.Ok? ==> Copied(row, r.value) && r.value.category == FirstMatch(KeyOf(row)).Name()
    ensures r.IndexError? <==>
      var entity := Str(row.entity);
      CallsMaskedPhone(FirstMatch(KeyOf(row)), entity) && '*' in entity && ' ' !in entity
  {
    ArmRaises(FirstMatch(KeyOf(row)), row);
    Arm(FirstMatch(KeyOf(row)), row)
  }

  // ---------------------------------------------------------------------
  // What each arm promises
  // ---------------------------------------------------------------------

  /** An arm fails exactly when it splits a masked phone and the entity has `*` but no space. */
  lemma ArmRaises(c: Category, row: Row)
    ensures var entity := Str(row.entity);
      Arm(c, row).IndexError? <==> CallsMaskedPhone(c, entity) && '*' in entity && ' ' !in entity
  {
    if CounterpartyArm(c) {
      CounterpartyRaises(c, row);
    } else if MaskedNameArm(c) || c == Uncategorized {
      MaskedNameRaises(c, row);
    } else {
      PlainArmSucceeds(c, row);
    }
  }

  lemma CounterpartyRaises(c: Category, row: Row)
    requires CounterpartyArm(c)
    ensures var entity := Str(row.entity);
      Arm(c, row).IndexError? <==> CallsMaskedPhone(c, entity) && '*' in entity && ' ' !in entity
  {
    match c
    case ReceivedMoney =>
    case ReceivedMoneyBusiness =>
    case PochiIn =>
    case BusinessPaymentFromOtherSme =>
    case BusinessPaymentToCustomer =>
  }

  lemma MaskedNameRaises(c: Category, row: Row)
    requires MaskedNameArm(c) || c == Uncategorized
    ensures var entity := Str(row.entity);
      Arm(c, row).IndexError? <==> CallsMaskedPhone(c, entity) && '*' in entity && ' ' !in entity
  {
    match c
    case SendMoney =>
    case Pochi =>
    case AirtimeBundle =>
    case Uncategorized =>
  }

  /** The arms that never split a masked phone cannot fail. */
  lemma PlainArmSucceeds(c: Category, row: Row)
    requires !CounterpartyArm(c) && !MaskedNameArm(c) && c != Uncategorized
    ensures var entity := Str(row.entity);
      Arm(c, row).IndexError? <==> CallsMaskedPhone(c, entity) && '*' in entity && ' ' !in entity
  {
    match c
    case Deposit =>
    case Reversals =>
    case HustlerFund =>
    case Kcb =>
    case MShwari =>
    case Overdraft =>
    case BuyGoodsPayments =>
    case PayBillPayments =>
    case CashWithdrawals =>
    case NoDetails =>
  }

  /** Totality: every record carries one of the declared categories, and a failure needs a `*`. */
  lemma Totality(row: Row)
    ensures CategorizeTransaction(row).Ok? ==> CategorizeTransaction(row).value.category in CategoryNames
    ensures CategorizeTransaction(row).IndexError? ==> '*' in Str(row.entity)
  {
    if CategorizeTransaction(row).Ok? {
      NameDeclared(FirstMatch(KeyOf(row)));
    }
  }

  /** A type class of exactly "funds received from" is received money, whatever the details say. */
  lemma FundsReceivedFirst(k: Key)
    requires k.z == "funds received from"
    ensures FirstMatch(k) == ReceivedMoney
  {
    FirstMatchIsFirst(k, ReceivedMoney);
  }

  /** Details mentioning "pay bill" never reach the withdrawal arm or any arm after pay bill. */
  lemma PayBillBeforeWithdrawal(k: Key)
    requires Contains(k.x, "pay bill")
    ensures FirstMatch(k).Rank() <= PayBillPayments.Rank()
    ensures FirstMatch(k) != CashWithdrawals
  {
    FirstMatchIsFirst(k, FirstMatch(k));
  }

  /** With no earlier arm matching, "pay bill" in the details is a pay-bill payment. */
  lemma PayBillWhenNothingEarlier(k: Key)
    requires Contains(k.x, "pay bill")
    requires forall d: Category :: d.Rank() < PayBillPayments.Rank() ==> !Guard(d, k)
    ensures FirstMatch(k) == PayBillPayments
  {
    FirstMatchIsFirst(k, PayBillPayments);
  }

  /** Send money: a charge exactly when type_desc says "charge", labelled accordingly. */
  lemma SendMoneyCharge(row: Row)
    requires Arm(SendMoney, row).Ok?
    ensures var t := Arm(SendMoney, row).value;
      && t.isCharge.Flag?
      && (t.isCharge.charge <==> Contains(KeyOf(row).y, "charge"))
      && t.subcategory == (if t.isCharge.charge then Sub("charge") else Sub("transfer"))
      && t.processedEntity == Name(MaskedPhone(Str(row.entity)).value.0)
  {
  }

  /** Buy goods and pay bill: a charge exactly when type_class says "charge". */
  lemma MerchantCharge(c: Category, row: Row)
    requires c in {BuyGoodsPayments, PayBillPayments}
    ensures Arm(c, row).Ok?
    ensures var t := Arm(c, row).value;
      && t.isCharge.Flag?
      && (t.isCharge.charge <==> Contains(KeyOf(row).z, "charge"))
      && t.subcategory == (if t.isCharge.charge then Sub("charge") else Sub(""))
  {
  }

  /** Pay bill: the counterparty is the business and the account comes from "Acc.". */
  lemma PayBillAccount(row: Row)
    ensures Arm(PayBillPayments, row).Ok?
    ensures var t := Arm(PayBillPayments, row).value;
      var (business, account) := PaybillDetails(Str(row.entity));
      t.processedEntity == Name(business) && t.accountNo == Some(account)
  {
  }

  /** Cash withdrawals: never a type_desc starting "from"; a charge exactly when the details say so. */
  lemma WithdrawalCharge(row: Row)
    requires CategorizeTransaction(row).Ok?
    requires CategorizeTransaction(row).value.category == "CashWithdrawals"
    ensures var t := CategorizeTransaction(row).value;
      && !StartsWith(KeyOf(row).y, "from")
      && Contains(KeyOf(row).x, "withdrawal")
      && t.isCharge.Flag?
      && (t.isCharge.charge <==> Contains(KeyOf(row).x, "charge"))
      && t.subcategory == (if t.isCharge.charge then Sub("charge") else Sub("withdrawal"))
  {
    var k := KeyOf(row);
    NameInjective(FirstMatch(k), CashWithdrawals);
    assert FirstMatch(k) == CashWithdrawals;
    FirstMatchIsFirst(k, CashWithdrawals);
    assert CategorizeTransaction(row) == Arm(CashWithdrawals, row);
  }

  /** Hustler Fund: the charge flag follows "charge" in type_class; the subcategory is type_desc. */
  lemma HustlerFundCharge(row: Row)
    ensures Arm(HustlerFund, row).Ok?
    ensures var t := Arm(HustlerFund, row).value;
      && t.isCharge.Flag?
      && (t.isCharge.charge <==> Contains(KeyOf(row).z, "charge"))
      && t.subcategory == Sub(KeyOf(row).y)
  {
  }

  /** Arms that do not set the charge flag leave it False. */
  lemma ChargeDefaultKept(c: Category, row: Row)
    requires c !in {HustlerFund, SendMoney, BuyGoodsPayments, PayBillPayments, CashWithdrawals, NoDetails}
    requires Arm(c, row).Ok?
    ensures Arm(c, row).value.isCharge == Flag(false)
  {
    if CounterpartyArm(c) || c == Uncategorized {
      ChargeDefaultKeptByNormaliser(c, row);
    } else {
      ChargeDefaultKeptPlain(c, row);
    }
  }

  lemma ChargeDefaultKeptByNormaliser(c: Category, row: Row)
    requires CounterpartyArm(c) || c == Uncategorized
    requires Arm(c, row).Ok?
    ensures Arm(c, row).value.isCharge == Flag(false)
  {
    if c == Uncategorized {
      assert Arm(c, row).value.isCharge == Flag(false);
    } else {
      CounterpartyRecorded(c, row);
    }
  }

  lemma ChargeDefaultKeptPlain(c: Category, row: Row)
    requires c in {Deposit, Reversals, Kcb, MShwari, Overdraft, Pochi, AirtimeBundle}
    requires Arm(c, row).Ok?
    ensures Arm(c, row).value.isCharge == Flag(false)
  {
    match c
    case Deposit =>
    case Reversals =>
    case Kcb =>
    case MShwari =>
    case Overdraft =>
    case Pochi =>
    case AirtimeBundle =>
  }

  /** Arms that do not touch the counterparty leave it as the entity text. */
  lemma EntityDefaultKept(c: Category, row: Row)
    requires c in {Deposit, Reversals, HustlerFund, Kcb, MShwari, Overdraft, BuyGoodsPayments,
                   CashWithdrawals, NoDetails}
    ensures Arm(c, row).Ok?
    ensures Arm(c, row).value.processedEntity == Name(Str(row.entity))
  {
    match c
    case Deposit =>
    case Reversals =>
    case HustlerFund =>
    case Kcb =>
    case MShwari =>
    case Overdraft =>
    case BuyGoodsPayments =>
    case CashWithdrawals =>
    case NoDetails =>
  }

  /** Only the counterparty arms and pay bill record an account number. */
  lemma AccountOnlyWhereSet(c: Category, row: Row)
    requires Arm(c, row).Ok?
    ensures Arm(c, row).value.accountNo.Some? <==> CounterpartyArm(c) || c == PayBillPayments
  {
    if CounterpartyArm(c) || c == PayBillPayments {
      AccountSet(c, row);
    } else {
      AccountUnset(c, row);
    }
  }

  lemma AccountSet(c: Category, row: Row)
    requires CounterpartyArm(c) || c == PayBillPayments
    requires Arm(c, row).Ok?
    ensures Arm(c, row).value.accountNo.Some?
  {
    match c
    case ReceivedMoney =>
    case ReceivedMoneyBusiness =>
    case PochiIn =>
    case BusinessPaymentFromOtherSme =>
    case BusinessPaymentToCustomer =>
    case PayBillPayments =>
  }

  lemma AccountUnset(c: Category, row: Row)
    requires !CounterpartyArm(c) && c != PayBillPayments
    requires Arm(c, row).Ok?
    ensures Arm(c, row).value.accountNo == None
  {
    if MaskedNameArm(c) || c == Uncategorized {
      AccountUnsetByNormaliser(c, row);
    } else {
      AccountUnsetPlain(c, row);
    }
  }

  lemma AccountUnsetByNormaliser(c: Category, row: Row)
    requires MaskedNameArm(c) || c == Uncategorized
    requires Arm(c, row).Ok?
    ensures Arm(c, row).value.accountNo == None
  {
    match c
    case SendMoney =>
    case Pochi =>
    case AirtimeBundle =>
    case Uncategorized =>
  }

  lemma AccountUnsetPlain(c: Category, row: Row)
    requires c in {Deposit, Reversals, HustlerFund, Kcb, MShwari, Overdraft, BuyGoodsPayments,
                   CashWithdrawals, NoDetails}
    requires Arm(c, row).Ok?
    ensures Arm(c, row).value.accountNo == None
  {
    match c
    case Deposit =>
    case Reversals =>
    case HustlerFund =>
    case Kcb =>
    case MShwari =>
    case Overdraft =>
    case BuyGoodsPayments =>
    case CashWithdrawals =>
    case NoDetails =>
  }

  /** Counterparty arms: the name and account of the chosen normaliser, and never a charge. */
  lemma CounterpartyRecorded(c: Category, row: Row)
    requires CounterpartyArm(c) && Arm(c, row).Ok?
    ensures var t := Arm(c, row).value;
      var (name, account) := Counterparty(Str(row.entity)).value;
      && t.isCharge == Flag(false) && t.subcategory == NoSub
      && t.processedEntity == Name(name) && t.accountNo == Some(account)
  {
  }

  /** Details of "nan" that no earlier arm claims: no details, an empty flag and subcategory. */
  lemma MissingDetails(row: Row)
    requires KeyOf(row).x == "nan"
    requires forall d: Category :: d.Rank() < NoDetails.Rank() ==> !Guard(d, KeyOf(row))
    ensures CategorizeTransaction(row).Ok?
    ensures var t := CategorizeTransaction(row).value;
      t.category == "NoDetails" && t.isCharge == EmptyFlag && t.subcategory == Sub("")
  {
    FirstMatchIsFirst(KeyOf(row), NoDetails);
  }

  /** Uncategorized: "non" unless the entity opens with two digits, then the masked-phone pair. */
  lemma UncategorizedEntity(row: Row)
    requires Arm(Uncategorized, row).Ok?
    ensures var t := Arm(Uncategorized, row).value;
      var entity := Str(row.entity);
      && t.subcategory == Sub("unknown")
      && (!NumericPrefix(entity, 2) ==> t.processedEntity == Name("non"))
      && (NumericPrefix(entity, 2) ==>
            t.processedEntity == NamePhone(MaskedPhone(entity).value.0, MaskedPhone(entity).value.1))
  {
  }
}

# M-PESA statement categorizer — a Dafny model

This project models the core of an M-PESA statement analyser: the part that
turns the rows of a cleaned statement into categorised transactions.

- **Cleaning** (`load_wrangle.py`):
  - normalises the table's headers;
  - drops, renames and orders its columns;
  - collapses whitespace in the free-text details;
  - splits the details into a transaction type and a counterparty (the
    "entity");
  - splits the type into `type_class` (first four words) and `type_desc`
    (the rest).
- **Categorizing** (`transaction_categorizer.py`), class `TransactionCategorizer`:
  - it keeps one bucket per category;
  - `categorize_transaction` runs an ordered, first-match table of nineteen
    rules over the lowered details, type_desc and type_class;
  - each rule names a category and may set a charge flag, a subcategory and
    an account number;
  - it may clean the counterparty with one of three normalisers: a
    masked-phone splitter, a "via … is" business splitter or an "Acc."
    pay-bill splitter;
  - `categorize_transactions` files each row's record in its bucket and
    returns every bucket;
  - `get_category_summary` counts the distinct receipts and counterparties of
    each non-empty bucket.

Modules:

| file | module | what it holds |
|---|---|---|
| `wrappers.dfy` | `Wrappers` | `Option`, and `Result` (`Ok` or the `IndexError` Python raises) |
| `text.dfy` | `Text` | the Python string operations used, over ASCII: `lower`, `title`, `strip`, `in`, `split(" ")`, `" ".join`, `isnumeric`; `Cell` is a table cell that may be missing (NaN), and `str(NaN)` is `"nan"` |
| `scan.dfy` | `Scan` | explicit scanners for the three regular expressions; they follow `re.search` exactly: leftmost start, lazy group 1, `.` stops at a line feed, `$` may sit before a final line feed |
| `normalise.dfy` | `Normalise` | the three counterparty normalisers |
| `classify.dfy` | `Classify` | the rule table and `categorize_transaction` |
| `store.dfy` | `Store` | the class `TransactionCategorizer`, with its buckets as a `map` field and their key order as a `seq` field; also the pass over the rows and the summary |
| `wrangle.dfy` | `Wrangle` | header normalisation, the column rule (an imperative pipeline of loops), the details collapse, `split_details` and `split_type` |

Behaviour of the code worth knowing:

- `split_details` splits at the first separator (group 1 is lazy).
- Rule 2 tests "salary/promotion/business payment from" against type_class.
- Rule ordering and raising:
  - a row is not always categorised: a rule that calls the masked-phone splitter raises `IndexError` on an entity that holds `*` but no space;
  - `categorize_transactions` is not atomic: the rows before the failing one stay filed in the instance's buckets;
  - buckets accumulate across calls on one instance.
- Stored values:
  - the Reversals rule stores an empty tuple as subcategory;
  - the NoDetails rule stores `""` as the charge flag;
  - the fallback rule stores a (name, phone) pair as the counterparty when the entity's first two characters, or its only character, are digits.
- HustlerFund rows can be charges: `"charge" in type_class`.

## Model

| member | source | states |
|---|---|---|
| Store.TransactionCategorizer.constructor | transaction_categorizer.py:16-40 | the nineteen declared keys, in declaration order, each with an empty bucket |
| Store.TransactionCategorizer.AddCategory | transaction_categorizer.py:49-52 | a new key gets an empty bucket at the end of the key order; a known key leaves every bucket and the order unchanged (so a second call is a no-op); other buckets are never touched |
| Store.TransactionCategorizer.CategorizeTransactions | transaction_categorizer.py:320-361 | the buckets become the old buckets with each leading record appended under its category's key, in row order; it fails exactly when some row's classification fails; on success it returns every bucket in key order, empty ones included; the key order is unchanged |
| Store.TransactionCategorizer.File | transaction_categorizer.py:337-341 | one record is appended to the bucket of its key when that key exists, and nothing else changes |
| Store.TransactionCategorizer.Buckets | transaction_categorizer.py:343-350 | one output entry per key, in key order, holding that key's records |
| Store.TransactionCategorizer.GetCategorySummary | transaction_categorizer.py:363-390 | the summary rows are those of `Summary`: one per non-empty bucket, in order |
| Store.CategorizeTransactionsEfficiently | transaction_categorizer.py:394-407 | from a fresh categorizer, the i-th bucket is the i-th declared key with exactly the leading records of that key, in row order |
| Store.GetTransactionSummary | transaction_categorizer.py:410-421 | the summary of the given buckets |
| Store.FilterMembers | transaction_categorizer.py:340-341 | a record is in a key's bucket exactly when it was filed and carries that key |
| Store.FilterAppend | transaction_categorizer.py:335-341 | filing two runs of records one after the other fills each bucket with the first run's records followed by the second's |
| Store.AppendedStep | transaction_categorizer.py:340-341 | filing one more record extends exactly the bucket its category names, if that key exists |
| Store.AppendedNext | transaction_categorizer.py:335-341 | filing the rows up to i+1 is filing the rows up to i, then the i-th record |
| Store.LeadingAt | transaction_categorizer.py:335-337 | the records filed are the results of the rows before the first failure, and the first unfiled row's result is the failure |
| Store.LeadingDeclared | transaction_categorizer.py:18-40 | every filed record carries one of the nineteen declared keys |
| Store.Partition | transaction_categorizer.py:335-341 | the nineteen buckets' sizes add up to the number of records filed: every record lands in exactly one bucket |
| Store.OneBucket | transaction_categorizer.py:336-341 | a classified row is filed under a category's key exactly when that category is the row's first match |
| Store.SummaryRows | transaction_categorizer.py:377-388 | the summary has one row per non-empty bucket and no other, in bucket order |
| Store.NonEmptyMembers | transaction_categorizer.py:378 | a bucket is summarised exactly when it holds at least one record |
| Store.SummaryCounts | transaction_categorizer.py:381-385 | a summary row names its bucket; it counts at most as many distinct receipts as records, and between one and that many distinct counterparties |
| Store.EntitiesBound | transaction_categorizer.py:385 | distinct counterparties are at most the records, and at least one when there are records |
| Store.ReceiptsBound | transaction_categorizer.py:382 | distinct receipt numbers are at most the records |
| Classify.PrecedenceTable | transaction_categorizer.py:18-40 | the rule table lists each of the nineteen categories once, at its position, and under the key the constructor declares at that position |
| Classify.NamesDistinct | transaction_categorizer.py:18-40 | no two declared keys are equal |
| Classify.NameInjective | transaction_categorizer.py:18-40 | two categories share a key exactly when they are the same category |
| Classify.KeyLowered | transaction_categorizer.py:130-133 | the three texts the rules read hold no upper-case letter, are unchanged by lowering again, and keep the length of the row's text: letter case never decides a category |
| Classify.FirstMatchFromMatches | transaction_categorizer.py:156-316 | the rule the match statement stops at has a guard that holds |
| Classify.FirstMatchFromSkips | transaction_categorizer.py:156-316 | every rule passed over has a guard that fails |
| Classify.FirstMatchIsFirst | transaction_categorizer.py:156-316 | a category is chosen exactly when its guard holds and no earlier rule's guard holds (both directions) |
| Classify.Base | transaction_categorizer.py:136-151 | the base record copies every column of the row, carries the rule's key, and starts with the entity as processed entity, a false charge flag, no subcategory and no account number |
| Classify.Arm | transaction_categorizer.py:156-316 | every rule that succeeds copies the row's columns and files the record under its own key |
| Classify.CategorizeTransaction | transaction_categorizer.py:120-318 | the record copies the row and carries the first matching rule's key; it fails exactly when that rule calls the masked-phone splitter on an entity with `*` and no space |
| Classify.ArmRaises | transaction_categorizer.py:156-316 | a rule fails exactly when it calls the masked-phone splitter on an entity with `*` and no space |
| Classify.CounterpartyRaises | transaction_categorizer.py:159-257 | the same, for the five counterparty rules |
| Classify.MaskedNameRaises | transaction_categorizer.py:234-316 | the same, for SendMoney, Pochi, airtime and the fallback |
| Classify.PlainArmSucceeds | transaction_categorizer.py:188-307 | the rules that never split a masked phone never fail |
| Classify.Totality | transaction_categorizer.py:18-40 | every record carries a declared key, and a failure needs a `*` in the entity |
| Classify.FundsReceivedFirst | transaction_categorizer.py:159 | a type_class of exactly "funds received from" is ReceivedMoney, whatever else the row says |
| Classify.PayBillBeforeWithdrawal | transaction_categorizer.py:270-292 | details that mention "pay bill" are never a cash withdrawal: PayBill or an earlier rule wins |
| Classify.PayBillWhenNothingEarlier | transaction_categorizer.py:270-278 | "pay bill" details that no earlier rule claims are PayBillPayments |
| Classify.SendMoneyCharge | transaction_categorizer.py:234-246 | SendMoney is a charge exactly when type_desc says "charge"; the subcategory is "charge" or "transfer"; the counterparty is the masked-phone name |
| Classify.MerchantCharge | transaction_categorizer.py:263-275 | buy-goods and pay-bill rows are charges exactly when type_class says "charge"; the subcategory is "charge" or "" |
| Classify.PayBillAccount | transaction_categorizer.py:270-278 | a pay-bill record's counterparty and account are the pay-bill splitter's two halves |
| Classify.WithdrawalCharge | transaction_categorizer.py:287-292 | a cash withdrawal mentions "withdrawal", its type_desc does not start with "from", and it is a charge exactly when the details say "charge" |
| Classify.HustlerFundCharge | transaction_categorizer.py:207-210 | HustlerFund is a charge exactly when type_class says "charge", and its subcategory is the type_desc |
| Classify.ChargeDefaultKept | transaction_categorizer.py:148 | the rules that set the charge flag to nothing but False, or leave it at its default, give False |
| Classify.ChargeDefaultKeptByNormaliser | transaction_categorizer.py:159-316 | the flag is False for the counterparty rules, which set it to False, and for the fallback, which keeps the default |
| Classify.ChargeDefaultKeptPlain | transaction_categorizer.py:188-300 | the flag is False for the seven other such rules, airtime among them, which sets it to False |
| Classify.EntityDefaultKept | transaction_categorizer.py:147 | the nine rules that do not clean the counterparty keep the raw entity text |
| Classify.AccountOnlyWhereSet | transaction_categorizer.py:136-278 | a record has an account number exactly when it comes from a counterparty rule or the pay-bill rule |
| Classify.AccountSet | transaction_categorizer.py:159-278 | the counterparty rules and the pay-bill rule set an account |
| Classify.AccountUnset | transaction_categorizer.py:188-316 | every other rule leaves the account unset |
| Classify.AccountUnsetByNormaliser | transaction_categorizer.py:234-316 | the same, for the rules that call only the masked-phone splitter |
| Classify.AccountUnsetPlain | transaction_categorizer.py:188-307 | the same, for the nine rules that call no splitter |
| Classify.CounterpartyRecorded | transaction_categorizer.py:159-169 | a counterparty rule records the splitter's name and account, a false charge flag and no subcategory |
| Classify.MissingDetails | transaction_categorizer.py:303-307 | details of "nan" that no earlier rule claims are NoDetails, with the flag `""` and subcategory `""` |
| Classify.UncategorizedEntity | transaction_categorizer.py:309-316 | the fallback's subcategory is "unknown"; its counterparty is "non", or the masked-phone pair when the entity's first two characters, or its only character, are digits |
| Normalise.MaskedPhone | transaction_categorizer.py:54-73 | fails exactly when the entity has `*` and no space; the empty entity is returned as it is; an unmasked entity comes back title-cased with an empty phone |
| Normalise.MaskedPhoneTitled | transaction_categorizer.py:71-73 | both halves come out title-cased |
| Normalise.MaskedPhoneRejoins | transaction_categorizer.py:68-71 | a masked entity with a space is phone, one space, name: the phone has no space, and rejoining the halves gives the entity, up to case |
| Normalise.UnmaskedKeepsText | transaction_categorizer.py:73 | without a mask the name is the entity, up to case, and the phone is empty |
| Normalise.SearchAlwaysMatches | transaction_categorizer.py:44-47 | the business and pay-bill patterns, having a `$` alternative, match every string |
| Normalise.BusinessAndAccount | transaction_categorizer.py:84-85 | the empty entity comes back unchanged, with an empty extra |
| Normalise.BusinessFirstClause | transaction_categorizer.py:88-94 | with a first "\s+via … is\s+" clause (any case) at k, the business is the stripped text before k, and the extra is the stripped text after the first "is" |
| Normalise.BusinessNoClause | transaction_categorizer.py:88-96 | without such a clause, the business is the stripped entity and the extra is empty |
| Normalise.PaybillDetails | transaction_categorizer.py:108-109 | the empty entity comes back unchanged, with an empty account |
| Normalise.PaybillFirstMarker | transaction_categorizer.py:111-116 | with a first "\s+Acc.\s+" at k, the business is the stripped text before k and the account the stripped text after the marker |
| Normalise.PaybillNoMarker | transaction_categorizer.py:111-116 | without the marker, the business is the stripped entity and the account is empty |
| Normalise.NormalisersSingleLine | transaction_categorizer.py:88-116 | on one line, both splitters return one-line texts |
| Normalise.StripEmptyGroup | transaction_categorizer.py:91-92 | the `if match.group(n) else ""` guard agrees with stripping |
| Scan.SeparatorTail | load_wrangle.py:98 | a standalone hyphen separator at k makes the pattern's tail match at k, with group 2 starting after it |
| Scan.TailSeparator | load_wrangle.py:98 | the tail matches at k only at such a separator |
| Scan.FirstTailGroups | load_wrangle.py:98-102 | on one line, group 1 runs from the start to the first place the tail matches, and group 2 runs from there to the end |
| Scan.SearchFailsWithoutTail | load_wrangle.py:98-99 | with no tail anywhere, the search finds nothing |
| Wrangle.RemoveWhitespace | load_wrangle.py:76 | the result holds no whitespace |
| Wrangle.RemoveWhitespaceAppend | load_wrangle.py:76 | removal works piece by piece: the text of a concatenation is the texts of its parts, in order |
| Wrangle.RemoveWhitespaceCount | load_wrangle.py:76 | every character that is not whitespace survives exactly as often as it occurs |
| Wrangle.RemoveWhitespaceTrimStart | load_wrangle.py:73-76 | stripping leading whitespace first makes no difference |
| Wrangle.RemoveWhitespaceOfClean | load_wrangle.py:76 | a text without whitespace is left as it is |
| Wrangle.HeaderShape | load_wrangle.py:72-76 | a normalised header is lower case and has no whitespace |
| Wrangle.HeaderIdempotent | load_wrangle.py:72-76 | normalising a normalised header changes nothing |
| Wrangle.StandardName | load_wrangle.py:166-178 | every standard name a header can get is one of the kept columns |
| Wrangle.CleanColumns | load_wrangle.py:157-185 | the columns kept are the expected ones, renamed by their first passing test, selected in the fixed keep order |
| Wrangle.DropUnexpected | load_wrangle.py:158-163 | exactly the columns whose header is expected survive, in table order |
| Wrangle.BuildMapping | load_wrangle.py:166-178 | the mapping sends each header to the name its first passing test gives; it holds every surviving header that some test renames, and no key that is not a surviving header |
| Wrangle.ApplyMapping | load_wrangle.py:181 | a header the mapping holds is replaced, any other is kept |
| Wrangle.MappingRenames | load_wrangle.py:166-181 | renaming by the mapping is renaming each header by its first passing test |
| Wrangle.KeepStandard | load_wrangle.py:184-185 | the kept columns are those labelled with each standard name, in the fixed order |
| Wrangle.SelectLabel | load_wrangle.py:185 | selecting a label gives every column with that label, in table order |
| Wrangle.LabelledMembers | load_wrangle.py:185 | a column is selected under a label exactly when it has that label |
| Wrangle.SelectedMembers | load_wrangle.py:184-185 | a column is kept exactly when its label is a standard name |
| Wrangle.SurvivorMembers | load_wrangle.py:158-163 | a column survives exactly when its header is expected |
| Wrangle.CleanedSound | load_wrangle.py:158-185 | every kept column is an expected column of the table, under the name its header's first passing test gives |
| Wrangle.CleanedComplete | load_wrangle.py:158-185 | every expected column that some test renames is kept, under that name |
| Wrangle.UnrenamedNotKept | load_wrangle.py:158-185 | an expected header that no test renames is dropped at the end |
| Wrangle.ReceiptNames | load_wrangle.py:169-170 | both receipt headers become receipt_no |
| Wrangle.CompletionTimeName | load_wrangle.py:171-172 | the completion time becomes date_time |
| Wrangle.DetailsName | load_wrangle.py:173-174 | details stays details |
| Wrangle.PaidInName | load_wrangle.py:175-176 | paid in becomes paid_in |
| Wrangle.WithdrawnName | load_wrangle.py:177-178 | withdrawn stays withdrawn |
| Wrangle.WithdrawName | load_wrangle.py:177-178 | withdraw becomes withdrawn, through the "withdr" test |
| Wrangle.TransactionStatusName | load_wrangle.py:169-178 | no test renames the transaction status |
| Wrangle.StatementColumns | load_wrangle.py:158-185 | a statement's normalised header row comes out as receipt_no, date_time, details, paid_in, withdrawn, and the status column is gone |
| Wrangle.CollapseWhitespace | load_wrangle.py:211 | the collapsed details use only the plain space as whitespace, never two in a row; they are empty only if the input is; they start with whitespace exactly when the input does; once whitespace is removed they equal the input with whitespace removed, so every other character survives, in order |
| Wrangle.CollapseClean | load_wrangle.py:211 | details without whitespace come through unchanged |
| Wrangle.CollapseAfterWord | load_wrangle.py:211 | text that ends in a non-whitespace character collapses independently of what follows it |
| Wrangle.CollapseRun | load_wrangle.py:211 | a non-empty run of whitespace between two words, or at either end, becomes exactly one space, and the text on each side collapses on its own |
| Wrangle.CollapsedSingleLine | load_wrangle.py:211 | collapsed details have no line feed |
| Wrangle.SplitDetailsFirstSeparator | load_wrangle.py:88-102 | on one line with a first separator at k, the type is the stripped text before k and the entity is the stripped text after the separator |
| Wrangle.FirstSeparatorGroups | load_wrangle.py:98-99 | the pattern's groups are the text before the first separator and the text after it |
| Wrangle.SplitDetailsNoSeparator | load_wrangle.py:98-104 | without a separator the cell comes back twice, unchanged and unstripped |
| Wrangle.HyphenInWord | load_wrangle.py:98 | a hyphen right after a non-space character never separates |
| Wrangle.SplitDetailsMissing | load_wrangle.py:99-104 | missing details stay missing in both halves |
| Wrangle.SplitType | load_wrangle.py:117-118 | a missing type gives two empty strings |
| Wrangle.SplitTypeRejoins | load_wrangle.py:120-123 | a type of more than four pieces is type_class, one space and type_desc; a shorter type is all type_class, with an empty type_desc |
| Wrangle.TypeClassPieces | load_wrangle.py:120-122 | type_class is exactly the first four pieces, or fewer, and type_desc the rest |
| Wrangle.MissingDetailsColumns | load_wrangle.py:211-220 | a row without details gets a missing entity and empty type columns |
| Wrangle.MissingDetailsRow | load_wrangle.py:211-220 | such a row, once categorised, is filed under NoDetails |

## Left out

- Printing, logging and building pandas DataFrames: buckets are sequences of records, and the dictionary returned is a sequence of (key, records) pairs in key order.
- `get_category_summary`'s money totals (floating-point sums) and its date range are not modelled; its counting columns are. So the model does not capture the `ValueError` the source raises at `transaction_categorizer.py:386` on a bucket whose `date_time` values are all NaT, which the `errors="coerce"` date conversion can produce: GetCategorySummary always returns.
- The `pd.isna(entity)` halves of the normalisers' guards are not modelled: the categorizer only passes `str(...)`, so those halves never fire.
- `load_pdf_data` is not part of this model:
  - reading the PDF with tabula;
  - choosing the tables by `EXPECTED_COLUMNS`;
  - concatenating them.
  Its header normalisation (lines 72-76) is modelled.
- `clean_data` steps 4 and 6 are not part of this model:
  - the numeric and date conversions of the receipt, amount and time columns;
  - the month and week labels.
  Those columns are carried as opaque cells.
- Text handling is ASCII only: `lower`, `title`, `isspace`, `isnumeric` and `\s` follow ASCII rules, with no Unicode case mapping.
- The other files are not part of this model: `efficient_analysis.py`, `m_top.py`, `ui_components.py` and `visualize.py`.
- Wrangle.SplitDetails: group 2 always takes part in a match of the separator pattern, so its "missing group" case, written as an empty string, never occurs.
- Normalise.BusinessFirstClause: requires single-line text, so its result is stated only for such text, which is what the collapse at `load_wrangle.py:211` produces. On text with a line feed the scanner still follows `re.search`, but no lemma describes the result; there `.` cannot cross a line feed that is not the final one, so the search may start after it.
- Normalise.BusinessNoClause: requires single-line text, so its result is stated only for such text, which is what the collapse at `load_wrangle.py:211` produces. On text with a line feed the scanner still follows `re.search`, but no lemma describes the result; the source returns ("cd", "") on "ab\ncd", not the stripped text, because `.` cannot cross a line feed that is not the final one.
- Normalise.PaybillFirstMarker: requires single-line text, so its result is stated only for such text, which is what the collapse at `load_wrangle.py:211` produces. On text with a line feed the scanner still follows `re.search`, but no lemma describes the result; there `.` cannot cross a line feed that is not the final one, so the search may start after it.
- Normalise.PaybillNoMarker: requires single-line text, so its result is stated only for such text, which is what the collapse at `load_wrangle.py:211` produces. On text with a line feed the scanner still follows `re.search`, but no lemma describes the result; the source returns ("cd", "") on "ab\ncd", not the stripped text, because `.` cannot cross a line feed that is not the final one.
- Scan.FirstTailGroups: requires single-line text, so its result is stated only for such text, which is what the collapse at `load_wrangle.py:211` produces. On text with a line feed the scanner still follows `re.search`, but no lemma describes the result; there group 2 stops at the first line feed.
- Wrangle.FirstSeparatorGroups: requires single-line text, so its result is stated only for such text, which is what the collapse at `load_wrangle.py:211` produces. On text with a line feed the scanner still follows `re.search`, but no lemma describes the result; there group 2 stops at the first line feed.
- Wrangle.SplitDetailsFirstSeparator: requires single-line text, so its result is stated only for such text, which is what the collapse at `load_wrangle.py:211` produces. On text with a line feed the scanner still follows `re.search`, but no lemma describes the result; there the entity stops at the first line feed.
- Wrangle.StandardName: the concrete header results are proved for the eight expected headers only.

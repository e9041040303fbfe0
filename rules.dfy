/**
 * The two validation schemas of the checkout wizard and the way their
 * results reach the error map (components/CryptoCheckoutModal.tsx).
 *
 * A schema is stated as the list of failure details it reports, one per
 * failing rule, in rule order (validation does not stop at the first
 * failure). The validation effect folds that list into a field-to-error map,
 * the last detail for a field winning, and merges the map into the wizard's
 * errors, rewriting only its own step's keys. Errors are abstract codes; a
 * key that the source sets to `undefined` is an absent key here.
 */
module Rules {
  import opened Wrappers
  import opened Data
  import opened CurrencyInput
  import opened Amount

  /** Field-level failures, one per rule of the two schemas. */
  datatype ErrorCode =
    | AmountNotNumber     // amountPay: not a number (the parse gave NaN)
    | AmountNotPositive   // amountPay: not greater than 0
    | WalletMissing       // selectedWallet: no object selected
    | PayToMissing        // selectedPayToBank: no object selected
    | BankMissing         // recipientBank: no object selected
    | AccountEmpty        // accountNumber: empty string
    | AccountNotDigits    // accountNumber: does not match ^\d+$
    | AccountTooShort     // accountNumber: fewer than 10 characters

  /** The validated fields; they key both the error map and the touched map. */
  datatype Field = AmountPay | SelectedWallet | SelectedPayToBank | RecipientBank | AccountNumber

  /** The key under which the source stores a field. */
  function Key(f: Field): string
  {
    match f
    case AmountPay => "amountPay"
    case SelectedWallet => "selectedWallet"
    case SelectedPayToBank => "selectedPayToBank"
    case RecipientBank => "recipientBank"
    case AccountNumber => "accountNumber"
  }

  /** Distinct fields have distinct keys, so a field-keyed map is the source's string-keyed object. */
  lemma KeyInjective(f: Field, g: Field)
    ensures Key(f) == Key(g) <==> f == g
  {
  }

  /** One entry of a validation error's `details`: the field it is about (`path[0]`) and its failure. */
  datatype Detail = Detail(path: Field, code: ErrorCode)

  const Step1Keys: set<Field> := {AmountPay, SelectedWallet, SelectedPayToBank}
  const Step2Keys: set<Field> := {RecipientBank, AccountNumber}

  /** The least length the account number rule asks for. */
  const AccountMinLength := 10

  function Lookup<K, V>(m: map<K, V>, k: K): Option<V>
  {
    if k in m then Some(m[k]) else None
  }

  /** Every character is a digit: the string matches ^\d+$ once it is non-empty. */
  predicate AllDigits(s: string)
  {
    forall i :: 0 <= i < |s| ==> IsDigit(s[i])
  }

  /**
   * The JavaScript `length` of a string: its count of UTF-16 code units, two
   * for a character above U+FFFF. Joi's `min` rule compares this length.
   */
  function Utf16Length(s: string): nat
  {
    if s == [] then 0 else (if s[0] as int > 0xFFFF then 2 else 1) + Utf16Length(s[1..])
  }

  /** A string of ASCII digits has one code unit per character. */
  lemma {:induction false} DigitsUtf16Length(s: string)
    ensures AllDigits(s) ==> Utf16Length(s) == |s|
  {
    if s != [] && AllDigits(s) {
      assert forall j :: 0 <= j < |s[1..]| ==> s[1..][j] == s[j + 1];
      DigitsUtf16Length(s[1..]);
    }
  }

  /** Every character has one or two code units. */
  lemma {:induction false} Utf16LengthAtLeast(s: string)
    ensures |s| <= Utf16Length(s) <= 2 * |s|
  {
    if s != [] {
      Utf16LengthAtLeast(s[1..]);
    }
  }

  /** The account number matches ^\d{10,}$. */
  predicate AccountNumberOk(s: string)
  {
    AllDigits(s) && |s| >= AccountMinLength
  }

  /** The details a rule reports: none when it passes, one for `field` when it fails. */
  function Report(field: Field, e: Option<ErrorCode>): seq<Detail>
  {
    if e.Some? then [Detail(field, e.value)] else []
  }

  /** The details of the step-1 schema, in rule order: amount greater than 0, wallet present, payment method present. */
  function Step1Details(amount: string, wallet: Option<Item>, payTo: Option<Item>): seq<Detail>
    requires Accepted(amount)
  {
    Report(AmountPay, AmountError(amount))
    + Report(SelectedWallet, Required(wallet, WalletMissing))
    + Report(SelectedPayToBank, Required(payTo, PayToMissing))
  }

  /** The account number's details: "empty" alone, or the pattern failure followed by the length failure. */
  function AccountDetails(account: string): seq<Detail>
  {
    if account == "" then [Detail(AccountNumber, AccountEmpty)]
    else (if !AllDigits(account) then [Detail(AccountNumber, AccountNotDigits)] else [])
         + (if Utf16Length(account) < AccountMinLength then [Detail(AccountNumber, AccountTooShort)] else [])
  }

  /**
   * The details of the step-2 schema: bank present; account number non-empty,
   * then the digit pattern and the minimum length, each reported when it fails.
   */
  function Step2Details(bank: Option<Item>, account: string): seq<Detail>
  {
    Report(RecipientBank, Required(bank, BankMissing)) + AccountDetails(account)
  }

  /** The map the `forEach` over `details` builds: each field bound to the code of its last detail. */
  function LastByPath(details: seq<Detail>): map<Field, ErrorCode>
  {
    if details == [] then map[]
    else
      var d := details[|details| - 1];
      var m := LastByPath(details[..|details| - 1]);
      m[d.path := d.code]
  }

  /**
   * A field has an entry exactly when some detail names it, and the entry is
   * the code of the last detail that does.
   */
  lemma {:induction false} LastByPathMeans(details: seq<Detail>, k: Field)
    ensures k in LastByPath(details) <==> exists i :: 0 <= i < |details| && details[i].path == k
    ensures k in LastByPath(details) ==>
      exists i :: 0 <= i < |details| && details[i].path == k && LastByPath(details)[k] == details[i].code &&
        forall j :: i < j < |details| ==> details[j].path != k
  {
    if details != [] {
      var n := |details| - 1;
      var init := details[..n];
      LastByPathMeans(init, k);
      assert forall i :: 0 <= i < n ==> init[i] == details[i];
      if k in LastByPath(details) && details[n].path != k {
        var i :| 0 <= i < |init| && init[i].path == k && LastByPath(init)[k] == init[i].code &&
          forall j :: i < j < |init| ==> init[j].path != k;
        assert details[i].path == k;
      }
    }
  }

  /** Folding a concatenation: the later part's entries override the earlier part's. */
  lemma {:induction false} LastByPathAppend(a: seq<Detail>, b: seq<Detail>)
    ensures LastByPath(a + b) == LastByPath(a) + LastByPath(b)
    decreases |b|
  {
    if b == [] {
      assert a + b == a;
    } else {
      var n := |b| - 1;
      LastByPathAppend(a, b[..n]);
      assert (a + b)[..|a + b| - 1] == a + b[..n];
      assert (a + b)[|a + b| - 1] == b[n];
    }
  }

  /** One detail gives one entry. */
  lemma LastByPathSingle(d: Detail)
    ensures LastByPath([d]) == map[d.path := d.code]
  {
    assert [d][..0] == [];
  }

  /**
   * The `forEach` loop of a validation effect: `newErrors[detail.path[0]] =
   * detail.message` for every detail in turn. (The source skips a detail with
   * an empty path; an object schema's details always name one of its fields.)
   */
  method CollectErrors(details: seq<Detail>) returns (newErrors: map<Field, ErrorCode>)
    ensures newErrors == LastByPath(details)
  {
    newErrors := map[];
    for i := 0 to |details|
      invariant newErrors == LastByPath(details[..i])
    {
      var d := details[i];
      assert details[..i + 1][..i] == details[..i];
      newErrors := newErrors[d.path := d.code];
    }
    assert details[..|details|] == details;
  }

  /**
   * The wizard's `errors` object. Only the five fields are ever written to it,
   * and a field set to `undefined` reads like an absent one, so it is a record
   * holding one optional failure per field.
   */
  datatype ErrorTable = ErrorTable(
    amountPay: Option<ErrorCode>,
    selectedWallet: Option<ErrorCode>,
    selectedPayToBank: Option<ErrorCode>,
    recipientBank: Option<ErrorCode>,
    accountNumber: Option<ErrorCode>)

  /** The initial `{}`. */
  const NoErrors := ErrorTable(None, None, None, None, None)

  /** `errors[field]`. */
  function Get(t: ErrorTable, f: Field): Option<ErrorCode>
  {
    match f
    case AmountPay => t.amountPay
    case SelectedWallet => t.selectedWallet
    case SelectedPayToBank => t.selectedPayToBank
    case RecipientBank => t.recipientBank
    case AccountNumber => t.accountNumber
  }

  /** The step-1 update `{...prev, amountPay: newErrors.amountPay, selectedWallet: .., selectedPayToBank: ..}`. */
  function MergeStep1(prev: ErrorTable, update: map<Field, ErrorCode>): ErrorTable
  {
    prev.(amountPay := Lookup(update, AmountPay),
          selectedWallet := Lookup(update, SelectedWallet),
          selectedPayToBank := Lookup(update, SelectedPayToBank))
  }

  /** The step-2 update `{...prev, recipientBank: newErrors.recipientBank, accountNumber: ..}`. */
  function MergeStep2(prev: ErrorTable, update: map<Field, ErrorCode>): ErrorTable
  {
    prev.(recipientBank := Lookup(update, RecipientBank),
          accountNumber := Lookup(update, AccountNumber))
  }

  /** A step's update rewrites exactly that step's fields, from `update`, and keeps every other field of `prev`. */
  lemma MergeLookup(prev: ErrorTable, update: map<Field, ErrorCode>, k: Field)
    ensures Get(MergeStep1(prev, update), k) == if k in Step1Keys then Lookup(update, k) else Get(prev, k)
    ensures Get(MergeStep2(prev, update), k) == if k in Step2Keys then Lookup(update, k) else Get(prev, k)
  {
  }

  /** The amount's failure: "not a number" when the parse gives NaN, else "not greater than 0" when it is not positive. */
  function AmountError(amount: string): Option<ErrorCode>
    requires Accepted(amount)
  {
    if Parse(amount).NaN? then Some(AmountNotNumber)
    else if !Positive(amount) then Some(AmountNotPositive)
    else None
  }

  /** The amount fails exactly when it has no digit other than '0', and is "not a number" exactly when it has no digit. */
  lemma AmountErrorIff(amount: string)
    requires Accepted(amount)
    ensures AmountError(amount).Some? <==> !HasNonZeroDigit(amount)
    ensures AmountError(amount) == Some(AmountNotNumber) <==> !HasDigit(amount)
  {
    ParseNaNIff(amount);
    ParsePositiveIff(amount);
  }

  /** The failure of a required selection: `code` when nothing is selected. */
  function Required(selection: Option<Item>, code: ErrorCode): (e: Option<ErrorCode>)
    ensures e.Some? <==> selection.None?
    ensures e.Some? ==> e.value == code
  {
    if selection.None? then Some(code) else None
  }

  /**
   * The account number's stored failure, the last one reported: "empty" for
   * "", else "too short" whenever its JavaScript length is below 10 (even
   * when the pattern fails too), else "not digits".
   */
  function AccountError(account: string): (e: Option<ErrorCode>)
    ensures e.Some? <==> !AccountNumberOk(account)
    ensures e == Some(AccountEmpty) <==> account == ""
    ensures e == Some(AccountTooShort) <==> account != "" && Utf16Length(account) < AccountMinLength
    ensures e == Some(AccountNotDigits) <==> Utf16Length(account) >= AccountMinLength && !AllDigits(account)
  {
    DigitsUtf16Length(account);
    if account == "" then Some(AccountEmpty)
    else if Utf16Length(account) < AccountMinLength then Some(AccountTooShort)
    else if !AllDigits(account) then Some(AccountNotDigits)
    else None
  }

  /** The map holding one entry for `field` when there is a failure, and none otherwise. */
  function Entry(field: Field, e: Option<ErrorCode>): map<Field, ErrorCode>
  {
    if e.Some? then map[field := e.value] else map[]
  }

  /** The errors the step-1 schema reports, field by field. */
  function Step1Errors(amount: string, wallet: Option<Item>, payTo: Option<Item>): map<Field, ErrorCode>
    requires Accepted(amount)
  {
    Entry(AmountPay, AmountError(amount))
    + Entry(SelectedWallet, Required(wallet, WalletMissing))
    + Entry(SelectedPayToBank, Required(payTo, PayToMissing))
  }

  /** The errors the step-2 schema reports, field by field. */
  function Step2Errors(bank: Option<Item>, account: string): map<Field, ErrorCode>
  {
    Entry(RecipientBank, Required(bank, BankMissing)) + Entry(AccountNumber, AccountError(account))
  }

  /** The step-1 map holds each step-1 rule's failure under its field, and nothing else. */
  lemma Step1ErrorsAt(amount: string, wallet: Option<Item>, payTo: Option<Item>)
    requires Accepted(amount)
    ensures Lookup(Step1Errors(amount, wallet, payTo), AmountPay) == AmountError(amount)
    ensures Lookup(Step1Errors(amount, wallet, payTo), SelectedWallet) == Required(wallet, WalletMissing)
    ensures Lookup(Step1Errors(amount, wallet, payTo), SelectedPayToBank) == Required(payTo, PayToMissing)
    ensures Step1Errors(amount, wallet, payTo).Keys <= Step1Keys
  {
  }

  /** The step-2 map holds each step-2 rule's failure under its field, and nothing else. */
  lemma Step2ErrorsAt(bank: Option<Item>, account: string)
    ensures Lookup(Step2Errors(bank, account), RecipientBank) == Required(bank, BankMissing)
    ensures Lookup(Step2Errors(bank, account), AccountNumber) == AccountError(account)
    ensures Step2Errors(bank, account).Keys <= Step2Keys
  {
  }

  /** The whole error table once both validation effects have run on the current fields. */
  function Errors(amount: string, wallet: Option<Item>, payTo: Option<Item>, bank: Option<Item>, account: string): ErrorTable
    requires Accepted(amount)
  {
    ErrorTable(AmountError(amount), Required(wallet, WalletMissing), Required(payTo, PayToMissing),
               Required(bank, BankMissing), AccountError(account))
  }

  /** Folding one rule's details gives that rule's entry. */
  lemma LastByPathReport(field: Field, e: Option<ErrorCode>)
    ensures LastByPath(Report(field, e)) == Entry(field, e)
  {
    if e.Some? {
      LastByPathSingle(Detail(field, e.value));
    }
  }

  /** Folding the step-1 details gives the field-by-field errors: each rule writes only its own field. */
  lemma Step1Collected(amount: string, wallet: Option<Item>, payTo: Option<Item>)
    requires Accepted(amount)
    ensures LastByPath(Step1Details(amount, wallet, payTo)) == Step1Errors(amount, wallet, payTo)
  {
    var a := Report(AmountPay, AmountError(amount));
    var w := Report(SelectedWallet, Required(wallet, WalletMissing));
    var p := Report(SelectedPayToBank, Required(payTo, PayToMissing));
    LastByPathAppend(a + w, p);
    LastByPathAppend(a, w);
    LastByPathReport(AmountPay, AmountError(amount));
    LastByPathReport(SelectedWallet, Required(wallet, WalletMissing));
    LastByPathReport(SelectedPayToBank, Required(payTo, PayToMissing));
  }

  /** Folding the account number's details keeps its last failure. */
  lemma AccountCollected(account: string)
    ensures LastByPath(AccountDetails(account)) == Entry(AccountNumber, AccountError(account))
  {
    if account == "" {
      LastByPathSingle(Detail(AccountNumber, AccountEmpty));
    } else {
      var pattern := if !AllDigits(account) then Some(AccountNotDigits) else None;
      var min := if Utf16Length(account) < AccountMinLength then Some(AccountTooShort) else None;
      assert AccountDetails(account) == Report(AccountNumber, pattern) + Report(AccountNumber, min);
      LastByPathAppend(Report(AccountNumber, pattern), Report(AccountNumber, min));
      LastByPathReport(AccountNumber, pattern);
      LastByPathReport(AccountNumber, min);
    }
  }

  /** Folding the step-2 details gives the field-by-field errors. */
  lemma Step2Collected(bank: Option<Item>, account: string)
    ensures LastByPath(Step2Details(bank, account)) == Step2Errors(bank, account)
  {
    var b := Report(RecipientBank, Required(bank, BankMissing));
    LastByPathAppend(b, AccountDetails(account));
    LastByPathReport(RecipientBank, Required(bank, BankMissing));
    AccountCollected(account);
  }

  /** "12345" fails on the minimum length, and so does "12ab", as that detail comes last. */
  lemma Step2Examples(bank: Option<Item>)
    ensures Lookup(Step2Errors(bank, "12345"), AccountNumber) == Some(AccountTooShort)
    ensures Lookup(Step2Errors(bank, "12ab"), AccountNumber) == Some(AccountTooShort)
  {
    Step2ErrorsAt(bank, "12345");
    Step2ErrorsAt(bank, "12ab");
    Utf16LengthAtLeast("12345");
    Utf16LengthAtLeast("12ab");
  }

  /** A long string with a letter fails the pattern. */
  lemma Step2LongExamples(bank: Option<Item>)
    ensures Lookup(Step2Errors(bank, "abcdefghijk"), AccountNumber) == Some(AccountNotDigits)
  {
    assert !IsDigit("abcdefghijk"[0]);
    Utf16LengthAtLeast("abcdefghijk");
    Step2ErrorsAt(bank, "abcdefghijk");
  }

  /** Ten digits pass the step-2 account rules. */
  lemma Step2DigitsPass(bank: Option<Item>)
    ensures AccountNumber !in Step2Errors(bank, "0123456789")
  {
    assert AllDigits("0123456789") by {
      assert forall i :: 0 <= i < 10 ==> IsDigit("0123456789"[i]);
    }
    Step2ErrorsAt(bank, "0123456789");
  }

  /**
   * Five emoji are ten UTF-16 code units, so the length rule passes and only
   * the pattern failure is stored.
   */
  lemma AccountLengthInCodeUnits()
    ensures Lookup(Step2Errors(None, "\U{1F600}\U{1F600}\U{1F600}\U{1F600}\U{1F600}"), AccountNumber) == Some(AccountNotDigits)
  {
    var s := "\U{1F600}\U{1F600}\U{1F600}\U{1F600}\U{1F600}";
    assert s[1..][1..][1..][1..][1..] == [];
    assert Utf16Length(s) == 10;
    assert !IsDigit(s[0]);
  }

  /** A step-1 pass over the current step-1 fields leaves the table equal to both validators' output. */
  lemma RefreshStep1(a0: string, w0: Option<Item>, p0: Option<Item>,
                     a: string, w: Option<Item>, p: Option<Item>, bank: Option<Item>, account: string)
    requires Accepted(a0) && Accepted(a)
    ensures MergeStep1(Errors(a0, w0, p0, bank, account), Step1Errors(a, w, p)) == Errors(a, w, p, bank, account)
  {
    Step1ErrorsAt(a, w, p);
  }

  /** A step-2 pass over the current step-2 fields leaves the table equal to both validators' output. */
  lemma RefreshStep2(b0: Option<Item>, n0: string,
                     a: string, w: Option<Item>, p: Option<Item>, bank: Option<Item>, account: string)
    requires Accepted(a)
    ensures MergeStep2(Errors(a, w, p, b0, n0), Step2Errors(bank, account)) == Errors(a, w, p, bank, account)
  {
    Step2ErrorsAt(bank, account);
  }

  /** Both passes over the initial `{}`, as on mount, give the whole error table. */
  lemma PassesFromEmpty(a: string, w: Option<Item>, p: Option<Item>, bank: Option<Item>, account: string)
    requires Accepted(a)
    ensures MergeStep2(MergeStep1(NoErrors, Step1Errors(a, w, p)), Step2Errors(bank, account)) == Errors(a, w, p, bank, account)
  {
    Step1ErrorsAt(a, w, p);
    Step2ErrorsAt(bank, account);
  }

  /** With the default amount and nothing chosen, every field but the amount fails. */
  lemma DefaultErrors()
    ensures Accepted("0.10")
    ensures Errors("0.10", None, None, None, "") ==
      ErrorTable(None, Some(WalletMissing), Some(PayToMissing), Some(BankMissing), Some(AccountEmpty))
  {
    ParseDefault();
    AmountErrorIff("0.10");
    assert '1' <= "0.10"[2] <= '9';
  }

  /** The two passes rewrite disjoint fields, so they commute. */
  lemma MergesCommute(e: ErrorTable, f1: map<Field, ErrorCode>, f2: map<Field, ErrorCode>)
    ensures MergeStep2(MergeStep1(e, f1), f2) == MergeStep1(MergeStep2(e, f2), f1)
  {
  }

  /** `isStep1Valid`: no step-1 error and both step-1 selections made. */
  predicate Step1Ready(errors: ErrorTable, wallet: Option<Item>, payTo: Option<Item>)
  {
    errors.amountPay.None? && errors.selectedWallet.None? && errors.selectedPayToBank.None? && wallet.Some? && payTo.Some?
  }

  /** `isStep2Valid`: no step-2 error, a bank selected and a non-empty account number. */
  predicate Step2Ready(errors: ErrorTable, bank: Option<Item>, account: string)
  {
    errors.recipientBank.None? && errors.accountNumber.None? && bank.Some? && account != ""
  }

  /** On the validators' output, step 1 is valid exactly when the amount is positive and both selections are made. */
  lemma Step1ReadyIff(a: string, w: Option<Item>, p: Option<Item>, bank: Option<Item>, account: string)
    requires Accepted(a)
    ensures Step1Ready(Errors(a, w, p, bank, account), w, p) <==> HasNonZeroDigit(a) && w.Some? && p.Some?
  {
    AmountErrorIff(a);
  }

  /** On the validators' output, step 2 is valid exactly when a bank is selected and the account number matches ^\d{10,}$. */
  lemma Step2ReadyIff(a: string, w: Option<Item>, p: Option<Item>, bank: Option<Item>, account: string)
    requires Accepted(a)
    ensures Step2Ready(Errors(a, w, p, bank, account), bank, account) <==> bank.Some? && AccountNumberOk(account)
  {
  }
}

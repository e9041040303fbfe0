/**
 * The two-step checkout wizard (components/CryptoCheckoutModal.tsx).
 *
 * Each `useState` field is a field of `Wizard`; each event handler is a
 * method. The effects that recompute the receive amount and the two
 * validations run synchronously at the end of the handler that changed
 * their inputs, in that order. Step-1 handlers are only callable on step 1
 * and step-2 handlers only on step 2, since each step renders only its own
 * widgets.
 */
module Checkout {
  import opened Wrappers
  import opened Data
  import opened CurrencyInput
  import opened Amount
  import opened Rules

  /**
   * The receive amount: the "0.00" text, or the product of a parsed amount and
   * a rate, whose locale formatting is not modelled.
   */
  datatype Receive = ZeroText | Converted(amount: Parsed, rate: nat)

  /** The converted value a `Converted` receive amount displays. */
  function ReceiveValue(r: Receive): real
    requires r.Converted? && r.amount.Num?
  {
    Value(r.amount) * r.rate as real
  }

  /** The mock account name shown, read-only, on step 2. */
  const AccountName := "ODUTUGA GBEKE"

  /** The exchange-rate effect: "0.00" when the amount does not parse, else amount times the token's rate. */
  function ReceiveOf(amount: string, token: Token): Receive
    requires Accepted(amount)
  {
    if Parse(amount).NaN? then ZeroText else Converted(Parse(amount), token.rate)
  }

  /** The receive amount is "0.00" exactly when the pay amount has no digit. */
  lemma ReceiveZeroIff(amount: string, token: Token)
    requires Accepted(amount)
    ensures ReceiveOf(amount, token) == ZeroText <==> !HasDigit(amount)
  {
    ParseNaNIff(amount);
  }

  /**
   * The zero half of "an amount that is not positive shows 0.00", stated on
   * the value since the formatting is not modelled: an amount with no digit
   * other than '0' takes the "0.00" branch or converts to exactly 0, and one
   * with such a digit converts to a positive value at a positive rate.
   */
  lemma ReceiveZeroValue(amount: string, token: Token)
    requires Accepted(amount)
    ensures !HasNonZeroDigit(amount) ==>
      ReceiveOf(amount, token) == ZeroText || ReceiveValue(ReceiveOf(amount, token)) == 0.0
    ensures HasNonZeroDigit(amount) && token.rate > 0 ==>
      ReceiveOf(amount, token).Converted? && ReceiveValue(ReceiveOf(amount, token)) > 0.0
  {
    ParseNaNIff(amount);
    ParsePositiveIff(amount);
    var p := Parse(amount);
    if p.Num? {
      var d := Pow10(p.scale) as real;
      assert Value(p) == p.units as real / d;
      assert Value(p) >= 0.0;
      if HasNonZeroDigit(amount) && token.rate > 0 {
        assert Value(p) * token.rate as real > 0.0;
      } else if !HasNonZeroDigit(amount) {
        assert Value(p) == 0.0;
      }
    }
  }

  /** The default amount "0.10" of ETH (rate 4,500,000) converts to 450,000 (displayed "450,000.00"). */
  lemma ReceiveDefault()
    ensures Accepted("0.10") && ReceiveOf("0.10", Eth) == Converted(Num(10, 2), 4500000)
    ensures ReceiveValue(ReceiveOf("0.10", Eth)) == 450000.0
  {
    ParseDefault();
  }

  /** A field is touched when the map holds `true` for it. */
  predicate IsTouched(touched: map<Field, bool>, field: Field)
  {
    field in touched && touched[field]
  }

  /** `markTouched`'s update `{...prev, [field]: true}`. */
  function Touch(touched: map<Field, bool>, field: Field): map<Field, bool>
  {
    touched[field := true]
  }

  /** Marking a field makes it touched and leaves every other field as it was. */
  lemma TouchMarksOnly(touched: map<Field, bool>, field: Field, other: Field)
    ensures IsTouched(Touch(touched, field), field)
    ensures other != field ==> (IsTouched(Touch(touched, field), other) <==> IsTouched(touched, other))
  {
  }

  /** Marking a field twice is marking it once. */
  lemma TouchIdempotent(touched: map<Field, bool>, field: Field)
    ensures Touch(Touch(touched, field), field) == Touch(touched, field)
  {
  }

  class Wizard {
    var step: int
    var activeTab: Tab
    var amountPay: string
    var amountReceive: Receive
    var selectedToken: Token
    var selectedWallet: Option<Item>
    var selectedPayToBank: Option<Item>
    var recipientBank: Option<Item>
    var accountNumber: string
    var errors: ErrorTable
    var touched: map<Field, bool>
    /** The account name shown on step 2: state that is never updated. */
    const accountName: string

    /**
     * The wizard's invariant: the step is 1 or 2; the amount is one the input
     * accepts; the receive amount and the error map are what the effects
     * compute from the current fields; step 2 is only ever reached with a
     * valid step 1; the pre-filled amount counts as touched.
     */
    ghost predicate Valid()
      reads this
    {
      (step == 1 || step == 2) && Accepted(amountPay)
      && amountReceive == ReceiveOf(amountPay, selectedToken)
      && errors == Errors(amountPay, selectedWallet, selectedPayToBank, recipientBank, accountNumber)
      && (step == 2 ==> IsStep1Valid())
      && IsTouched(touched, AmountPay)
    }

    /** `isStep1Valid`, which enables "Convert now". */
    predicate IsStep1Valid()
      reads this
    {
      Step1Ready(errors, selectedWallet, selectedPayToBank)
    }

    /** `isStep2Valid`, which enables "Next". */
    predicate IsStep2Valid()
      reads this
    {
      Step2Ready(errors, recipientBank, accountNumber)
    }

    /** Mounting the modal: the initial state, after the mount-time effects have run. */
    constructor ()
      ensures Valid()
      ensures step == 1 && activeTab == CryptoCash
      ensures amountPay == "0.10" && selectedToken == Eth
      ensures selectedWallet == None && selectedPayToBank == None && recipientBank == None
      ensures accountNumber == "" && accountName == "ODUTUGA GBEKE"
      ensures touched == map[AmountPay := true]
      ensures amountReceive == Converted(Num(10, 2), 4500000)
      ensures errors == ErrorTable(None, Some(WalletMissing), Some(PayToMissing), Some(BankMissing), Some(AccountEmpty))
    {
      step := 1;
      activeTab := CryptoCash;
      amountPay := "0.10";
      selectedToken := Eth;
      selectedWallet := None;
      selectedPayToBank := None;
      recipientBank := None;
      accountNumber := "";
      accountName := AccountName;
      errors := NoErrors;
      touched := map[AmountPay := true];
      amountReceive := ZeroText;
      new;
      ReceiveDefault();
      DefaultErrors();
      PassesFromEmpty("0.10", None, None, None, "");
      // The mount-time effects, in order: the conversion, then both validation passes.
      amountReceive := ReceiveOf(amountPay, selectedToken);
      errors := MergeStep2(MergeStep1(errors, Step1Errors(amountPay, selectedWallet, selectedPayToBank)),
                           Step2Errors(recipientBank, accountNumber));
    }

    /** The step-1 validation effect: run the schema, collect its details, merge the step-1 keys. */
    method ValidateStep1()
      requires Accepted(amountPay)
      modifies this`errors
      ensures errors == MergeStep1(old(errors), Step1Errors(amountPay, selectedWallet, selectedPayToBank))
      ensures errors.recipientBank == old(errors.recipientBank) && errors.accountNumber == old(errors.accountNumber)
    {
      var details := Step1Details(amountPay, selectedWallet, selectedPayToBank);
      var newErrors := CollectErrors(details);
      Step1Collected(amountPay, selectedWallet, selectedPayToBank);
      errors := MergeStep1(errors, newErrors);
    }

    /** The step-2 validation effect: run the schema, collect its details, merge the step-2 keys. */
    method ValidateStep2()
      modifies this`errors
      ensures errors == MergeStep2(old(errors), Step2Errors(recipientBank, accountNumber))
      ensures errors.amountPay == old(errors.amountPay) && errors.selectedWallet == old(errors.selectedWallet)
      ensures errors.selectedPayToBank == old(errors.selectedPayToBank)
    {
      var details := Step2Details(recipientBank, accountNumber);
      var newErrors := CollectErrors(details);
      Step2Collected(recipientBank, accountNumber);
      errors := MergeStep2(errors, newErrors);
    }

    /** `markTouched(field)`. */
    method MarkTouched(field: Field)
      modifies this`touched
      ensures touched == Touch(old(touched), field)
    {
      touched := touched[field := true];
    }

    /**
     * The first half of the modal's `onAmountChange`: `setAmountPay` and
     * `markTouched("amountPay")`, then the exchange-rate effect on the new amount.
     */
    method SetAmount(val: string)
      requires Accepted(val)
      modifies this`amountPay, this`amountReceive, this`touched
      ensures amountPay == val && amountReceive == ReceiveOf(val, selectedToken)
      ensures touched == Touch(old(touched), AmountPay)
    {
      amountPay := val;
      MarkTouched(AmountPay);
      amountReceive := ReceiveOf(amountPay, selectedToken);
    }

    /** The modal's `onAmountChange`, followed by the exchange-rate and step-1 effects on the new amount. */
    method ChangeAmount(val: string)
      requires Valid() && step == 1 && Accepted(val)
      modifies this`amountPay, this`amountReceive, this`errors, this`touched
      ensures Valid()
      ensures amountPay == val && amountReceive == ReceiveOf(val, selectedToken)
      ensures touched == Touch(old(touched), AmountPay)
    {
      ghost var a0, w, p, b, n := amountPay, selectedWallet, selectedPayToBank, recipientBank, accountNumber;
      SetAmount(val);
      ValidateStep1();
      RefreshStep1(a0, w, p, val, w, p, b, n);
    }

    /** An edit typed into the pay-amount input: `handleChange` forwards it only when it is accepted. */
    method EditAmount(val: string) returns (forwarded: bool)
      requires Valid() && step == 1
      modifies this`amountPay, this`amountReceive, this`errors, this`touched
      ensures Valid()
      ensures forwarded <==> Accepted(val)
      ensures forwarded ==> amountPay == val && touched == Touch(old(touched), AmountPay)
      ensures !forwarded ==> unchanged(this)
    {
      var r := HandleChange(val);
      forwarded := r.Some?;
      if forwarded {
        ChangeAmount(r.value);
      }
    }

    /** Picking a token re-runs only the conversion: no validation, nothing touched. */
    method SelectToken(token: Token)
      requires Valid() && step == 1
      modifies this`selectedToken, this`amountReceive
      ensures Valid()
      ensures selectedToken == token
      ensures amountReceive == ReceiveOf(amountPay, token)
    {
      selectedToken := token;
      amountReceive := ReceiveOf(amountPay, selectedToken);
    }

    /** Picking a wallet: set it, mark it touched, re-run step-1 validation. */
    method SelectWallet(wallet: Item)
      requires Valid() && step == 1
      modifies this`selectedWallet, this`touched, this`errors
      ensures Valid()
      ensures selectedWallet == Some(wallet) && errors.selectedWallet == None
      ensures touched == Touch(old(touched), SelectedWallet)
    {
      ghost var w0 := selectedWallet;
      selectedWallet := Some(wallet);
      MarkTouched(SelectedWallet);
      ValidateStep1();
      RefreshStep1(amountPay, w0, selectedPayToBank, amountPay, selectedWallet, selectedPayToBank,
                   recipientBank, accountNumber);
    }

    /** Picking the pay-to method: set it, mark it touched, re-run step-1 validation. */
    method SelectPayToBank(choice: Item)
      requires Valid() && step == 1
      modifies this`selectedPayToBank, this`touched, this`errors
      ensures Valid()
      ensures selectedPayToBank == Some(choice) && errors.selectedPayToBank == None
      ensures touched == Touch(old(touched), SelectedPayToBank)
    {
      ghost var p0 := selectedPayToBank;
      selectedPayToBank := Some(choice);
      MarkTouched(SelectedPayToBank);
      ValidateStep1();
      RefreshStep1(amountPay, selectedWallet, p0, amountPay, selectedWallet, selectedPayToBank,
                   recipientBank, accountNumber);
    }

    /** Picking the recipient bank: set it, mark it touched, re-run step-2 validation. */
    method SelectRecipientBank(bank: Item)
      requires Valid() && step == 2
      modifies this`recipientBank, this`touched, this`errors
      ensures Valid()
      ensures recipientBank == Some(bank) && errors.recipientBank == None
      ensures touched == Touch(old(touched), RecipientBank)
    {
      ghost var b0 := recipientBank;
      Step1ReadyIff(amountPay, selectedWallet, selectedPayToBank, recipientBank, accountNumber);
      recipientBank := Some(bank);
      MarkTouched(RecipientBank);
      ValidateStep2();
      RefreshStep2(b0, accountNumber, amountPay, selectedWallet, selectedPayToBank, recipientBank, accountNumber);
      Step1ReadyIff(amountPay, selectedWallet, selectedPayToBank, recipientBank, accountNumber);
    }

    /** Typing in the account number: set it and re-run step-2 validation; it is not marked touched. */
    method ChangeAccountNumber(value: string)
      requires Valid() && step == 2
      modifies this`accountNumber, this`errors
      ensures Valid()
      ensures accountNumber == value
      ensures errors.accountNumber.Some? <==> !AccountNumberOk(value)
    {
      ghost var n0 := accountNumber;
      Step1ReadyIff(amountPay, selectedWallet, selectedPayToBank, recipientBank, accountNumber);
      accountNumber := value;
      ValidateStep2();
      RefreshStep2(recipientBank, n0, amountPay, selectedWallet, selectedPayToBank, recipientBank, accountNumber);
      Step1ReadyIff(amountPay, selectedWallet, selectedPayToBank, recipientBank, accountNumber);
    }

    /** Leaving the account number field marks it touched. */
    method BlurAccountNumber()
      requires Valid() && step == 2
      modifies this`touched
      ensures Valid()
      ensures touched == Touch(old(touched), AccountNumber)
    {
      MarkTouched(AccountNumber);
    }

    /** "Convert now": enabled only when step 1 is valid; it then moves to step 2 and changes nothing else. */
    method ConvertNow()
      requires Valid() && step == 1
      modifies this`step
      ensures Valid()
      ensures step == 2 <==> IsStep1Valid()
      ensures step == 2 <==> HasNonZeroDigit(amountPay) && selectedWallet.Some? && selectedPayToBank.Some?
    {
      Step1ReadyIff(amountPay, selectedWallet, selectedPayToBank, recipientBank, accountNumber);
      if IsStep1Valid() {
        step := 2;
      }
    }

    /** The back arrow of step 2: return to step 1, changing nothing else. */
    method Back()
      requires Valid()
      modifies this`step
      ensures Valid() && step == 1
    {
      step := 1;
    }

    /**
     * "Next" on step 2: a stub that only logs, enabled when step 2 is valid.
     * It changes no state; `completed` says whether the log line is written.
     */
    method Next() returns (completed: bool)
      requires Valid()
      ensures completed <==> step == 2 && recipientBank.Some? && AccountNumberOk(accountNumber)
    {
      Step2ReadyIff(amountPay, selectedWallet, selectedPayToBank, recipientBank, accountNumber);
      completed := step == 2 && IsStep2Valid();
    }

    /** A tab of the tab bar; it only drives highlighting. */
    method ChangeTab(tab: Tab)
      requires Valid() && step == 1
      modifies this`activeTab
      ensures Valid()
      ensures activeTab == tab
    {
      activeTab := tab;
    }

    /** The error shown under the pay amount: the amount's error once the field is touched. */
    function AmountErrorShown(): Option<ErrorCode>
      reads this
    {
      if IsTouched(touched, AmountPay) then errors.amountPay else None
    }

    /** The error shown under the account number: its error once the field has been touched. */
    function AccountNumberErrorShown(): Option<ErrorCode>
      reads this
    {
      if IsTouched(touched, AccountNumber) then errors.accountNumber else None
    }
  }

  /**
   * The pay amount counts as touched from the start, so its error is always
   * shown: one is shown exactly when the amount has no digit other than '0'.
   */
  lemma AmountErrorAlwaysShown(w: Wizard)
    requires w.Valid()
    ensures w.AmountErrorShown() == w.errors.amountPay == AmountError(w.amountPay)
    ensures w.AmountErrorShown().Some? <==> !HasNonZeroDigit(w.amountPay)
  {
    AmountErrorIff(w.amountPay);
  }

  /**
   * The account number's error is shown only once the field has been left,
   * and then exactly when it does not match ^\d{10,}$.
   */
  lemma AccountNumberErrorShownIff(w: Wizard)
    requires w.Valid()
    ensures w.AccountNumberErrorShown().Some? <==> IsTouched(w.touched, AccountNumber) && !AccountNumberOk(w.accountNumber)
    ensures w.AccountNumberErrorShown().Some? ==> w.AccountNumberErrorShown() == AccountError(w.accountNumber)
  {
  }

  /** Going back from step 2 and forward again keeps every field; nothing but the step moves. */
  method BackAndForth(w: Wizard)
    requires w.Valid() && w.step == 2
    modifies w
    ensures w.Valid() && w.step == 2
    ensures w.recipientBank == old(w.recipientBank) && w.accountNumber == old(w.accountNumber)
    ensures w.amountPay == old(w.amountPay) && w.selectedToken == old(w.selectedToken)
    ensures w.selectedWallet == old(w.selectedWallet) && w.selectedPayToBank == old(w.selectedPayToBank)
    ensures w.errors == old(w.errors) && w.touched == old(w.touched)
    ensures w.activeTab == old(w.activeTab) && w.amountReceive == old(w.amountReceive)
  {
    w.Back();
    w.ConvertNow();
  }
}

# Crypto checkout wizard: a Dafny model

This project models the core of a two-step "crypto to cash" checkout widget.

- **Step 1.** The user types an amount to pay and picks a token. The other
  side shows the converted amount. The user then picks a source wallet and a
  payment method, and presses "Convert now".
- **Step 2.** The user picks a recipient bank and types an account number.
  "Next" is enabled once both pass validation.

Four pieces are modelled.

- **The wizard** (`Checkout.Wizard`, `checkout.dfy`). A class with one field
  per piece of React state: step, tab, pay amount, receive amount, token, the
  three selections, account number, error table and touched map, plus the
  fixed account name as a constant field. Each event handler of the modal is
  a method. The exchange-rate effect and the two
  validation effects run at the end of the handler that changed their inputs.
  The class invariant `Valid()` says that the derived state (receive amount
  and error table) always equals what those effects compute from the current
  fields, and that step 2 is only reached with a valid step 1.
- **The validation rules** (`Rules`, `rules.dfy`). The two schemas are lists
  of failure details. The `forEach` fold turns a detail list into a
  field-to-error map in which the last detail for a field wins
  (`CollectErrors`, a loop proved against `LastByPath`). Each step's merge
  rewrites only that step's keys.
- **The amount filter, the amount parse and the two dropdowns.**
  - `CurrencyInput` holds the `^\d*\.?\d*$` recogniser and the token
    selector's label.
  - `Amount` holds `parseFloat` on accepted strings, as an exact decimal.
  - `CustomSelect` holds the case-insensitive substring filter and the
    `Dropdown` class. The class keeps the open flag and the search query,
    which both `CustomSelect` and `TokenSelector` own.
- **Data.** `Data` holds the item lists of `lib/data.tsx`: tokens with their
  rates, wallets, banks and payment methods.

The stored account-number error is the last detail Joi reports.
For a short string that is also not all digits, that is "too short", not the
pattern error (`Rules.AccountError`, `Rules.Step2Examples`).

## Model

| member | source | states |
|---|---|---|
| Data.FirstTokenIsEth | lib/data.tsx:36-43 | the first token is ETH at rate 4,500,000 |
| Data.ListsHaveDistinctIds | lib/data.tsx:36-84 | the tokens, wallets, banks and payment methods each have distinct ids, and every token's rate is positive |
| CurrencyInput.MatchesFromIff | components/ui/CurrencyInput.tsx:109 | the recogniser of `^\d*\.?\d*$` accepts exactly the strings of digits and dots with at most one dot |
| CurrencyInput.HandleChange | components/ui/CurrencyInput.tsx:107-111 | an edit is forwarded unchanged exactly when it is empty or matches the pattern, i.e. it has only digits and dots and at most one dot; otherwise nothing is forwarded |
| CurrencyInput.HandleChangeExamples | components/ui/CurrencyInput.tsx:109 | "0.10", ".5" and "" are forwarded; "1.2.3", "-1" and "1e5" are rejected |
| CurrencyInput.TriggerLabel | components/ui/CurrencyInput.tsx:49 | the label is a prefix of the name with no space in it, and it stops at the first space |
| CurrencyInput.TriggerLabelOfWords | components/ui/CurrencyInput.tsx:49 | a name `word + " " + rest` is labelled `word`; a name without a space is labelled with itself |
| CurrencyInput.TriggerLabelExamples | components/ui/CurrencyInput.tsx:49 | "USDT - CELO" shows "USDT"; "ETH" shows "ETH" |
| Amount.DotIndexFirst | components/CryptoCheckoutModal.tsx:62 | the split point of the parse is the first '.', or the end when there is none |
| Amount.NoSecondDot | components/ui/CurrencyInput.tsx:109 | no '.' follows the first one in an accepted amount |
| Amount.PartsAreDigits | components/CryptoCheckoutModal.tsx:62 | both sides of the '.' of an accepted amount are digit strings |
| Amount.ParseNaNIff | components/CryptoCheckoutModal.tsx:62-63 | `parseFloat` of an accepted amount is NaN exactly when the amount has no digit ("" and ".") |
| Amount.Parse | components/CryptoCheckoutModal.tsx:62 | `parseFloat` on an accepted amount: NaN, or the exact decimal of its digits; characterised by Amount.ParseNaNIff and Amount.ParsePositiveIff (the same parse feeds the schema at line 74) |
| Amount.ValuePositiveIff | components/CryptoCheckoutModal.tsx:17 | a parsed number is greater than 0 exactly when its digit value is not 0 |
| Amount.DigitsValuePositive | components/CryptoCheckoutModal.tsx:17 | a digit string has a positive value exactly when it has a digit other than '0' |
| Amount.ParsePositiveIff | components/CryptoCheckoutModal.tsx:17-19 | an accepted amount parses to a number greater than 0 exactly when it has a digit other than '0' |
| Amount.ParseDefault | components/CryptoCheckoutModal.tsx:38 | the default amount "0.10" is accepted and parses to exactly 0.1 |
| CustomSelect.Includes | components/ui/CustomSelect.tsx:47 | `includes` holds exactly when the needle occurs at some index of the haystack |
| CustomSelect.Lower | components/ui/CustomSelect.tsx:47 | `toLowerCase` on ASCII letters; every other character is kept |
| CustomSelect.Matches | components/ui/CustomSelect.tsx:47 | the filter's test: the lower-cased name includes the lower-cased query; see CustomSelect.Includes and CustomSelect.Filter |
| CustomSelect.Filter | components/ui/CustomSelect.tsx:46-48 | the filtered list is no longer than the items, and an item is in it exactly when it is an item whose lower-cased name contains the lower-cased query (TokenSelector uses the same test: components/ui/CurrencyInput.tsx, lines 29-31) |
| CustomSelect.FilterIsSubsequence | components/ui/CustomSelect.tsx:46-48 | the filter keeps the items' order (it deletes, never reorders) |
| CustomSelect.FilterMultiplicity | components/ui/CustomSelect.tsx:46-48 | the filter keeps every copy of a matching item and drops every copy of the others |
| CustomSelect.EmptyQueryKeepsAll | components/ui/CustomSelect.tsx:46-48 | with an empty query the whole list is shown |
| CustomSelect.NoResultsIff | components/ui/CustomSelect.tsx:100 | the filtered list is empty exactly when no item matches the query (TokenSelector makes the same test: components/ui/CurrencyInput.tsx, line 66) |
| CustomSelect.ShowsNoResultsIff | components/ui/CustomSelect.tsx:81-124 | the open panel shows "No results found" exactly when it is open and no item matches the current query |
| CustomSelect.TriggerText | components/ui/CustomSelect.tsx:64-76 | the trigger shows the selected item's name, or the placeholder when nothing is selected |
| CustomSelect.DefaultTriggerText | components/ui/CustomSelect.tsx:26 | with nothing selected and the default placeholder, the trigger reads "Select an option" |
| CustomSelect.Dropdown.constructor | components/ui/CustomSelect.tsx:30-31 | a dropdown starts closed with an empty query (TokenSelector: components/ui/CurrencyInput.tsx, lines 13-14) |
| CustomSelect.Dropdown.Click | components/ui/CustomSelect.tsx:53-109 | a trigger click toggles; a search-box click does nothing; an item click reports that listed item, closes and clears the query; a click elsewhere in the panel closes it through the trigger box; a chosen item is one of the items and matches the old query; in TokenSelector (components/ui/CurrencyInput.tsx, lines 35-75) a click elsewhere in the panel does nothing, since that panel is not inside the trigger button |
| CustomSelect.Dropdown.Type | components/ui/CustomSelect.tsx:93 | typing in the search box sets the query and nothing else |
| CustomSelect.Dropdown.MouseDown | components/ui/CustomSelect.tsx:35-44 | a mousedown outside closes the dropdown and clears the query, so the full list shows next time; one inside changes nothing (TokenSelector: components/ui/CurrencyInput.tsx, lines 18-27) |
| Rules.LastByPathMeans | components/CryptoCheckoutModal.tsx:79-84 | after the fold, a field has an entry exactly when some detail names it, and the entry is the code of the last such detail |
| Rules.LastByPath | components/CryptoCheckoutModal.tsx:79-84 | the map the `forEach` builds, each detail overwriting its field's entry; characterised by Rules.LastByPathMeans and computed by Rules.CollectErrors |
| Rules.LastByPathAppend | components/CryptoCheckoutModal.tsx:81-83 | folding `a + b` is folding `a` and then overwriting with the fold of `b` |
| Rules.LastByPathSingle | components/CryptoCheckoutModal.tsx:82 | one detail gives a one-entry map |
| Rules.CollectErrors | components/CryptoCheckoutModal.tsx:79-84 | the `forEach` loop builds exactly the fold `LastByPath` of the details |
| Rules.KeyInjective | components/CryptoCheckoutModal.tsx:54-55 | distinct fields have distinct keys, so maps keyed by field stand for the source's objects keyed by field name |
| Rules.MergeLookup | components/CryptoCheckoutModal.tsx:86-103 | each step's merge sets that step's keys to the new map's value (absent when the map has none) and keeps every other key |
| Rules.MergeStep1 | components/CryptoCheckoutModal.tsx:86 | the step-1 spread merge; see Rules.MergeLookup |
| Rules.MergeStep2 | components/CryptoCheckoutModal.tsx:103 | the step-2 spread merge; see Rules.MergeLookup |
| Rules.MergesCommute | components/CryptoCheckoutModal.tsx:86-103 | the two merges write disjoint keys, so their order does not matter |
| Rules.AmountErrorIff | components/CryptoCheckoutModal.tsx:16-21 | the amount fails exactly when it has no digit other than '0', and fails as "not a number" exactly when it has no digit |
| Rules.AmountError | components/CryptoCheckoutModal.tsx:17-21 | the amount's failure: "not a number" on NaN, else "not greater than 0"; characterised by Rules.AmountErrorIff |
| Rules.Required | components/CryptoCheckoutModal.tsx:22-27 | a required selection (wallet, payment method, recipient bank) fails, with its own code, exactly when nothing is selected |
| Rules.AccountError | components/CryptoCheckoutModal.tsx:28-32 | the account number fails exactly when it does not match `^\d{10,}$`; the error is "empty" exactly for "", "too short" exactly for a non-empty string whose JavaScript length (UTF-16 code units) is under 10, and "not digits" exactly for a string of length at least 10 that has a non-digit |
| Rules.AccountDetails | components/CryptoCheckoutModal.tsx:28-32 | the account number's details in Joi's order: "empty" alone, else the pattern failure then the length failure; folded by Rules.AccountCollected |
| Rules.DigitsUtf16Length | components/CryptoCheckoutModal.tsx:28 | a string of ASCII digits has one code unit per character, so for digit strings the length rule counts characters |
| Rules.Utf16LengthAtLeast | components/CryptoCheckoutModal.tsx:28 | a string's code-unit length is between its character count and twice that count |
| Rules.Step1ErrorsAt | components/CryptoCheckoutModal.tsx:16-24 | the step-1 map holds each step-1 rule's failure under its own field and has only step-1 keys |
| Rules.Step1Details | components/CryptoCheckoutModal.tsx:73-77 | the step-1 schema's details, one per failing rule in rule order; folded by Rules.Step1Collected |
| Rules.Step2ErrorsAt | components/CryptoCheckoutModal.tsx:26-33 | the step-2 map holds each step-2 rule's failure under its own field and has only step-2 keys |
| Rules.Step2Details | components/CryptoCheckoutModal.tsx:91-94 | the step-2 schema's details, one per failing rule in rule order; folded by Rules.Step2Collected |
| Rules.LastByPathReport | components/CryptoCheckoutModal.tsx:81-83 | folding one rule's details gives that rule's entry |
| Rules.Step1Collected | components/CryptoCheckoutModal.tsx:72-84 | folding the step-1 schema's details gives the field-by-field step-1 errors |
| Rules.AccountCollected | components/CryptoCheckoutModal.tsx:96-100 | folding the account number's details keeps its last failure |
| Rules.Step2Collected | components/CryptoCheckoutModal.tsx:90-101 | folding the step-2 schema's details gives the field-by-field step-2 errors |
| Rules.Step2Examples | components/CryptoCheckoutModal.tsx:28-30 | "12345" and "12ab" are stored as "too short" |
| Rules.Step2LongExamples | components/CryptoCheckoutModal.tsx:28-29 | "abcdefghijk" is stored as failing the pattern |
| Rules.Step2DigitsPass | components/CryptoCheckoutModal.tsx:28 | "0123456789" passes the account rules |
| Rules.AccountLengthInCodeUnits | components/CryptoCheckoutModal.tsx:28-30 | five emoji are ten code units, so only the pattern failure is stored |
| Rules.RefreshStep1 | components/CryptoCheckoutModal.tsx:86 | a step-1 pass over the current fields restores the table both validators would produce |
| Rules.RefreshStep2 | components/CryptoCheckoutModal.tsx:103 | a step-2 pass over the current fields restores the table both validators would produce |
| Rules.PassesFromEmpty | components/CryptoCheckoutModal.tsx:54 | both passes over the initial empty table give the whole table |
| Rules.DefaultErrors | components/CryptoCheckoutModal.tsx:36-55 | on the initial fields every field fails except the amount |
| Rules.Step1ReadyIff | components/CryptoCheckoutModal.tsx:57 | on the validators' output, step 1 is valid exactly when the amount is positive and a wallet and a payment method are selected |
| Rules.Step2ReadyIff | components/CryptoCheckoutModal.tsx:58 | on the validators' output, step 2 is valid exactly when a bank is selected and the account number matches `^\d{10,}$` |
| Rules.Step1Ready | components/CryptoCheckoutModal.tsx:57 | `isStep1Valid` over an error table and the two selections; see Rules.Step1ReadyIff |
| Rules.Step2Ready | components/CryptoCheckoutModal.tsx:58 | `isStep2Valid` over an error table, the bank and the account number; see Rules.Step2ReadyIff |
| Checkout.ReceiveZeroIff | components/CryptoCheckoutModal.tsx:61-69 | the NaN branch, which sets the literal "0.00" (line 67), is taken exactly when the pay amount has no digit |
| Checkout.ReceiveZeroValue | components/CryptoCheckoutModal.tsx:61-69 | an amount with no digit other than '0' takes the "0.00" branch or converts to exactly 0; one with such a digit converts to a positive value at a positive rate |
| Checkout.ReceiveOf | components/CryptoCheckoutModal.tsx:61-69 | the exchange-rate effect's result: "0.00" when the parse is NaN, else the parsed amount times the token's rate; see Checkout.ReceiveZeroIff and Checkout.ReceiveZeroValue |
| Checkout.ReceiveDefault | components/CryptoCheckoutModal.tsx:62-65 | 0.10 ETH converts to 450,000 |
| Checkout.TouchMarksOnly | components/CryptoCheckoutModal.tsx:106-108 | marking a field makes it touched and leaves every other field's touched state as it was |
| Checkout.TouchIdempotent | components/CryptoCheckoutModal.tsx:106-108 | marking a field twice is the same as marking it once |
| Checkout.Touch | components/CryptoCheckoutModal.tsx:107 | `{...prev, [field]: true}`; see Checkout.TouchMarksOnly and Checkout.TouchIdempotent |
| Checkout.Wizard.constructor | components/CryptoCheckoutModal.tsx:36-55 | the initial state: step 1, "crypto-cash", amount "0.10", the first token, nothing selected, empty account number, the fixed account name "ODUTUGA GBEKE", only the amount touched; after the mount effects the receive amount is 0.10 times 4,500,000 and every field but the amount has an error |
| Checkout.Wizard.ValidateStep1 | components/CryptoCheckoutModal.tsx:72-87 | the step-1 effect merges the step-1 errors of the current fields and keeps the step-2 entries |
| Checkout.Wizard.ValidateStep2 | components/CryptoCheckoutModal.tsx:90-104 | the step-2 effect merges the step-2 errors of the current fields and keeps the step-1 entries |
| Checkout.Wizard.MarkTouched | components/CryptoCheckoutModal.tsx:106-108 | `markTouched` marks one field |
| Checkout.Wizard.IsStep1Valid | components/CryptoCheckoutModal.tsx:57 | `isStep1Valid` on the wizard's fields; under `Valid()` it is Rules.Step1ReadyIff's condition |
| Checkout.Wizard.IsStep2Valid | components/CryptoCheckoutModal.tsx:58 | `isStep2Valid` on the wizard's fields; under `Valid()` it is Rules.Step2ReadyIff's condition |
| Checkout.Wizard.AmountErrorShown | components/CryptoCheckoutModal.tsx:142 | the amount error passed to the input once the field is touched; see Checkout.AmountErrorAlwaysShown |
| Checkout.Wizard.AccountNumberErrorShown | components/CryptoCheckoutModal.tsx:229 | the account-number error passed to the input once the field is touched; see Checkout.AccountNumberErrorShownIff |
| Checkout.Wizard.SetAmount | components/CryptoCheckoutModal.tsx:61-69 | `setAmountPay` and `markTouched("amountPay")` (lines 139-140), then the exchange-rate effect: the amount is stored and touched, and the receive amount is recomputed for it |
| Checkout.Wizard.ChangeAmount | components/CryptoCheckoutModal.tsx:138-141 | a forwarded amount is stored and marked touched; the receive amount and the errors are recomputed and the invariant holds |
| Checkout.Wizard.EditAmount | components/ui/CurrencyInput.tsx:107-111 | an edit reaches the wizard exactly when it is accepted; a rejected edit changes nothing |
| Checkout.Wizard.SelectToken | components/CryptoCheckoutModal.tsx:144-148 | picking a token recomputes only the receive amount, with the new rate |
| Checkout.Wizard.SelectWallet | components/CryptoCheckoutModal.tsx:165-168 | picking a wallet stores it, marks it touched and clears its error |
| Checkout.Wizard.SelectPayToBank | components/CryptoCheckoutModal.tsx:177-180 | picking a payment method stores it, marks it touched and clears its error |
| Checkout.Wizard.SelectRecipientBank | components/CryptoCheckoutModal.tsx:214-217 | picking a bank stores it, marks it touched and clears its error |
| Checkout.Wizard.ChangeAccountNumber | components/CryptoCheckoutModal.tsx:225-227 | typing stores the account number without touching it; it has an error exactly when it does not match `^\d{10,}$` |
| Checkout.Wizard.BlurAccountNumber | components/CryptoCheckoutModal.tsx:228 | leaving the field marks it touched |
| Checkout.Wizard.ConvertNow | components/CryptoCheckoutModal.tsx:188-191 | "Convert now" moves to step 2 exactly when step 1 is valid, i.e. a positive amount, a wallet and a payment method |
| Checkout.Wizard.Back | components/CryptoCheckoutModal.tsx:200-201 | the back arrow returns to step 1 and keeps the invariant |
| Checkout.Wizard.Next | components/CryptoCheckoutModal.tsx:241-243 | "Next" acts exactly on step 2 with a bank selected and a valid account number, and changes no state |
| Checkout.Wizard.ChangeTab | components/CryptoCheckoutModal.tsx:127-131 | a tab click sets the active tab only |
| Checkout.AmountErrorAlwaysShown | components/CryptoCheckoutModal.tsx:142 | the pay amount is touched from the start, so its error is always shown, and one is shown exactly when the amount has no digit other than '0' |
| Checkout.AccountNumberErrorShownIff | components/CryptoCheckoutModal.tsx:229 | the account number's error is shown exactly when the field has been left and the number does not match `^\d{10,}$` |
| Checkout.BackAndForth | components/CryptoCheckoutModal.tsx:188-201 | going back from step 2 and pressing "Convert now" again returns to step 2 with every field unchanged: selections, account number, amount, token, receive amount, tab, errors and touched map |

## Left out

- Checkout.ReceiveOf: the receive amount is kept as the parsed amount and the rate. It is not a formatted string. The floating-point product and `toLocaleString("en-US", …)` with two decimals and thousands separators are not modelled. `ReceiveValue` gives the exact product.
- Amount.Parse: `parseFloat` is modelled only on strings the amount input accepts, as an exact decimal. Binary rounding is not modelled, and that includes underflow, which can change the step-1 verdict. For example, "0." followed by 323 zeros and a "1" parses to 0 in JavaScript, so Joi's `greater(0)` fails; the model's `Positive` holds, so `ConvertNow` may advance. Rounding also makes very small amounts display as "0.00" although their exact value is positive. Neither is the overflow of very long digit strings to `Infinity`, which Joi would report as `number.infinity`. Neither is Joi's `number.unsafe` error for numbers beyond the safe-integer range.
- Rules.ErrorCode: errors are abstract codes, one per rule. Joi's message strings, its internals and its `any.required` case are not modelled. That case cannot arise, because every key is always present, and `null` fails the object rule.
- Rules.CollectErrors: the source's `if (detail.path[0])` guard is not modelled. Every detail of these two flat schemas names a field.
- CustomSelect.Lower: `toLowerCase` is modelled on ASCII letters only. No other Unicode case folding is modelled.
- The error record: a key the source sets to `undefined` is a `None` field of `ErrorTable`. The record never holds keys other than the five fields.
- Checkout.Wizard.constructor: the mount-time effects are applied as their results. The constructor writes the conversion and both merges directly, not by calling the effect methods. `Rules.PassesFromEmpty`, `Rules.Step1Collected` and `Rules.Step2Collected` connect those results to the fold. The constructor states the initial token as `Eth`, which is `Tokens[0]` by `Data.FirstTokenIsEth`.
- React scheduling: effects are modelled as running synchronously, in source order, at the end of the handler that changed their dependencies. Intermediate renders are not modelled.
- Step gating: each step's handlers require that step, because a step renders only its own widgets.
- Checkout.Wizard.Next: the button's `console.log("Complete")` is modelled as the returned flag only.
- Checkout.AccountName: the account name is the constant field `Wizard.accountName`, as the source never calls its setter. It is never resolved.
- Dropdowns and the wizard: a dropdown's selection reaches the wizard as the argument of a `Select…` method. The two classes are not linked in one state.
- Error display: the wallet, payment-method and bank errors are never displayed, because the modal does not pass `error` to `CustomSelect`. Their display is therefore not modelled beyond the error table.
- Rendering, icons, images, styling, `useRef` and the document `mousedown` listener are not modelled. The listener is `Dropdown.MouseDown`, with "inside the container" as a parameter.
- `TabNavigation`, `Input`, `Button` and the page that mounts the modal are not part of this model.

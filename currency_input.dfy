/**
 * The currency input and the token selector (components/ui/CurrencyInput.tsx).
 * The input forwards an edit only when it looks like a decimal amount; the
 * token selector is a dropdown (CustomSelect.Dropdown) whose trigger shows the
 * first word of the selected token's name.
 */
module CurrencyInput {
  import opened Wrappers

  /** `\d` of a JavaScript regular expression: an ASCII digit. */
  predicate IsDigit(c: char)
  {
    '0' <= c <= '9'
  }

  /** Every character is a digit or a '.'. */
  predicate DigitsAndDots(s: string)
  {
    forall i :: 0 <= i < |s| ==> IsDigit(s[i]) || s[i] == '.'
  }

  /** The number of '.' characters in `s`. */
  function DotCount(s: string): nat
  {
    if s == [] then 0 else (if s[0] == '.' then 1 else 0) + DotCount(s[1..])
  }

  /**
   * The recogniser of `^\d*\.?\d*$`, read left to right: digits, at most one
   * '.', digits. `dotSeen` says whether the optional '.' has been consumed.
   */
  function MatchesFrom(s: string, dotSeen: bool): bool
    decreases |s|
  {
    if s == [] then true
    else if IsDigit(s[0]) then MatchesFrom(s[1..], dotSeen)
    else if s[0] == '.' && !dotSeen then MatchesFrom(s[1..], true)
    else false
  }

  /** The recogniser accepts exactly the strings of digits and dots with at most one dot (none once one is seen). */
  lemma {:induction false} MatchesFromIff(s: string, dotSeen: bool)
    ensures MatchesFrom(s, dotSeen) <==> DigitsAndDots(s) && DotCount(s) <= (if dotSeen then 0 else 1)
    decreases |s|
  {
    if s != [] {
      MatchesFromIff(s[1..], dotSeen);
      MatchesFromIff(s[1..], true);
      assert forall i :: 1 <= i < |s| ==> s[i] == s[1..][i - 1];
      assert DigitsAndDots(s) <==> (IsDigit(s[0]) || s[0] == '.') && DigitsAndDots(s[1..]);
    }
  }

  /** The condition of `handleChange`: the edit is empty or matches the amount pattern. */
  predicate Accepted(val: string)
  {
    val == "" || MatchesFrom(val, false)
  }

  /**
   * `handleChange`: the value handed to `onAmountChange`, or `None` when the
   * edit is rejected and no callback runs.
   */
  function HandleChange(val: string): (forwarded: Option<string>)
    ensures forwarded.Some? <==> Accepted(val)
    ensures forwarded.Some? <==> DigitsAndDots(val) && DotCount(val) <= 1
    ensures forwarded.Some? ==> forwarded.value == val
  {
    MatchesFromIff(val, false);
    if Accepted(val) then Some(val) else None
  }

  /** The examples of the amount filter: "0.10" and ".5" pass; "1.2.3", "-1" and "1e5" do not. */
  lemma HandleChangeExamples()
    ensures HandleChange("0.10") == Some("0.10")
    ensures HandleChange(".5") == Some(".5")
    ensures HandleChange("") == Some("")
    ensures HandleChange("1.2.3") == None
    ensures HandleChange("-1") == None
    ensures HandleChange("1e5") == None
  {
    assert DotCount("1.2.3") == 2 by {
      assert "1.2.3"[1..] == ".2.3";
      assert ".2.3"[1..] == "2.3";
      assert "2.3"[1..] == ".3";
      assert ".3"[1..] == "3";
      assert "3"[1..] == "";
    }
    assert !DigitsAndDots("-1") by { assert "-1"[0] == '-'; }
    assert !DigitsAndDots("1e5") by { assert "1e5"[1] == 'e'; }
  }

  /** The trigger label of the token selector: the selected name up to its first space (`name.split(" ")[0]`). */
  function TriggerLabel(name: string): (word: string)
    ensures word <= name
    ensures ' ' !in word
    ensures |word| < |name| ==> name[|word|] == ' '
  {
    if name == [] || name[0] == ' ' then []
    else [name[0]] + TriggerLabel(name[1..])
  }

  /** A name is labelled by the word before its first space, and a name without a space by itself. */
  lemma {:induction false} TriggerLabelOfWords(word: string, rest: string)
    requires ' ' !in word
    ensures TriggerLabel(word + " " + rest) == word
    ensures TriggerLabel(word) == word
  {
    if word != [] {
      TriggerLabelOfWords(word[1..], rest);
      assert (word + " " + rest)[1..] == word[1..] + " " + rest;
      assert (word + " " + rest)[0] == word[0];
    } else {
      assert (word + " " + rest)[0] == ' ';
    }
  }

  /** "USDT - CELO" is labelled "USDT"; a name without a space is shown whole. */
  lemma TriggerLabelExamples()
    ensures TriggerLabel("USDT - CELO") == "USDT"
    ensures TriggerLabel("ETH") == "ETH"
  {
    TriggerLabelOfWords("USDT", "- CELO");
    assert "USDT" + " " + "- CELO" == "USDT - CELO";
    TriggerLabelOfWords("ETH", "");
  }
}

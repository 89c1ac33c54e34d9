/**
 * The display field name of a trend series in the chart (src/components/dashboard/FinancialChart.tsx:60-64):
 * the category prefix is removed, a space goes before every capital, the first letter is upper-cased
 * and the result is trimmed.
 */
module ChartKeys {
  import opened Wrappers
  import opened Text

  /** `categoryFilter + '_'`: with no category this is the string "undefined_". */
  function RemovedPrefix(category: Option<string>): string {
    (if category.Some? then category.value else "undefined") + "_"
  }

  /** The display field name of a series key (src/components/dashboard/FinancialChart.tsx:60-64). */
  function CleanKey(key: string, category: Option<string>): (r: string)
    ensures StartsWith(key, RemovedPrefix(category)) ==>
              r == Trim(UpperFirst(SpaceBeforeCapitals(key[|RemovedPrefix(category)|..])))
    ensures (forall j: nat :: !OccursAt(key, RemovedPrefix(category), j)) ==>
              r == Trim(UpperFirst(SpaceBeforeCapitals(key)))
  {
    ReplaceFirstEmpty(key, RemovedPrefix(category));
    Trim(UpperFirst(SpaceBeforeCapitals(ReplaceFirst(key, RemovedPrefix(category), ""))))
  }

  /** A series name as the ratio keys spell them: starting lower-case, ending in a visible character. */
  predicate PlainName(name: string) {
    && |name| > 0
    && !IsAsciiUpper(name[0]) && !IsLineTerminator(name[0]) && !IsJsWhitespace(ToUpperChar(name[0]))
    && !IsJsWhitespace(name[|name| - 1])
  }

  /** A key `<category>_<name>` shows as the name with its first letter upper-cased and a space before every later capital. */
  lemma CleanKeyOfCamelCase(category: Option<string>, name: string)
    requires PlainName(name)
    ensures CleanKey(RemovedPrefix(category) + name, category) == [ToUpperChar(name[0])] + SpaceBeforeCapitals(name[1..])
  {
    var prefix := RemovedPrefix(category);
    var key := prefix + name;
    assert StartsWith(key, prefix) && key[|prefix|..] == name by {
      assert key[..|prefix|] == prefix;
    }
    DisplayOfPlainName(name);
  }

  /** A key that does not contain the removed prefix keeps all its text: only the spacing and the first letter change. */
  lemma CleanKeyKeepsOtherPrefix(category: Option<string>, name: string)
    requires PlainName(name)
    requires forall j: nat :: !OccursAt(name, RemovedPrefix(category), j)
    ensures CleanKey(name, category) == [ToUpperChar(name[0])] + SpaceBeforeCapitals(name[1..])
  {
    DisplayOfPlainName(name);
  }

  lemma DisplayOfPlainName(name: string)
    requires PlainName(name)
    ensures Trim(UpperFirst(SpaceBeforeCapitals(name))) == [ToUpperChar(name[0])] + SpaceBeforeCapitals(name[1..])
  {
    var tail := SpaceBeforeCapitals(name[1..]);
    assert SpaceBeforeCapitals(name) == [name[0]] + tail;
    UpperFirstCons(name[0], tail);
    var upper := [ToUpperChar(name[0])] + tail;
    if |name| > 1 {
      SpaceBeforeCapitalsLast(name[1..]);
      assert upper[|upper| - 1] == tail[|tail| - 1];
    }
    TrimmedAlready(upper);
  }

  /** A name without a capital, such as `roe`, is only capitalised: `profitability_roe` shows as `Roe`. */
  lemma CleanKeyNoCapital(category: Option<string>, name: string)
    requires PlainName(name) && NoCapitals(name)
    ensures CleanKey(RemovedPrefix(category) + name, category) == [ToUpperChar(name[0])] + name[1..]
  {
    CleanKeyOfCamelCase(category, name);
    SpaceBeforeCapitalsNoUpper(name[1..]);
  }

  /**
   * A camel-case name of several words, such as `loan` `To` `Deposit` `Ratio`, shows as its words
   * separated by spaces with the first one capitalised: `Loan To Deposit Ratio`.
   */
  lemma CleanKeyCapitals(category: Option<string>, first: string, words: seq<string>)
    requires PlainName(first + Concat(words)) && NoCapitals(first) && |first| > 0
    requires forall i :: 0 <= i < |words| ==> CapitalWord(words[i])
    ensures CleanKey(RemovedPrefix(category) + (first + Concat(words)), category)
            == [ToUpperChar(first[0])] + first[1..] + SpacedWords(words)
  {
    var name := first + Concat(words);
    CleanKeyOfCamelCase(category, name);
    SpacedName(first, words);
  }

  /** `liquidity_loanToDepositRatio` shows as `Loan To Deposit Ratio`. */
  lemma CleanKeyLoanToDeposit(category: Option<string>)
    ensures CleanKey(RemovedPrefix(category) + "loanToDepositRatio", category) == "Loan To Deposit Ratio"
  {
    var words := ["To", "Deposit", "Ratio"];
    WordsOfLoanToDeposit(words);
    assert forall i :: 0 <= i < |words| ==> CapitalWord(words[i]) by {
      forall i | 0 <= i < |words| ensures CapitalWord(words[i]) {
        assert i == 0 || i == 1 || i == 2;
      }
    }
    LoanToDepositLetters();
    CleanKeyCapitals(category, "loan", words);
  }

  lemma WordsOfLoanToDeposit(words: seq<string>)
    requires words == ["To", "Deposit", "Ratio"]
    ensures |words| == 3 && CapitalWord(words[0]) && CapitalWord(words[1]) && CapitalWord(words[2])
    ensures Concat(words) == "To" + "Deposit" + "Ratio"
    ensures SpacedWords(words) == [' '] + "To" + ([' '] + "Deposit") + ([' '] + "Ratio")
  {
    ThreeWords("To", "Deposit", "Ratio");
    CapitalWords();
  }

  lemma CapitalWords()
    ensures CapitalWord("To") && CapitalWord("Deposit") && CapitalWord("Ratio")
  {
    assert "To"[1..] == "o" && "Deposit"[1..] == "eposit" && "Ratio"[1..] == "atio";
  }

  lemma LoanToDepositLetters()
    ensures "loan" + ("To" + "Deposit" + "Ratio") == "loanToDepositRatio"
    ensures [ToUpperChar('l')] + "oan" + ([' '] + "To" + ([' '] + "Deposit") + ([' '] + "Ratio")) == "Loan To Deposit Ratio"
  {
  }

  lemma ThreeWords(a: string, b: string, c: string)
    ensures Concat([a, b, c]) == a + b + c
    ensures SpacedWords([a, b, c]) == [' '] + a + ([' '] + b) + ([' '] + c)
  {
    var ws, ab := [a, b, c], [a, b];
    assert ws[..2] == ab && ab[..1] == [a] && [a][..0] == [];
    assert Concat([a]) == a;
    assert Concat(ab) == a + b;
    assert Concat(ws) == Concat(ab) + c;
    assert SpacedWords([a]) == [' '] + a;
    assert SpacedWords(ab) == [' '] + a + ([' '] + b);
    assert SpacedWords(ws) == SpacedWords(ab) + ([' '] + c);
  }

  lemma SpacedName(first: string, words: seq<string>)
    requires NoCapitals(first) && |first| > 0
    requires forall i :: 0 <= i < |words| ==> CapitalWord(words[i])
    ensures var name := first + Concat(words);
            [ToUpperChar(name[0])] + SpaceBeforeCapitals(name[1..]) == [ToUpperChar(first[0])] + first[1..] + SpacedWords(words)
  {
    SpaceBeforeCapitalsWords(words);
    SpacedAfterFirst(first, Concat(words), SpacedWords(words));
  }

  lemma SpacedAfterFirst(first: string, rest: string, spaced: string)
    requires NoCapitals(first) && |first| > 0
    requires SpaceBeforeCapitals(rest) == spaced
    ensures var name := first + rest;
            [ToUpperChar(name[0])] + SpaceBeforeCapitals(name[1..]) == [ToUpperChar(first[0])] + first[1..] + spaced
  {
    var name := first + rest;
    var a := first[1..];
    assert name[0] == first[0] && name[1..] == a + rest;
    assert NoCapitals(a) by { assert forall i :: 0 <= i < |a| ==> a[i] == first[i + 1]; }
    SpaceBeforeCapitalsAppend(a, rest);
    SpaceBeforeCapitalsNoUpper(a);
  }

  lemma TrimmedAlready(s: string)
    requires |s| > 0 && !IsJsWhitespace(s[0]) && !IsJsWhitespace(s[|s| - 1])
    ensures Trim(s) == s
  {
  }

  /** `s.replace(prefix, "")` when `s` starts with `prefix`, and when `prefix` does not occur in `s`. */
  lemma ReplaceFirstEmpty(s: string, prefix: string)
    ensures StartsWith(s, prefix) ==> ReplaceFirst(s, prefix, "") == s[|prefix|..]
    ensures (forall j: nat :: !OccursAt(s, prefix, j)) ==> ReplaceFirst(s, prefix, "") == s
  {
    if StartsWith(s, prefix) {
      ReplaceLeadingPrefix(s, prefix);
    }
    if forall j: nat :: !OccursAt(s, prefix, j) {
      ReplaceFirstAbsent(s, prefix, "");
    }
  }

  /** `s.replace(prefix, "")` when `s` starts with `prefix`. */
  lemma ReplaceLeadingPrefix(s: string, prefix: string)
    requires StartsWith(s, prefix)
    ensures ReplaceFirst(s, prefix, "") == s[|prefix|..]
  {
    ReplaceFirstAt(s, prefix, "", 0);
    assert s[..0] + "" + s[|prefix|..] == s[|prefix|..];
  }
}

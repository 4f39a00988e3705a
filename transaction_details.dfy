/** The transaction details dialog: the currency sign shown beside the
    amount and the sign in front of it. */
module TransactionDetails {
  import opened Types

  /** `getCurrencySymbol`: the last of the space-separated parts, that is
      the text after the last space (the whole text when it has none). */
  function CurrencySymbol(s: string): (r: string)
    ensures |r| <= |s| && r == s[|s| - |r|..]
    ensures forall i :: 0 <= i < |r| ==> r[i] != ' '
    ensures |r| < |s| ==> s[|s| - |r| - 1] == ' '
  {
    if s == [] then []
    else if s[|s| - 1] == ' ' then []
    else CurrencySymbol(s[..|s| - 1]) + [s[|s| - 1]]
  }

  /** The symbol is exactly what follows the last space. */
  lemma {:induction false} AfterLastSpace(s: string, i: nat)
    requires i < |s| && s[i] == ' '
    requires forall j :: i < j < |s| ==> s[j] != ' '
    ensures CurrencySymbol(s) == s[i + 1..]
  {
    if i < |s| - 1 {
      var front := s[..|s| - 1];
      AfterLastSpace(front, i);
      assert front[i + 1..] + [s[|s| - 1]] == s[i + 1..];
    }
  }

  /** Text without a space is its own symbol. */
  lemma NoSpaceIsWhole(s: string)
    requires forall j :: 0 <= j < |s| ==> s[j] != ' '
    ensures CurrencySymbol(s) == s
  {
  }

  /** For each currency the symbol is what follows its code, e.g. "$" for "USD $". */
  lemma SymbolOfCurrency(c: Currency)
    ensures CurrencySymbol(CurrencyText(c)) == CurrencyText(c)[4..]
    ensures CurrencySymbol(CurrencyText(USD)) == "$"
  {
    AfterLastSpace(CurrencyText(c), 3);
    AfterLastSpace(CurrencyText(USD), 3);
  }

  /** The sign shown before an amount: "+" for income, "-" otherwise. */
  function AmountSign(k: TxType): (s: string)
    ensures s == "+" <==> k == Income
    ensures s == "-" <==> k == Expense
  {
    var s := if k == Income then "+" else "-";
    assert s[0] == (if k == Income then '+' else '-');
    s
  }
}

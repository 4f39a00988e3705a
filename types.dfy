/** The domain records of the expense tracker: transaction kinds,
    categories, transactions (which embed their category by value), the
    currency and language enumerations and the settings record. */
module Types {
  import opened Seqs
  import opened JsNumbers

  /** `TransactionType`: exactly the two values `'income'` and `'expense'`. */
  datatype TxType = Income | Expense

  function TxTypeText(k: TxType): (s: string)
    ensures s == "income" <==> k == Income
    ensures s == "expense" <==> k == Expense
  {
    match k
    case Income => "income"
    case Expense => "expense"
  }

  /** A category; every field, `description` included, is required.
      (`type` is a reserved word in Dafny, so the field is `kind`.) */
  datatype Category = Category(id: string, name: string, description: string, kind: TxType)

  /** A calendar date `YYYY-MM-DD` with a 1-based month. */
  datatype Date = Date(year: nat, month: nat, day: nat)

  /** A transaction carries a full copy of its category, not a category id,
      and has no notes field. */
  datatype Transaction = Transaction(id: string, date: Date, amount: Number, kind: TxType, category: Category)

  datatype Currency = BDT | USD | EUR | GBP | JPY

  predicate IsUpperLetter(c: char) {
    'A' <= c <= 'Z'
  }

  /** The string value of each `Currency` member: a three-letter code, one
      space, then the currency sign. */
  function CurrencyText(c: Currency): (s: string)
    ensures |s| == 5 && s[3] == ' ' && s[4] != ' '
    ensures IsUpperLetter(s[0]) && IsUpperLetter(s[1]) && IsUpperLetter(s[2])
  {
    match c
    case BDT => "BDT ৳"
    case USD => "USD $"
    case EUR => "EUR €"
    case GBP => "GBP £"
    case JPY => "JPY ¥"
  }

  /** No two currencies share a string value. */
  lemma CurrencyTextInjective(a: Currency, b: Currency)
    ensures CurrencyText(a) == CurrencyText(b) <==> a == b
  {
    if a != b {
      assert CurrencyText(a)[..3] != CurrencyText(b)[..3];
    }
  }

  datatype Language = EN | BN | NL | ES | PT | AR

  function LanguageText(l: Language): (s: string)
    ensures |s| > 0
  {
    match l
    case EN => "English"
    case BN => "Bangla"
    case NL => "Dutch"
    case ES => "Spanish"
    case PT => "Portuguese"
    case AR => "Arabic"
  }

  /** No two languages share a string value. */
  lemma LanguageTextInjective(a: Language, b: Language)
    ensures LanguageText(a) == LanguageText(b) <==> a == b
  {
    if a != b {
      assert LanguageText(a)[0] != LanguageText(b)[0];
    }
  }

  /** The settings record: currency, user name and language, nothing else. */
  datatype AppSettings = AppSettings(currency: Currency, userName: string, language: Language)

  function HasId(id: string): Category -> bool {
    (c: Category) => c.id == id
  }

  /** `categories.find(c => c.id === id)`. */
  function FindCategory(cs: seq<Category>, id: string): (r: Option<Category>)
    ensures r.Some? ==> r.value in cs && r.value.id == id
    ensures r.None? <==> forall i :: 0 <= i < |cs| ==> cs[i].id != id
    ensures r.Some? ==> exists i :: 0 <= i < |cs| && cs[i] == r.value && forall j :: 0 <= j < i ==> cs[j].id != id
  {
    Find(cs, HasId(id))
  }
}

/** The transaction editor dialog: its draft, the effects that fill the
    draft when the dialog opens or categories arrive, the field handlers
    (with the amount-text check), and the save decision. */
module TransactionEditor {
  import opened Seqs
  import opened JsNumbers
  import opened Types
  import Store

  // ---------------------------------------------------------------------
  // The amount text check `/^[0-9]*\.?[0-9]*$/`

  /** A left-to-right recogniser for the pattern: digits, at most one '.'
      (once `seenDot`, no further '.'), more digits. */
  predicate ScanAmount(s: string, seenDot: bool) {
    if s == [] then true
    else if IsDigit(s[0]) then ScanAmount(s[1..], seenDot)
    else if s[0] == '.' && !seenDot then ScanAmount(s[1..], true)
    else false
  }

  /** `/^[0-9]*\.?[0-9]*$/.test(s)`: the text is digits with at most one '.'. */
  predicate IsAmountText(s: string)
    ensures IsAmountText(s) <==> OnlyDigitsAndDots(s) && AtMostOneDot(s)
  {
    RecogniserShape(s, false);
    ScanAmount(s, false)
  }

  /** The pattern read as a regular expression: either digits only, or a
      '.' with digits only on each side of it. */
  ghost predicate PatternMatches(s: string) {
    AllDigits(s) ||
    exists i :: 0 <= i < |s| && s[i] == '.' && AllDigits(s[..i]) && AllDigits(s[i + 1..])
  }

  lemma {:induction false} ScanAfterDot(s: string)
    ensures ScanAmount(s, true) <==> AllDigits(s)
  {
    if s != [] {
      ScanAfterDot(s[1..]);
      assert AllDigits(s) <==> IsDigit(s[0]) && AllDigits(s[1..]);
    }
  }

  /** A split point of the tail is a split point of the whole string. */
  lemma SplitAfterDigit(s: string, i: nat)
    requires s != [] && IsDigit(s[0])
    requires i < |s| - 1 && s[1..][i] == '.' && AllDigits(s[1..][..i]) && AllDigits(s[1..][i + 1..])
    ensures s[i + 1] == '.' && AllDigits(s[..i + 1]) && AllDigits(s[i + 2..])
  {
    assert s[..i + 1] == [s[0]] + s[1..][..i];
    assert s[i + 2..] == s[1..][i + 1..];
  }

  /** A split point of the whole string, after a leading digit, is one of the tail. */
  lemma SplitOfTail(s: string, i: nat)
    requires s != [] && IsDigit(s[0])
    requires 0 < i < |s| && s[i] == '.' && AllDigits(s[..i]) && AllDigits(s[i + 1..])
    ensures s[1..][i - 1] == '.' && AllDigits(s[1..][..i - 1]) && AllDigits(s[1..][i..])
  {
    assert s[1..][..i - 1] == s[..i][1..];
    assert s[1..][i..] == s[i + 1..];
  }

  /** A leading digit does not change whether the pattern matches. */
  lemma PatternAfterDigit(s: string)
    requires s != [] && IsDigit(s[0])
    ensures PatternMatches(s) <==> PatternMatches(s[1..])
  {
    var rest := s[1..];
    assert AllDigits(s) <==> AllDigits(rest) by {
      assert forall j :: 0 < j < |s| ==> s[j] == rest[j - 1];
    }
    if PatternMatches(rest) && !AllDigits(rest) {
      var i :| 0 <= i < |rest| && rest[i] == '.' && AllDigits(rest[..i]) && AllDigits(rest[i + 1..]);
      SplitAfterDigit(s, i);
    }
    if PatternMatches(s) && !AllDigits(s) {
      var i :| 0 <= i < |s| && s[i] == '.' && AllDigits(s[..i]) && AllDigits(s[i + 1..]);
      SplitOfTail(s, i);
    }
  }

  /** After a leading '.', the pattern allows digits only. */
  lemma PatternAfterDot(s: string)
    requires s != [] && s[0] == '.'
    ensures PatternMatches(s) <==> AllDigits(s[1..])
  {
    assert s[..0] == [];
    if PatternMatches(s) && !AllDigits(s) {
      var i :| 0 <= i < |s| && s[i] == '.' && AllDigits(s[..i]) && AllDigits(s[i + 1..]);
      assert forall j :: 0 < j <= |s| ==> s[..j][0] == s[0];
    }
  }

  /** Any other leading character rules the pattern out. */
  lemma PatternRejectsOther(s: string)
    requires s != [] && !IsDigit(s[0]) && s[0] != '.'
    ensures !PatternMatches(s)
  {
    assert forall j :: 0 < j <= |s| ==> s[..j][0] == s[0];
  }

  /** The recogniser accepts exactly the strings the pattern matches. */
  lemma {:induction false} RecogniserMatchesPattern(s: string)
    ensures IsAmountText(s) <==> PatternMatches(s)
  {
    if s == [] {
      return;
    }
    if IsDigit(s[0]) {
      RecogniserMatchesPattern(s[1..]);
      PatternAfterDigit(s);
    } else if s[0] == '.' {
      ScanAfterDot(s[1..]);
      PatternAfterDot(s);
    } else {
      PatternRejectsOther(s);
    }
  }

  predicate OnlyDigitsAndDots(s: string) {
    forall i :: 0 <= i < |s| ==> IsDigit(s[i]) || s[i] == '.'
  }

  predicate AtMostOneDot(s: string) {
    forall i, j :: 0 <= i < j < |s| && s[i] == '.' ==> s[j] != '.'
  }

  predicate NoDot(s: string) {
    forall i :: 0 <= i < |s| ==> s[i] != '.'
  }

  /** The recogniser accepts exactly the strings of digits with at most one '.'. */
  lemma {:induction false} RecogniserShape(s: string, seenDot: bool)
    ensures ScanAmount(s, seenDot) <==> OnlyDigitsAndDots(s) && AtMostOneDot(s) && (seenDot ==> NoDot(s))
  {
    if s != [] {
      var rest := s[1..];
      assert forall i :: 0 < i < |s| ==> s[i] == rest[i - 1];
      if IsDigit(s[0]) {
        RecogniserShape(rest, seenDot);
      } else if s[0] == '.' && !seenDot {
        RecogniserShape(rest, true);
      }
    }
  }

  /** Among accepted texts, `parseFloat` fails exactly on those without a
      digit, that is on "" and ".". */
  lemma AcceptedAmountParses(s: string)
    requires IsAmountText(s)
    ensures ParseFloat(s).NaN? <==> !HasDigit(s)
    ensures !HasDigit(s) <==> s == "" || s == "."
  {
    RecogniserMatchesPattern(s);
    if AllDigits(s) {
      LeadingDigitCountIs(s, |s|);
      assert |s| > 0 ==> IsDigit(s[0]);
    } else {
      var i :| 0 <= i < |s| && s[i] == '.' && AllDigits(s[..i]) && AllDigits(s[i + 1..]);
      LeadingDigitCountIs(s, i);
      assert forall j :: 0 <= j < i ==> s[..i][j] == s[j];
      assert forall j :: i < j < |s| ==> s[i + 1..][j - i - 1] == s[j];
      if i == 0 {
        assert s[1..][..|s| - 1] == s[1..];
        LeadingDigitCountIs(s[1..], |s| - 1);
        assert |s| > 1 ==> IsDigit(s[1]);
      } else {
        assert IsDigit(s[0]);
      }
    }
  }

  // ---------------------------------------------------------------------
  // The draft and its handlers

  /** `ModalTransactionState`: the amount is kept as text while editing,
      the category may be missing, and an id is present when editing an
      existing transaction. */
  datatype EditorDraft = EditorDraft(id: Option<string>, date: Date, amount: string, kind: TxType, category: Option<Category>, notes: string)

  /** The transaction the dialog is opened with: a stored transaction (with
      an id) or an unsaved one (without). */
  datatype InitialTransaction = InitialTransaction(id: Option<string>, date: Date, amount: Number, kind: TxType, category: Category)

  /** A change in one of the dialog's text fields. */
  datatype EditorInput = AmountInput(text: string) | DateInput(date: Date) | NotesInput(text: string)

  /** The draft's kind agrees with its category's kind. */
  predicate KindMatchesCategory(d: EditorDraft) {
    d.category.Some? ==> d.kind == d.category.value.kind
  }

  datatype Severity = Success | Error | Info | Warning

  /** Where a save is routed: a reported problem, or a transaction handed
      to `updateTransaction` (it has an id) or to `addTransaction`. */
  datatype SaveOutcome =
    | Rejected(message: string, severity: Severity)
    | Update(transaction: Transaction)
    | Add(transaction: Transaction)

  /** `handleSave`'s decision, given the draft, the store's categories and
      the id `uuidv4` would produce. */
  function SaveDecision(draft: Option<EditorDraft>, categories: seq<Category>, freshId: string): (r: SaveOutcome)
    ensures draft.None? || draft.value.category.None? ==>
              r.Rejected? && r.severity == (if |categories| == 0 then Info else Error)
    ensures draft.Some? && draft.value.category.Some? && ParseFloat(draft.value.amount).NaN? ==>
              r == Rejected("Invalid amount", Error)
    ensures r.Rejected? <==> draft.None? || draft.value.category.None? || ParseFloat(draft.value.amount).NaN?
    ensures !r.Rejected? ==>
              && r.transaction.amount == ParseFloat(draft.value.amount)
              && r.transaction.amount.Finite?
              && r.transaction.date == draft.value.date
              && r.transaction.kind == draft.value.kind
              && r.transaction.category == draft.value.category.value
    ensures r.Update? <==> !r.Rejected? && draft.value.id.Some? && draft.value.id.value != []
    ensures r.Update? ==> r.transaction.id == draft.value.id.value
    ensures r.Add? ==> r.transaction.id == freshId
  {
    if draft.Some? && draft.value.category.Some? then
      var d := draft.value;
      var amount := ParseFloat(d.amount);
      if amount.NaN? then Rejected("Invalid amount", Error)
      else if d.id.Some? && d.id.value != [] then Update(Transaction(d.id.value, d.date, amount, d.kind, d.category.value))
      else Add(Transaction(freshId, d.date, amount, d.kind, d.category.value))
    else if |categories| == 0 then Rejected("Please wait for categories to load", Info)
    else Rejected("please_select_category_for_transaction", Error)
  }

  /** With a category chosen and an amount typed through the amount check,
      a save is refused for its amount exactly when the text is "" or ".". */
  lemma SaveRefusesOnlyDigitlessAmounts(d: EditorDraft, categories: seq<Category>, freshId: string)
    requires d.category.Some? && IsAmountText(d.amount)
    ensures SaveDecision(Some(d), categories, freshId).Rejected? <==> d.amount == "" || d.amount == "."
  {
    AcceptedAmountParses(d.amount);
  }

  /** A draft reopened on a stored negative amount, such as "-3", is not
      refused: it goes to update with that negative amount. */
  lemma SaveOfStoredNegativeAmount(d: EditorDraft, categories: seq<Category>, freshId: string, t: string)
    requires d.category.Some? && d.id.Some? && d.id.value != []
    requires t != [] && AllDigits(t) && d.amount == ['-'] + t
    ensures SaveDecision(Some(d), categories, freshId)
            == Update(Transaction(d.id.value, d.date, Finite(-(DigitsValue(t) as real)), d.kind, d.category.value))
  {
    ParseFloatOfNegative(t);
    ParseFloatOfDigits(t);
  }

  class TransactionEditor {
    var draft: Option<EditorDraft>

    constructor ()
      ensures draft == None
    {
      draft := None;
    }

    /** The effect that fills the draft while the dialog is open: from the
        given transaction (amount rendered as text, notes empty), else from
        the first category with amount "0", else with no category and kind
        expense. */
    method Open(open: bool, initial: Option<InitialTransaction>, initialAmountText: string, categories: seq<Category>, today: Date)
      modifies this
      ensures !open ==> draft == old(draft)
      ensures open && initial.Some? ==>
                var t := initial.value;
                draft == Some(EditorDraft(t.id, t.date, initialAmountText, t.kind, Some(t.category), ""))
      ensures open && initial.None? && |categories| > 0 ==>
                draft == Some(EditorDraft(None, today, "0", categories[0].kind, Some(categories[0]), ""))
      ensures open && initial.None? && |categories| == 0 ==>
                draft == Some(EditorDraft(None, today, "0", Expense, None, ""))
      ensures open && (initial.None? || initial.value.kind == initial.value.category.kind) ==>
                KindMatchesCategory(draft.value)
      ensures open && initial.None? ==> IsAmountText(draft.value.amount)
    {
      if open {
        if initial.Some? {
          var t := initial.value;
          draft := Some(EditorDraft(t.id, t.date, initialAmountText, t.kind, Some(t.category), ""));
        } else if |categories| > 0 {
          draft := Some(EditorDraft(None, today, "0", categories[0].kind, Some(categories[0]), ""));
        } else {
          draft := Some(EditorDraft(None, today, "0", Expense, None, ""));
        }
      }
    }

    /** The effect that picks the first category, with its kind, for a
        draft that has none once categories are available. */
    method AutoSelect(categories: seq<Category>)
      modifies this
      ensures old(draft).Some? && old(draft).value.category.None? && |categories| > 0 ==>
                draft == Some(old(draft).value.(category := Some(categories[0]), kind := categories[0].kind))
      ensures !(old(draft).Some? && old(draft).value.category.None? && |categories| > 0) ==> draft == old(draft)
      ensures draft.Some? && old(KindMatchesCategory(draft.value)) ==> KindMatchesCategory(draft.value)
    {
      if draft.Some? && draft.value.category.None? && |categories| > 0 {
        draft := Some(draft.value.(category := Some(categories[0]), kind := categories[0].kind));
      }
    }

    /** `handleInputChange`: an amount text is taken only when it is empty
        or passes the amount check; date and notes are copied. Only the
        named field changes. */
    method Edit(input: EditorInput)
      modifies this
      ensures old(draft).None? ==> draft == None
      ensures old(draft).Some? ==>
                var d := old(draft).value;
                draft == Some(match input
                              case AmountInput(text) => if text == [] || IsAmountText(text) then d.(amount := text) else d
                              case DateInput(date) => d.(date := date)
                              case NotesInput(text) => d.(notes := text))
      ensures draft.Some? && old(KindMatchesCategory(draft.value)) ==> KindMatchesCategory(draft.value)
      ensures draft.Some? && old(IsAmountText(draft.value.amount)) ==> IsAmountText(draft.value.amount)
    {
      if draft.Some? {
        var d := draft.value;
        match input
        case AmountInput(text) =>
          if text == [] || IsAmountText(text) {
            draft := Some(d.(amount := text));
          }
        case DateInput(date) =>
          draft := Some(d.(date := date));
        case NotesInput(text) =>
          draft := Some(d.(notes := text));
      }
    }

    /** `handleSelectChange` on the category select: a known id sets the
        category and its kind together; an unknown id changes nothing. */
    method SelectCategory(id: string, categories: seq<Category>)
      modifies this
      ensures old(draft).Some? && FindCategory(categories, id).Some? ==>
                var c := FindCategory(categories, id).value;
                draft == Some(old(draft).value.(category := Some(c), kind := c.kind))
      ensures old(draft).None? || FindCategory(categories, id).None? ==> draft == old(draft)
      ensures draft.Some? && old(draft).Some? && draft != old(draft) ==> KindMatchesCategory(draft.value)
      ensures draft.Some? && old(KindMatchesCategory(draft.value)) ==> KindMatchesCategory(draft.value)
    {
      if draft.Some? {
        var found := FindCategory(categories, id);
        if found.Some? {
          var c := found.value;
          draft := Some(draft.value.(category := Some(c), kind := c.kind));
        }
      }
    }

    /** `handleSave`: applies SaveDecision. An addition reaches the store
        and closes the dialog. An update calls `updateTransaction`, which the
        store does not define: the call throws before the success notice and
        `onClose`, so the store is left as it is and the dialog stays open.
        A rejection only reports. The draft is not changed. */
    method Save(store: Store.Store, freshId: string) returns (outcome: SaveOutcome, closed: bool, threw: bool)
      modifies store
      ensures outcome == SaveDecision(draft, old(store.categories), freshId)
      ensures closed <==> outcome.Add?
      ensures threw <==> outcome.Update?
      ensures outcome.Add? ==> store.transactions == old(store.transactions) + [outcome.transaction]
      ensures !outcome.Add? ==> store.transactions == old(store.transactions)
      ensures store.categories == old(store.categories) && store.settings == old(store.settings)
    {
      outcome := SaveDecision(draft, store.categories, freshId);
      if outcome.Add? {
        store.AddTransaction(outcome.transaction);
      }
      closed := outcome.Add?;
      threw := outcome.Update?;
    }
  }
}

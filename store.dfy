/** The persisted application store: transactions, categories and settings,
    changed only through six actions. Each action replaces one or more
    fields with a new value computed from the old one; those computations
    are the functions at the top, the store object is the class below. */
module Store {
  import opened Seqs
  import opened Types

  /** The `{ transactions, categories, settings }` document `importData` takes. */
  datatype StoreData = StoreData(transactions: seq<Transaction>, categories: seq<Category>, settings: AppSettings)

  /** The settings a fresh store starts with. */
  function DefaultSettings(): (s: AppSettings)
    ensures s.currency == USD && s.userName == "User" && s.language == EN
  {
    AppSettings(USD, "User", EN)
  }

  /** `categories.map(c => c.id === u.id ? u : c)`. */
  function ReplaceById(cs: seq<Category>, u: Category): (r: seq<Category>)
    ensures |r| == |cs|
  {
    if cs == [] then []
    else [if cs[0].id == u.id then u else cs[0]] + ReplaceById(cs[1..], u)
  }

  /** Every entry carrying the updated id (duplicates included) becomes the
      update; every other entry stays where it was. */
  lemma {:induction false} ReplaceByIdAt(cs: seq<Category>, u: Category, i: nat)
    requires i < |cs|
    ensures ReplaceById(cs, u)[i] == if cs[i].id == u.id then u else cs[i]
  {
    if i > 0 {
      ReplaceByIdAt(cs[1..], u, i - 1);
    }
  }

  /** With no entry carrying the id, the update changes nothing. */
  lemma ReplaceByIdNoMatch(cs: seq<Category>, u: Category)
    requires forall i :: 0 <= i < |cs| ==> cs[i].id != u.id
    ensures ReplaceById(cs, u) == cs
  {
    forall i | 0 <= i < |cs| ensures ReplaceById(cs, u)[i] == cs[i] {
      ReplaceByIdAt(cs, u, i);
    }
  }

  /** Applying the same update twice is applying it once. */
  lemma ReplaceByIdIdempotent(cs: seq<Category>, u: Category)
    ensures ReplaceById(ReplaceById(cs, u), u) == ReplaceById(cs, u)
  {
    var once := ReplaceById(cs, u);
    forall i | 0 <= i < |cs| ensures ReplaceById(once, u)[i] == once[i] {
      ReplaceByIdAt(cs, u, i);
      ReplaceByIdAt(once, u, i);
    }
  }

  function IdIsNot(id: string): Category -> bool {
    (c: Category) => c.id != id
  }

  /** `categories.filter(c => c.id !== id)`. */
  function RemoveById(cs: seq<Category>, id: string): (r: seq<Category>)
    ensures forall i :: 0 <= i < |r| ==> r[i].id != id && r[i] in cs
    ensures forall i :: 0 <= i < |cs| && cs[i].id != id ==> cs[i] in r
    ensures forall i :: 0 <= i < |cs| ==> multiset(r)[cs[i]] == if cs[i].id != id then multiset(cs)[cs[i]] else 0
  {
    Filter(cs, IdIsNot(id))
  }

  /** Removal keeps the relative order of the remaining categories. */
  lemma RemoveByIdKeepsOrder(cs: seq<Category>, id: string)
    ensures IsSubsequence(RemoveById(cs, id), cs)
  {
    FilterIsSubsequence(cs, IdIsNot(id));
  }

  /** Removing an id no category carries changes nothing. */
  lemma RemoveByIdAbsent(cs: seq<Category>, id: string)
    requires forall i :: 0 <= i < |cs| ==> cs[i].id != id
    ensures RemoveById(cs, id) == cs
  {
    FilterAllPass(cs, IdIsNot(id));
  }

  /** Removing the same id twice is removing it once. */
  lemma RemoveByIdIdempotent(cs: seq<Category>, id: string)
    ensures RemoveById(RemoveById(cs, id), id) == RemoveById(cs, id)
  {
    FilterIdempotent(cs, IdIsNot(id));
  }

  /** The store object. */
  class Store {
    var transactions: seq<Transaction>
    var categories: seq<Category>
    var settings: AppSettings

    function Snapshot(): StoreData
      reads this
    {
      StoreData(transactions, categories, settings)
    }

    /** The initial state: no transactions, no categories, default settings. */
    constructor ()
      ensures transactions == [] && categories == []
      ensures settings == DefaultSettings()
    {
      transactions := [];
      categories := [];
      settings := DefaultSettings();
    }

    /** `addTransaction`: appends, without checking that the id is new. */
    method AddTransaction(t: Transaction)
      modifies this
      ensures transactions == old(transactions) + [t]
      ensures categories == old(categories) && settings == old(settings)
    {
      transactions := transactions + [t];
    }

    /** `addCategory`: appends, without checking that the id is new. */
    method AddCategory(c: Category)
      modifies this
      ensures categories == old(categories) + [c]
      ensures transactions == old(transactions) && settings == old(settings)
    {
      categories := categories + [c];
    }

    /** `updateCategory`: replaces every category with the same id. */
    method UpdateCategory(u: Category)
      modifies this
      ensures categories == ReplaceById(old(categories), u)
      ensures transactions == old(transactions) && settings == old(settings)
    {
      categories := ReplaceById(categories, u);
    }

    /** `deleteCategory`: drops every category with the id; transactions
        that embed such a category keep their copy. */
    method DeleteCategory(id: string)
      modifies this
      ensures categories == RemoveById(old(categories), id)
      ensures transactions == old(transactions) && settings == old(settings)
    {
      categories := RemoveById(categories, id);
    }

    /** `updateSettings`: replaces the settings record as a whole. */
    method UpdateSettings(s: AppSettings)
      modifies this
      ensures settings == s
      ensures transactions == old(transactions) && categories == old(categories)
    {
      settings := s;
    }

    /** `importData`: overwrites all three fields verbatim, so importing the
        current snapshot leaves the store as it was. */
    method ImportData(data: StoreData)
      modifies this
      ensures Snapshot() == data
      ensures old(Snapshot()) == data ==> Snapshot() == old(Snapshot())
    {
      transactions := data.transactions;
      categories := data.categories;
      settings := data.settings;
    }
  }
}

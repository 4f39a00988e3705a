/** The categories page: a form that either creates a new category or edits
    an existing one, and the list's edit and delete buttons. */
module CategoriesPage {
  import opened Seqs
  import opened Types
  import Store

  /** `Omit<Category, 'id'>`: the new-category form. */
  datatype CategoryDraft = CategoryDraft(name: string, description: string, kind: TxType)

  /** The form a first keystroke starts from. */
  const EmptyDraft: CategoryDraft := CategoryDraft("", "", Expense)

  /** The form's two text fields. */
  datatype TextField = NameField | DescriptionField

  /** Both required text fields are non-empty. */
  predicate IsFilled(name: string, description: string) {
    name != [] && description != []
  }

  class CategoriesPage {
    var newCategory: Option<CategoryDraft>
    var editingCategory: Option<Category>

    /** At most one of the two forms is in use. */
    predicate Valid()
      reads this
    {
      !(newCategory.Some? && editingCategory.Some?)
    }

    constructor ()
      ensures Valid()
      ensures newCategory == None && editingCategory == None
    {
      newCategory := None;
      editingCategory := None;
    }

    /** `handleInputChange`: in edit mode the edit goes to the category
        being edited, otherwise to the new-category form (started from an
        empty one). Only the named field of that form changes. */
    method InputChange(field: TextField, value: string)
      requires Valid()
      modifies this
      ensures Valid()
      ensures old(editingCategory).Some? ==>
                var c := old(editingCategory).value;
                && editingCategory == Some(match field
                                           case NameField => c.(name := value)
                                           case DescriptionField => c.(description := value))
                && newCategory == old(newCategory)
      ensures old(editingCategory).None? ==>
                var d := old(newCategory).GetOr(EmptyDraft);
                && newCategory == Some(match field
                                       case NameField => d.(name := value)
                                       case DescriptionField => d.(description := value))
                && editingCategory == None
    {
      if editingCategory.Some? {
        var c := editingCategory.value;
        match field
        case NameField => editingCategory := Some(c.(name := value));
        case DescriptionField => editingCategory := Some(c.(description := value));
      } else {
        var d := newCategory.GetOr(EmptyDraft);
        match field
        case NameField => newCategory := Some(d.(name := value));
        case DescriptionField => newCategory := Some(d.(description := value));
      }
    }

    /** `handleSelectChange` on the kind select, routed like InputChange. */
    method SelectKind(kind: TxType)
      requires Valid()
      modifies this
      ensures Valid()
      ensures old(editingCategory).Some? ==>
                editingCategory == Some(old(editingCategory).value.(kind := kind)) && newCategory == old(newCategory)
      ensures old(editingCategory).None? ==>
                newCategory == Some(old(newCategory).GetOr(EmptyDraft).(kind := kind)) && editingCategory == None
    {
      if editingCategory.Some? {
        editingCategory := Some(editingCategory.value.(kind := kind));
      } else {
        newCategory := Some(newCategory.GetOr(EmptyDraft).(kind := kind));
      }
    }

    /** `handleAddCategory`: a filled-in form is added under the fresh id and
        cleared; otherwise the user is alerted and nothing changes. */
    method AddCategory(store: Store.Store, freshId: string) returns (alerted: bool)
      requires Valid()
      modifies this, store
      ensures Valid()
      ensures alerted <==> !(old(newCategory).Some? && IsFilled(old(newCategory).value.name, old(newCategory).value.description))
      ensures !alerted ==>
                var d := old(newCategory).value;
                && store.categories == old(store.categories) + [Category(freshId, d.name, d.description, d.kind)]
                && newCategory == None
      ensures alerted ==> store.categories == old(store.categories) && newCategory == old(newCategory)
      ensures editingCategory == old(editingCategory)
      ensures store.transactions == old(store.transactions) && store.settings == old(store.settings)
    {
      if newCategory.Some? && IsFilled(newCategory.value.name, newCategory.value.description) {
        var d := newCategory.value;
        store.AddCategory(Category(freshId, d.name, d.description, d.kind));
        newCategory := None;
        alerted := false;
      } else {
        alerted := true;
      }
    }

    /** `handleUpdateCategory`: a filled-in edit replaces the categories with
        its id and leaves edit mode; otherwise the user is alerted and the
        page stays in edit mode with the store unchanged. */
    method UpdateCategory(store: Store.Store) returns (alerted: bool)
      requires Valid()
      modifies this, store
      ensures Valid()
      ensures alerted <==> !(old(editingCategory).Some? && IsFilled(old(editingCategory).value.name, old(editingCategory).value.description))
      ensures !alerted ==>
                store.categories == Store.ReplaceById(old(store.categories), old(editingCategory).value) && editingCategory == None
      ensures alerted ==> store.categories == old(store.categories) && editingCategory == old(editingCategory)
      ensures newCategory == old(newCategory)
      ensures store.transactions == old(store.transactions) && store.settings == old(store.settings)
    {
      if editingCategory.Some? && IsFilled(editingCategory.value.name, editingCategory.value.description) {
        store.UpdateCategory(editingCategory.value);
        editingCategory := None;
        alerted := false;
      } else {
        alerted := true;
      }
    }

    /** `handleDeleteCategory`: the category is deleted only when the user
        accepts the confirmation. */
    method DeleteCategory(store: Store.Store, id: string, confirmed: bool)
      modifies store
      ensures store.categories == if confirmed then Store.RemoveById(old(store.categories), id) else old(store.categories)
      ensures store.transactions == old(store.transactions) && store.settings == old(store.settings)
    {
      if confirmed {
        store.DeleteCategory(id);
      }
    }

    /** `handleEditClick`: edit the chosen category and clear the new-category form. */
    method EditClick(c: Category)
      modifies this
      ensures Valid()
      ensures editingCategory == Some(c) && newCategory == None
    {
      editingCategory := Some(c);
      newCategory := None;
    }

    /** `handleCancelEdit`: leave edit mode; the new-category form is kept. */
    method CancelEdit()
      requires Valid()
      modifies this
      ensures Valid()
      ensures editingCategory == None && newCategory == old(newCategory)
    {
      editingCategory := None;
    }
  }
}

/** The profile's address book: a list of addresses edited through one form
    that is either adding a new entry or editing an existing one. */
module AddressBook {
  import opened Wrappers
  import opened Seqs

  datatype AddressKind = Home | Work | Other

  datatype Address = Address(
    id: string,
    kind: AddressKind,
    name: string,
    street: string,
    city: string,
    state: string,
    zipCode: string,
    country: string,
    phone: Option<string>,
    isDefault: bool)

  /** The form's contents: `{}` when closed, otherwise a full draft. A new
      draft has no id until it is saved; `""` stands for that missing id. */
  datatype Form = EmptyForm | Draft(draft: Address)

  /** The blank draft `handleAddNew` opens. */
  const NewDraft := Address("", Home, "", "", "", "", "", "United States", Some(""), false)

  /** `handleSetDefault(id)`: every entry keeps its fields except the flag,
      which is set exactly on the entries with that id. */
  function WithDefault(addresses: seq<Address>, id: string): (r: seq<Address>)
    ensures |r| == |addresses|
    ensures forall i :: 0 <= i < |r| ==> r[i].(isDefault := false) == addresses[i].(isDefault := false)
    ensures forall i :: 0 <= i < |r| ==> (r[i].isDefault <==> addresses[i].id == id)
  {
    if addresses == [] then []
    else [addresses[0].(isDefault := addresses[0].id == id)] + WithDefault(addresses[1..], id)
  }

  /** The positions of the default entries. */
  function Defaults(addresses: seq<Address>): set<nat> {
    set i: nat | i < |addresses| && addresses[i].isDefault
  }

  /** When the id names exactly one entry, that entry is the only default. */
  lemma OneDefaultAfterSetDefault(addresses: seq<Address>, id: string, k: nat)
    requires k < |addresses| && addresses[k].id == id
    requires forall i :: 0 <= i < |addresses| && i != k ==> addresses[i].id != id
    ensures Defaults(WithDefault(addresses, id)) == {k}
  {
  }

  /** An unknown id leaves no default at all. */
  lemma NoDefaultForUnknownId(addresses: seq<Address>, id: string)
    requires forall i :: 0 <= i < |addresses| ==> addresses[i].id != id
    ensures Defaults(WithDefault(addresses, id)) == {}
  {
  }

  /** The test `addr => addr.id !== id`. */
  function IdIsNot(id: string): Address -> bool {
    (a: Address) => a.id != id
  }

  /** `handleDelete(id)` once confirmed: every entry with that id goes, the
      rest keep their order. */
  function Without(addresses: seq<Address>, id: string): (r: seq<Address>)
    ensures forall a :: a in r <==> a in addresses && a.id != id
    ensures |r| <= |addresses|
  {
    Filter(addresses, IdIsNot(id))
  }

  /** Deleting an id that no entry has changes nothing. */
  lemma DeleteAbsentIsNoOp(addresses: seq<Address>, id: string)
    requires forall i :: 0 <= i < |addresses| ==> addresses[i].id != id
    ensures Without(addresses, id) == addresses
  {
    FilterKeepsAll(addresses, IdIsNot(id));
  }

  /** Deleting is idempotent. */
  lemma DeleteTwice(addresses: seq<Address>, id: string)
    ensures Without(Without(addresses, id), id) == Without(addresses, id)
  {
    var once := Without(addresses, id);
    FilterKeepsAll(once, IdIsNot(id));
  }

  /** The edit-mode save: entries with the edited id become the draft, the
      others stay; the length never changes. */
  function Replaced(addresses: seq<Address>, id: string, draft: Address): (r: seq<Address>)
    ensures |r| == |addresses|
    ensures forall i :: 0 <= i < |r| ==> r[i] == if addresses[i].id == id then draft else addresses[i]
  {
    if addresses == [] then []
    else [if addresses[0].id == id then draft else addresses[0]] + Replaced(addresses[1..], id, draft)
  }

  /** The number of default entries. */
  function DefaultCount(addresses: seq<Address>): (n: nat)
    ensures n <= |addresses|
    ensures n == 0 <==> forall i :: 0 <= i < |addresses| ==> !addresses[i].isDefault
  {
    if addresses == [] then 0
    else (if addresses[0].isDefault then 1 else 0) + DefaultCount(addresses[1..])
  }

  /** Saving a new address never demotes the existing defaults: a draft
      marked default adds a second one. */
  lemma {:induction false} AppendCountsDefault(addresses: seq<Address>, a: Address)
    ensures DefaultCount(addresses + [a]) == DefaultCount(addresses) + (if a.isDefault then 1 else 0)
  {
    if addresses != [] {
      assert (addresses + [a])[1..] == addresses[1..] + [a];
      AppendCountsDefault(addresses[1..], a);
    }
  }

  class Book {
    var addresses: seq<Address>
    var isAddingNew: bool
    var editingId: Option<string>
    var formData: Form

    /** The two modes exclude each other, the form is open exactly in a mode,
        and when editing the draft carries the edited id. */
    predicate Valid()
      reads this
    {
      && !(isAddingNew && editingId.Some?)
      && ((isAddingNew || editingId.Some?) <==> formData.Draft?)
      && (editingId.Some? ==> formData.draft.id == editingId.value)
    }

    constructor (initial: seq<Address>)
      ensures Valid()
      ensures addresses == initial && !isAddingNew && editingId == None && formData == EmptyForm
    {
      addresses := initial;
      isAddingNew := false;
      editingId := None;
      formData := EmptyForm;
    }

    /** `handleAddNew`: opens a blank draft and leaves edit mode. */
    method AddNew()
      modifies this
      ensures Valid()
      ensures formData == Draft(NewDraft) && isAddingNew && editingId == None
      ensures addresses == old(addresses)
    {
      formData := Draft(NewDraft);
      isAddingNew := true;
      editingId := None;
    }

    /** `handleEdit(address)`: opens the address itself and leaves add mode. */
    method Edit(address: Address)
      modifies this
      ensures Valid()
      ensures formData == Draft(address) && editingId == Some(address.id) && !isAddingNew
      ensures addresses == old(addresses)
    {
      formData := Draft(address);
      editingId := Some(address.id);
      isAddingNew := false;
    }

    /** Typing into the open form: every field may change except the id. */
    method Fill(entry: Address)
      requires Valid() && formData.Draft?
      modifies this
      ensures Valid()
      ensures formData == Draft(entry.(id := old(formData).draft.id))
      ensures addresses == old(addresses) && isAddingNew == old(isAddingNew) && editingId == old(editingId)
    {
      formData := Draft(entry.(id := formData.draft.id));
    }

    /** `handleSave`: in add mode the draft is appended under the fresh id
        (`Date.now()` is a parameter); in edit mode with a truthy id the
        entries with that id are replaced; the form then closes. */
    method Save(freshId: string)
      requires Valid()
      modifies this
      ensures Valid()
      ensures !isAddingNew && editingId == None && formData == EmptyForm
      ensures old(isAddingNew) ==> addresses == old(addresses) + [old(formData).draft.(id := freshId)]
      ensures !old(isAddingNew) && old(editingId).Some? && old(editingId).value != "" ==>
        addresses == Replaced(old(addresses), old(editingId).value, old(formData).draft)
      ensures !old(isAddingNew) && !(old(editingId).Some? && old(editingId).value != "") ==>
        addresses == old(addresses)
    {
      if isAddingNew {
        addresses := addresses + [formData.draft.(id := freshId)];
      } else if editingId.Some? && editingId.value != "" {
        addresses := Replaced(addresses, editingId.value, formData.draft);
      }
      isAddingNew := false;
      editingId := None;
      formData := EmptyForm;
    }

    /** `handleCancel`: closes the form and keeps the list. */
    method Cancel()
      modifies this
      ensures Valid()
      ensures !isAddingNew && editingId == None && formData == EmptyForm
      ensures addresses == old(addresses)
    {
      isAddingNew := false;
      editingId := None;
      formData := EmptyForm;
    }

    /** `handleDelete(id)`; the answer to the confirmation dialog is a parameter. */
    method Delete(id: string, confirmed: bool)
      modifies this
      ensures addresses == if confirmed then Without(old(addresses), id) else old(addresses)
      ensures isAddingNew == old(isAddingNew) && editingId == old(editingId) && formData == old(formData)
    {
      if confirmed {
        addresses := Without(addresses, id);
      }
    }

    /** `handleSetDefault(id)`. */
    method SetDefault(id: string)
      modifies this
      ensures addresses == WithDefault(old(addresses), id)
      ensures isAddingNew == old(isAddingNew) && editingId == old(editingId) && formData == old(formData)
    {
      addresses := WithDefault(addresses, id);
    }
  }
}

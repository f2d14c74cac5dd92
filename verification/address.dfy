/** The address book of the checkout flow: a list of saved addresses with a
    radio selection, an add/edit form and the step on to payment. */
module Address {
  import opened Common

  /** The keys of the address form. */
  datatype FormKey = Label | CustomLabel | Name | Phone | House | Street | Landmark | City | Pincode | State

  /** The form's fields, all text; `labelText` is the `label` key. */
  datatype AddressForm = AddressForm(
    labelText: string, customLabel: string, name: string, phone: string, house: string,
    street: string, landmark: string, city: string, pincode: string, state: string)
  {
    function Get(k: FormKey): string
    {
      match k
      case Label => labelText
      case CustomLabel => customLabel
      case Name => name
      case Phone => phone
      case House => house
      case Street => street
      case Landmark => landmark
      case City => city
      case Pincode => pincode
      case State => state
    }

    /** `{ ...form, [key]: value }`: exactly one key takes the new value. */
    function Set(k: FormKey, v: string): (r: AddressForm)
      ensures r.Get(k) == v
      ensures forall other: FormKey :: other != k ==> r.Get(other) == Get(other)
    {
      match k
      case Label => this.(labelText := v)
      case CustomLabel => this.(customLabel := v)
      case Name => this.(name := v)
      case Phone => this.(phone := v)
      case House => this.(house := v)
      case Street => this.(street := v)
      case Landmark => this.(landmark := v)
      case City => this.(city := v)
      case Pincode => this.(pincode := v)
      case State => this.(state := v)
    }
  }

  const EmptyForm: AddressForm := AddressForm("", "", "", "", "", "", "", "", "", "")

  /** A saved address: the form fields under a numeric id. */
  datatype SavedAddress = SavedAddress(id: int, fields: AddressForm)

  function AddressId(a: SavedAddress): int
  {
    a.id
  }

  /** The one address the screen starts with; it has no custom label. */
  const SeedAddress: SavedAddress := SavedAddress(1, AddressForm(
    "Home", "", "Monika Rathore", "+91 9876543210", "123",
    "Green Street", "Near Metro Station", "New Delhi", "110001", "Delhi"))

  datatype Mode = List | Add | Edit

  /** The label that is saved: the custom text when "Other" is chosen and
      some custom text was typed, otherwise the chosen label. */
  function FinalLabel(form: AddressForm): (r: string)
    ensures form.labelText == "Other" && form.customLabel != "" ==> r == form.customLabel
    ensures !(form.labelText == "Other" && form.customLabel != "") ==> r == form.labelText
  {
    if form.labelText == "Other" && form.customLabel != "" then form.customLabel else form.labelText
  }

  /** The form as saved: the label resolved, everything else as typed. */
  function Resolved(form: AddressForm): (r: AddressForm)
    ensures r.labelText == FinalLabel(form)
    ensures forall k: FormKey :: k != Label ==> r.Get(k) == form.Get(k)
  {
    form.Set(Label, FinalLabel(form))
  }

  /** The edit branch's `map`: every address whose id equals `target` takes
      the form's fields and keeps its id; every other address is kept.
      `target` is the value the id is compared with, `None` standing for
      `undefined`. */
  function EditedAddresses(addresses: seq<SavedAddress>, target: Option<int>, form: AddressForm): (r: seq<SavedAddress>)
    ensures |r| == |addresses|
    ensures forall i :: 0 <= i < |r| ==> r[i].id == addresses[i].id
    ensures forall i :: 0 <= i < |r| ==>
      r[i].fields == if Some(addresses[i].id) == target then form else addresses[i].fields
  {
    if addresses == [] then []
    else
      var a := addresses[0];
      [if Some(a.id) == target then SavedAddress(a.id, form) else a] + EditedAddresses(addresses[1..], target, form)
  }

  /** Comparing the ids with `undefined` matches nothing: the list comes back
      unchanged. */
  lemma {:induction false} EditAgainstUndefinedIsNoOp(addresses: seq<SavedAddress>, form: AddressForm)
    ensures EditedAddresses(addresses, None, form) == addresses
  {
    if addresses != [] {
      EditAgainstUndefinedIsNoOp(addresses[1..], form);
    }
  }

  /** The address the selection names, if it is still in the list: the
      first address with that id. */
  function FindSelected(addresses: seq<SavedAddress>, selected: Option<int>): (r: Option<SavedAddress>)
    ensures r.Some? <==> exists i :: 0 <= i < |addresses| && Some(addresses[i].id) == selected
    ensures r.Some? ==> r.value in addresses && Some(r.value.id) == selected
    ensures r.Some? ==> exists i :: 0 <= i < |addresses| && r.value == addresses[i]
                          && forall j :: 0 <= j < i ==> Some(addresses[j].id) != selected
  {
    if addresses == [] then None
    else if Some(addresses[0].id) == selected then Some(addresses[0])
    else
      var rest := FindSelected(addresses[1..], selected);
      assert forall i :: 0 < i < |addresses| ==> addresses[i] == addresses[1..][i - 1];
      if rest.Some? then
        var k :| 0 <= k < |addresses[1..]| && rest.value == addresses[1..][k]
                 && forall j :: 0 <= j < k ==> Some(addresses[1..][j].id) != selected;
        assert rest.value == addresses[k + 1];
        assert forall j :: 0 <= j < k + 1 ==> Some(addresses[j].id) != selected;
        rest
      else rest
  }

  /** Deleting the selected address blocks the step to payment, although the
      selection itself still holds the deleted id. */
  lemma DeleteSelectedBlocksProceed(addresses: seq<SavedAddress>, id: int)
    ensures FindSelected(RemoveWhere(addresses, AddressId, id), Some(id)).None?
  {
  }

  /** Deleting another address keeps the selected one reachable. */
  lemma DeleteOtherKeepsSelection(addresses: seq<SavedAddress>, id: int, sel: int)
    requires id != sel
    requires FindSelected(addresses, Some(sel)).Some?
    ensures FindSelected(RemoveWhere(addresses, AddressId, id), Some(sel)).Some?
  {
    var r := RemoveWhere(addresses, AddressId, id);
    var i :| 0 <= i < |addresses| && Some(addresses[i].id) == Some(sel);
    assert AddressId(addresses[i]) != id;
    assert addresses[i] in r;
    var j :| 0 <= j < |r| && r[j] == addresses[i];
    assert Some(r[j].id) == Some(sel);
  }

  class AddressBook {
    var mode: Mode
    var showSuccess: bool
    var addresses: seq<SavedAddress>
    var selected: Option<int>
    var form: AddressForm

    /** The list view, the seed address, selected, and an empty form. */
    constructor ()
      ensures mode == List && !showSuccess
      ensures addresses == [SeedAddress] && selected == Some(addresses[0].id)
      ensures form == EmptyForm
    {
      mode, showSuccess := List, false;
      addresses := [SeedAddress];
      selected := Some(SeedAddress.id);
      form := EmptyForm;
    }

    method HandleChange(key: FormKey, value: string)
      modifies this`form
      ensures form == old(form).Set(key, value)
    {
      form := form.Set(key, value);
    }

    /** Tapping an address card selects it. */
    method Select(id: int)
      modifies this`selected
      ensures selected == Some(id)
    {
      selected := Some(id);
    }

    /** The form's back arrow returns to the list without saving. */
    method Back()
      modifies this`mode
      ensures mode == List
    {
      mode := List;
    }

    /** "Add New Address" opens the form as it was left. */
    method StartAdd()
      modifies this`mode
      ensures mode == Add
    {
      mode := Add;
    }

    /** `handleSave`. In add mode the resolved form is appended under the
        id `now` (the clock reading). In edit mode the code compares each id
        with `selected.id`; `selected` holds a bare number, whose `id`
        property is `undefined`, so no address matches and the list is kept.
        The success banner is shown and, once its timer fires, hidden again
        with the list view back. */
    method HandleSave(now: int)
      modifies this`addresses, this`showSuccess, this`mode
      ensures old(mode) == Add ==> addresses == old(addresses) + [SavedAddress(now, Resolved(form))]
      ensures old(mode) != Add ==> addresses == old(addresses)
      ensures mode == List && !showSuccess
    {
      if mode == Add {
        addresses := addresses + [SavedAddress(now, Resolved(form))];
      } else if mode == Edit && selected.Some? && selected.value != 0 {
        EditAgainstUndefinedIsNoOp(addresses, Resolved(form));
        addresses := EditedAddresses(addresses, None, Resolved(form));
      }
      showSuccess := true;
      showSuccess, mode := false, List;
    }

    /** `handleEdit`: the form takes the address's fields with the custom
        label cleared, the address becomes the selection, the form opens. */
    method HandleEdit(addr: SavedAddress)
      modifies this`form, this`selected, this`mode
      ensures form == addr.fields.(customLabel := "")
      ensures selected == Some(addr.id) && mode == Edit
    {
      form := addr.fields.(customLabel := "");
      selected := Some(addr.id);
      mode := Edit;
    }

    /** `handleDelete`: every address with the id goes; the selection is not
        touched. */
    method HandleDelete(id: int)
      modifies this`addresses
      ensures addresses == RemoveWhere(old(addresses), AddressId, id)
      ensures forall i :: 0 <= i < |addresses| ==> addresses[i].id != id
    {
      addresses := RemoveWhere(addresses, AddressId, id);
    }

    /** "Proceed to Payment": refused (None) unless the selection names an
        address still in the list, which is then passed on. */
    method ProceedToPayment() returns (r: Option<SavedAddress>)
      ensures r == FindSelected(addresses, selected)
      ensures r.Some? ==> r.value in addresses && Some(r.value.id) == selected
    {
      r := FindSelected(addresses, selected);
    }
  }
}

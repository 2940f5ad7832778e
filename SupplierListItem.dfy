/**
 * The state of one supplier list item: the `isEditing` flag, the
 * `editedData` buffer and the handlers that change them.
 */
module SupplierListItem {
  import opened Wrappers
  import opened SupplierEdit

  /** The text inputs of the inline editor. */
  datatype TextField = Supplier | PrintName | ContactPerson | MobileNo | Phone | Mailid | Add1 | Add2 | Add3 | TngstNo

  /** The value a text input shows. */
  function TextOf(b: EditBuffer, f: TextField): Option<string> {
    match f
    case Supplier => b.supplier
    case PrintName => Some(b.printName)
    case ContactPerson => Some(b.contactPerson)
    case MobileNo => Some(b.mobileNo)
    case Phone => Some(b.phone)
    case Mailid => Some(b.mailid)
    case Add1 => Some(b.add1)
    case Add2 => Some(b.add2)
    case Add3 => Some(b.add3)
    case TngstNo => Some(b.tngstNo)
  }

  /** The buffer after typing `text` into input `f`: that field changes, the others are copied. */
  function WithText(b: EditBuffer, f: TextField, text: string): (r: EditBuffer)
    ensures TextOf(r, f) == Some(text)
    ensures forall g :: g != f ==> TextOf(r, g) == TextOf(b, g)
    ensures r.city == b.city && r.opBalAmt == b.opBalAmt && r.opType == b.opType && r.isactive == b.isactive
  {
    match f
    case Supplier => b.(supplier := Some(text))
    case PrintName => b.(printName := text)
    case ContactPerson => b.(contactPerson := text)
    case MobileNo => b.(mobileNo := text)
    case Phone => b.(phone := text)
    case Mailid => b.(mailid := text)
    case Add1 => b.(add1 := text)
    case Add2 => b.(add2 := text)
    case Add3 => b.(add3 := text)
    case TngstNo => b.(tngstNo := text)
  }

  class ListItem {
    const supplier: StoredSupplier
    var isEditing: bool
    var editedData: EditBuffer

    /** First render: not editing, buffer built from the record. */
    constructor (supplier: StoredSupplier)
      ensures this.supplier == supplier
      ensures !isEditing && editedData == InitialBuffer(supplier)
    {
      this.supplier := supplier;
      isEditing := false;
      editedData := InitialBuffer(supplier);
    }

    /** The pencil button. */
    method StartEditing()
      modifies this
      ensures isEditing && editedData == old(editedData)
    {
      isEditing := true;
    }

    /** The close button: leaves edit mode and keeps the buffer as it is. */
    method CancelEditing()
      modifies this
      ensures !isEditing && editedData == old(editedData)
    {
      isEditing := false;
    }

    /** Typing into a text input changes that field only. */
    method ChangeText(f: TextField, text: string)
      modifies this
      ensures isEditing == old(isEditing)
      ensures editedData == WithText(old(editedData), f, text)
    {
      editedData := WithText(editedData, f, text);
    }

    /** Typing into the balance input; `parsed` is what `parseFloat` gives, None for NaN. */
    method ChangeOpeningBalance(parsed: Option<int>)
      modifies this
      ensures isEditing == old(isEditing)
      ensures editedData == old(editedData).(opBalAmt := NumberOr(parsed, 0))
    {
      editedData := editedData.(opBalAmt := NumberOr(parsed, 0));
    }

    /**
     * `handleSave`: builds the payload, awaits `onUpdate` (whose outcome is
     * `updateSucceeds`), and leaves edit mode only when it succeeded.
     */
    method Save(updateSucceeds: bool) returns (id: int, payload: UpdatePayload)
      modifies this
      ensures id == supplier.supplierId && payload == SavePayload(old(editedData))
      ensures isEditing == (old(isEditing) && !updateSucceeds)
      ensures editedData == old(editedData)
    {
      payload := SavePayload(editedData);
      id := supplier.supplierId;
      if updateSucceeds {
        isEditing := false;
      }
    }
  }
}

/**
 * The record mapping of the supplier list's inline editor: the edit buffer
 * built from a stored supplier record, and the form-shaped update payload
 * built from that buffer when it is saved. Values the JSON record may lack
 * (SQL NULL, a missing property) are Options.
 */
module SupplierEdit {
  import opened Wrappers

  /** The `supplier` record the list item receives. */
  datatype StoredSupplier = StoredSupplier(
    supplierId: int, supplier: Option<string>, printName: Option<string>,
    add1: Option<string>, add2: Option<string>, add3: Option<string>, city: Option<int>,
    tngstNo: Option<string>, contactPerson: Option<string>, mobileNo: Option<string>,
    phone: Option<string>, mailid: Option<string>,
    opBalAmt: Option<int>, opType: Option<string>, isactive: Option<string>)

  /** `editedData`: the values the inline editor shows and changes. */
  datatype EditBuffer = EditBuffer(
    supplier: Option<string>, printName: string, add1: string, add2: string, add3: string,
    city: Option<int>, tngstNo: string, contactPerson: string, mobileNo: string,
    phone: string, mailid: string, opBalAmt: int, opType: string, isactive: string)

  /** `updatedData`: the form-shaped object handed to `onUpdate`. */
  datatype UpdatePayload = UpdatePayload(
    ledgerName: Option<string>, printName: string, address1: string, address2: string, address3: string,
    city: int, gstNumber: string, contact: string, mobileNumber: string, phoneNumber: string,
    email: string, openingBalance: int, balanceType: string, isActive: bool, ledgerGroupId: int)

  /** A string with a fallback: the fallback replaces a missing or empty value. */
  function TextOr(s: Option<string>, fallback: string): string {
    if s.Some? && s.value != "" then s.value else fallback
  }

  /** A number with a fallback: the fallback replaces a missing value or 0. */
  function NumberOr(n: Option<int>, fallback: int): int {
    if n.Some? && n.value != 0 then n.value else fallback
  }

  /** The initial `editedData` of a list item. */
  function InitialBuffer(s: StoredSupplier): (b: EditBuffer)
    ensures b.supplier == s.supplier && b.city == s.city
    ensures b.printName == s.printName.GetOr("") && b.add1 == s.add1.GetOr("")
    ensures b.add2 == s.add2.GetOr("") && b.add3 == s.add3.GetOr("")
    ensures b.tngstNo == s.tngstNo.GetOr("") && b.contactPerson == s.contactPerson.GetOr("")
    ensures b.mobileNo == s.mobileNo.GetOr("") && b.phone == s.phone.GetOr("") && b.mailid == s.mailid.GetOr("")
    ensures b.opBalAmt == s.opBalAmt.GetOr(0)
    ensures b.opType != "" && (b.opType == "Dr" || s.opType == Some(b.opType))
    ensures b.isactive != "" && (b.isactive == "Y" || s.isactive == Some(b.isactive))
    ensures s.opType.None? || s.opType == Some("") ==> b.opType == "Dr"
    ensures s.isactive.None? || s.isactive == Some("") ==> b.isactive == "Y"
    ensures s.opType.Some? && s.opType.value != "" ==> b.opType == s.opType.value
    ensures s.isactive.Some? && s.isactive.value != "" ==> b.isactive == s.isactive.value
  {
    EditBuffer(
      s.supplier, TextOr(s.printName, ""), TextOr(s.add1, ""), TextOr(s.add2, ""), TextOr(s.add3, ""),
      s.city, TextOr(s.tngstNo, ""), TextOr(s.contactPerson, ""), TextOr(s.mobileNo, ""),
      TextOr(s.phone, ""), TextOr(s.mailid, ""), NumberOr(s.opBalAmt, 0),
      TextOr(s.opType, "Dr"), TextOr(s.isactive, "Y"))
  }

  /** The `updatedData` that `handleSave` builds from the buffer. */
  function SavePayload(b: EditBuffer): (p: UpdatePayload)
    ensures p.ledgerName == b.supplier && p.printName == b.printName
    ensures p.address1 == b.add1 && p.address2 == b.add2 && p.address3 == b.add3
    ensures p.gstNumber == b.tngstNo && p.contact == b.contactPerson
    ensures p.mobileNumber == b.mobileNo && p.phoneNumber == b.phone && p.email == b.mailid
    ensures p.city != 0
    ensures b.city.Some? && b.city.value != 0 ==> p.city == b.city.value
    ensures b.city.None? || b.city == Some(0) ==> p.city == 1
    ensures p.openingBalance == b.opBalAmt && p.balanceType == b.opType
    ensures p.isActive <==> b.isactive == "Y"
    ensures p.ledgerGroupId == 1
  {
    UpdatePayload(
      b.supplier, b.printName, b.add1, b.add2, b.add3, NumberOr(b.city, 1), b.tngstNo,
      b.contactPerson, b.mobileNo, b.phone, b.mailid, NumberOr(Some(b.opBalAmt), 0),
      b.opType, b.isactive == "Y", 1)
  }

  /** The stored record a buffer would be if it were written back unchanged. */
  function StoredOf(id: int, b: EditBuffer): StoredSupplier {
    StoredSupplier(
      id, b.supplier, Some(b.printName), Some(b.add1), Some(b.add2), Some(b.add3), b.city,
      Some(b.tngstNo), Some(b.contactPerson), Some(b.mobileNo), Some(b.phone), Some(b.mailid),
      Some(b.opBalAmt), Some(b.opType), Some(b.isactive))
  }

  /** The buffer a payload describes, read back field by field: the inverse of `SavePayload` where it is lossless. */
  function BufferOf(p: UpdatePayload): EditBuffer {
    EditBuffer(
      p.ledgerName, p.printName, p.address1, p.address2, p.address3, Some(p.city), p.gstNumber,
      p.contact, p.mobileNumber, p.phoneNumber, p.email, p.openingBalance, p.balanceType,
      if p.isActive then "Y" else "N")
  }

  // ---------------------------------------------------------------------------
  // Lemmas

  /**
   * The defaults are fixpoints of building the buffer: reading a buffer's own
   * values back in as a record changes nothing. The list item itself never
   * writes its buffer back this way (saving goes through `onUpdate` with the
   * payload's keys and fallbacks); this only shows that no default overrides
   * a value the buffer already holds.
   */
  lemma InitialBufferIdempotent(s: StoredSupplier)
    ensures InitialBuffer(StoredOf(s.supplierId, InitialBuffer(s))) == InitialBuffer(s)
  {
  }

  /** Saving loses only the fallbacks: with a real city and a Y/N flag, the buffer is recovered from its payload. */
  lemma SavePayloadRoundTrip(b: EditBuffer)
    requires b.city.Some? && b.city.value != 0
    requires b.isactive == "Y" || b.isactive == "N"
    ensures BufferOf(SavePayload(b)) == b
  {
  }

  /** What saving an untouched buffer sends, in terms of the stored record. */
  lemma UntouchedSave(s: StoredSupplier)
    ensures SavePayload(InitialBuffer(s)).isActive <==> s.isactive.None? || s.isactive == Some("") || s.isactive == Some("Y")
    ensures SavePayload(InitialBuffer(s)).balanceType == if s.opType.None? || s.opType == Some("") then "Dr" else s.opType.value
    ensures SavePayload(InitialBuffer(s)).city == if s.city.None? || s.city == Some(0) then 1 else s.city.value
    ensures SavePayload(InitialBuffer(s)).openingBalance == s.opBalAmt.GetOr(0)
    ensures SavePayload(InitialBuffer(s)).ledgerGroupId == 1
  {
  }
}

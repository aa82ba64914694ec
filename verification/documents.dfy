/**
 * The stored form of a prescription as the panel reads it from the
 * `prescriptions` collection, and the decryption primitive applied to its
 * fields.
 *
 * A field the document does not carry is `None` (JavaScript `undefined`).
 * The AES decryption followed by UTF-8 decoding is not modelled: it is a
 * parameter `decrypt` that, for a stored field, either yields some text
 * (possibly empty, which is what a wrong key usually gives) or throws.
 */
module Documents {
  import opened Wrappers

  /** What `AES.decrypt(field, key).toString(enc.Utf8)` does with one field. */
  datatype DecryptOutcome = Plain(text: string) | Threw(message: string)

  /** The decryption primitive, with the shared key already applied. */
  type Decrypt = Option<string> -> DecryptOutcome

  datatype RawDoctor = RawDoctor(doctorName: Option<string>, biography: Option<string>, phoneNumber: Option<string>)

  datatype RawMedicine = RawMedicine(medicineName: Option<string>, instruction: Option<string>, days: Option<string>)

  /** `doc.data()` of a prescription document. */
  datatype PrescriptionData = PrescriptionData(
    doctor: Option<RawDoctor>,
    patient: Option<string>,
    prescriptionDate: Option<string>,
    diagnosis: Option<string>,
    note: Option<string>,
    appointmentNo: Option<string>,
    referenceNo: Option<string>,
    nicNo: Option<string>,
    medicines: Option<seq<RawMedicine>>,
    createdDate: Option<string>)

  /** One document of a query snapshot: its store-assigned id and its data. */
  datatype Document = Document(id: string, data: PrescriptionData)

  /** A decrypted medicine line. */
  datatype Medicine = Medicine(medicineName: string, instruction: string, days: string)

  /**
   * The message of the TypeError a JavaScript engine (V8) throws when a
   * property is read from `undefined`.
   */
  function ReadOfUndefined(property: string): (m: string)
    ensures |m| > |property|
  {
    "Cannot read properties of undefined (reading '" + property + "')"
  }
}

/**
 * The single-prescription view (src/pages/psummary.jsx): it reads one
 * document by the id passed in the route state, decrypts it without any
 * fallback, and shows a loading text, an error, the prescription, or a
 * fallback line.
 */
module Summary {
  import opened Wrappers
  import opened Documents
  import opened Traversal

  const MissingIdError := "Prescription ID not available."
  const NotFoundError := "No such prescription found."
  const FetchErrorPrefix := "Error fetching prescription: "

  datatype Doctor = Doctor(doctorName: string, biography: string, phoneNumber: string)

  /** The `decryptedPrescription` object of this page. */
  datatype Record = Record(
    id: string,
    doctor: Doctor,
    patient: string,
    prescriptionDate: string,
    diagnosis: string,
    note: string,
    appointmentNo: string,
    nicNo: string,
    medicines: seq<Medicine>,
    createdDate: Option<string>)

  /** `new Date(createdDate).toLocaleDateString()`: locale formatting is not modelled. */
  type FormatDate = Option<string> -> string

  /** Decryption with no fallback: the plaintext as it is, even when empty, or the exception. */
  function DecryptStrict(decrypt: Decrypt, field: Option<string>): (r: Result<string>)
    ensures decrypt(field).Plain? <==> r.Ok?
    ensures r.Ok? ==> r.value == decrypt(field).text
    ensures r.Err? ==> r.error == decrypt(field).message
  {
    match decrypt(field)
    case Plain(text) => Ok(text)
    case Threw(message) => Err(message)
  }

  function DecryptMedicine(decrypt: Decrypt, m: RawMedicine): Result<Medicine> {
    var name :- DecryptStrict(decrypt, m.medicineName);
    var instruction :- DecryptStrict(decrypt, m.instruction);
    var days :- DecryptStrict(decrypt, m.days);
    Ok(Medicine(name, instruction, days))
  }

  /**
   * The object literal built from `docSnap`, field by field in source order;
   * the first exception wins. `nicNo` is the route id itself.
   */
  function BuildRecord(decrypt: Decrypt, formatDate: FormatDate, id: string, data: PrescriptionData): Result<Record> {
    var doctor :- if data.doctor.None? then Err(ReadOfUndefined("doctorName")) else Ok(data.doctor.value);
    var doctorName :- DecryptStrict(decrypt, doctor.doctorName);
    var biography :- DecryptStrict(decrypt, doctor.biography);
    var phoneNumber :- DecryptStrict(decrypt, doctor.phoneNumber);
    var patient :- DecryptStrict(decrypt, data.patient);
    var prescriptionDate := formatDate(data.createdDate);
    var diagnosis :- DecryptStrict(decrypt, data.diagnosis);
    var note :- DecryptStrict(decrypt, data.note);
    var appointmentNo :- DecryptStrict(decrypt, data.appointmentNo);
    var meds :- if data.medicines.None? then Err(ReadOfUndefined("map")) else Ok(data.medicines.value);
    var medicines :- Traverse(m => DecryptMedicine(decrypt, m), meds);
    Ok(Record(id, Doctor(doctorName, biography, phoneNumber), patient, prescriptionDate,
      diagnosis, note, appointmentNo, id, medicines, data.createdDate))
  }

  /** Every field this page decrypts, and every medicine field, decrypts without throwing. */
  predicate DecryptsCleanly(decrypt: Decrypt, data: PrescriptionData)
    requires data.doctor.Some? && data.medicines.Some?
  {
    && decrypt(data.doctor.value.doctorName).Plain?
    && decrypt(data.doctor.value.biography).Plain?
    && decrypt(data.doctor.value.phoneNumber).Plain?
    && decrypt(data.patient).Plain?
    && decrypt(data.diagnosis).Plain?
    && decrypt(data.note).Plain?
    && decrypt(data.appointmentNo).Plain?
    && forall i :: 0 <= i < |data.medicines.value| ==> MedicineDecrypts(decrypt, data.medicines.value[i])
  }

  predicate MedicineDecrypts(decrypt: Decrypt, m: RawMedicine) {
    decrypt(m.medicineName).Plain? && decrypt(m.instruction).Plain? && decrypt(m.days).Plain?
  }

  lemma DecryptMedicineOk(decrypt: Decrypt, m: RawMedicine)
    ensures DecryptMedicine(decrypt, m).Ok? <==> MedicineDecrypts(decrypt, m)
    ensures DecryptMedicine(decrypt, m).Ok? ==>
      (DecryptMedicine(decrypt, m).value ==
       Medicine(decrypt(m.medicineName).text, decrypt(m.instruction).text, decrypt(m.days).text))
  {
  }

  /**
   * The record is built exactly when the document has a doctor and a medicine
   * list and nothing it decrypts throws.
   */
  lemma BuildRecordOkIff(decrypt: Decrypt, formatDate: FormatDate, id: string, data: PrescriptionData)
    ensures BuildRecord(decrypt, formatDate, id, data).Ok? <==>
      data.doctor.Some? && data.medicines.Some? && DecryptsCleanly(decrypt, data)
  {
    if data.doctor.Some? && data.medicines.Some? {
      var f := m => DecryptMedicine(decrypt, m);
      var meds := data.medicines.value;
      TraverseOkIff(f, meds);
      forall i | 0 <= i < |meds| ensures f(meds[i]).Ok? <==> MedicineDecrypts(decrypt, meds[i]) {
        DecryptMedicineOk(decrypt, meds[i]);
      }
    }
  }

  /**
   * A built record carries the route id as both `id` and `nicNo`, copies the
   * creation date verbatim, keeps each plaintext exactly as decrypted (an
   * empty plaintext stays empty), and maps the medicines element by element.
   */
  lemma BuildRecordFields(decrypt: Decrypt, formatDate: FormatDate, id: string, data: PrescriptionData, k: nat)
    requires BuildRecord(decrypt, formatDate, id, data).Ok?
    ensures data.doctor.Some? && data.medicines.Some?
    ensures var r := BuildRecord(decrypt, formatDate, id, data).value;
      && r.id == id && r.nicNo == id
      && r.createdDate == data.createdDate
      && r.prescriptionDate == formatDate(data.createdDate)
      && r.doctor.doctorName == decrypt(data.doctor.value.doctorName).text
      && r.doctor.biography == decrypt(data.doctor.value.biography).text
      && r.doctor.phoneNumber == decrypt(data.doctor.value.phoneNumber).text
      && r.patient == decrypt(data.patient).text
      && r.diagnosis == decrypt(data.diagnosis).text
      && r.note == decrypt(data.note).text
      && r.appointmentNo == decrypt(data.appointmentNo).text
      && |r.medicines| == |data.medicines.value|
    ensures k < |data.medicines.value| ==>
      var m := BuildRecord(decrypt, formatDate, id, data).value.medicines[k];
      var raw := data.medicines.value[k];
      MedicineDecrypts(decrypt, raw) &&
      m == Medicine(decrypt(raw.medicineName).text, decrypt(raw.instruction).text, decrypt(raw.days).text)
  {
    var f := m => DecryptMedicine(decrypt, m);
    var meds := data.medicines.value;
    BuildRecordOkIff(decrypt, formatDate, id, data);
    if meds == [] {
      assert Traverse(f, meds).value == [];
    } else {
      TraverseOkAt(f, meds, if k < |meds| then k else 0);
    }
    if k < |meds| {
      DecryptMedicineOk(decrypt, meds[k]);
    }
  }

  /** The four ways the page's effect can end. */
  datatype LoadOutcome = NoId | NotFound | Loaded(record: Record) | Failed(message: string)

  /**
   * The effect of the page. With no route id (absent or empty) nothing is
   * read; otherwise `getDoc` either fails with `fault`, finds no document, or
   * finds one that is then decrypted.
   */
  function Load(routeId: Option<string>, store: map<string, PrescriptionData>, fault: Option<string>,
                decrypt: Decrypt, formatDate: FormatDate): LoadOutcome
  {
    if routeId.None? || routeId.value == "" then NoId
    else if fault.Some? then Failed(fault.value)
    else if routeId.value !in store then NotFound
    else
      match BuildRecord(decrypt, formatDate, routeId.value, store[routeId.value])
      case Ok(r) => Loaded(r)
      case Err(e) => Failed(e)
  }

  /** Without a route id the outcome does not depend on the store: no fetch happens. */
  lemma LoadWithoutIdReadsNothing(routeId: Option<string>, s1: map<string, PrescriptionData>, s2: map<string, PrescriptionData>,
                                  f1: Option<string>, f2: Option<string>, decrypt: Decrypt, formatDate: FormatDate)
    requires routeId.None? || routeId.value == ""
    ensures Load(routeId, s1, f1, decrypt, formatDate) == Load(routeId, s2, f2, decrypt, formatDate) == NoId
  {
  }

  /** The outcomes, each with the condition that produces it. */
  lemma LoadOutcomes(routeId: Option<string>, store: map<string, PrescriptionData>, fault: Option<string>,
                     decrypt: Decrypt, formatDate: FormatDate)
    ensures Load(routeId, store, fault, decrypt, formatDate).NoId? <==> routeId.None? || routeId.value == ""
    ensures Load(routeId, store, fault, decrypt, formatDate).NotFound? <==>
      routeId.Some? && routeId.value != "" && fault.None? && routeId.value !in store
    ensures Load(routeId, store, fault, decrypt, formatDate).Loaded? ==>
      && routeId.Some? && routeId.value in store
      && Load(routeId, store, fault, decrypt, formatDate).record.id == routeId.value
      && Load(routeId, store, fault, decrypt, formatDate).record.nicNo == routeId.value
      && Load(routeId, store, fault, decrypt, formatDate).record.createdDate == store[routeId.value].createdDate
  {
    if Load(routeId, store, fault, decrypt, formatDate).Loaded? {
      BuildRecordFields(decrypt, formatDate, routeId.value, store[routeId.value], 0);
    }
  }

  /** What the page shows. */
  datatype Screen = LoadingText | ErrorText(message: string) | Card(record: Record) | NoPrescriptionText

  /** The render's conditional chain: loading, then a (non-empty) error, then the prescription, then the fallback. */
  function Render(loading: bool, error: Option<string>, prescription: Option<Record>): Screen {
    if loading then LoadingText
    else if error.Some? && error.value != "" then ErrorText(error.value)
    else if prescription.Some? then Card(prescription.value)
    else NoPrescriptionText
  }

  /** The error and the prescription after the effect has run on a given state. */
  function AfterLoad(error: Option<string>, prescription: Option<Record>, outcome: LoadOutcome): (r: (Option<string>, Option<Record>))
    ensures outcome.Loaded? ==> r == (error, Some(outcome.record))
    ensures !outcome.Loaded? ==> r.1 == prescription && r.0.Some? && r.0.value != ""
  {
    match outcome
    case NoId => (Some(MissingIdError), prescription)
    case NotFound => (Some(NotFoundError), prescription)
    case Loaded(r) => (error, Some(r))
    case Failed(m) => (Some(FetchErrorPrefix + m), prescription)
  }

  /**
   * From the page's initial state, one run of the effect always ends on a
   * screen that reports the outcome: never the loading text, never the
   * fallback line.
   */
  lemma FirstLoadScreen(outcome: LoadOutcome)
    ensures var (error, prescription) := AfterLoad(None, None, outcome);
      Render(false, error, prescription) ==
        match outcome
        case NoId => ErrorText(MissingIdError)
        case NotFound => ErrorText(NotFoundError)
        case Loaded(r) => Card(r)
        case Failed(m) => ErrorText(FetchErrorPrefix + m)
  {
  }

  /** Loading wins over everything, and an error wins over a loaded prescription. */
  lemma RenderPriority(error: Option<string>, prescription: Option<Record>)
    ensures Render(true, error, prescription) == LoadingText
    ensures error.Some? && error.value != "" ==> Render(false, error, prescription) == ErrorText(error.value)
    ensures Render(false, None, prescription) == if prescription.Some? then Card(prescription.value) else NoPrescriptionText
  {
  }

  class SummaryPage {
    var prescription: Option<Record>
    var loading: bool
    var error: Option<string>

    constructor ()
      ensures prescription == None && loading && error == None
    {
      prescription, loading, error := None, true, None;
    }

    /**
     * The `useEffect` body: it writes only the state the outcome calls for,
     * and always ends loading.
     */
    method RunEffect(routeId: Option<string>, store: map<string, PrescriptionData>, fault: Option<string>,
                     decrypt: Decrypt, formatDate: FormatDate)
      modifies this
      ensures !loading
      ensures (error, prescription) == AfterLoad(old(error), old(prescription), Load(routeId, store, fault, decrypt, formatDate))
    {
      if routeId.None? || routeId.value == "" {
        error := Some(MissingIdError);
        loading := false;
        return;
      }
      if fault.Some? {
        error := Some(FetchErrorPrefix + fault.value);
        loading := false;
        return;
      }
      if routeId.value in store {
        var built := BuildRecord(decrypt, formatDate, routeId.value, store[routeId.value]);
        if built.Err? {
          error := Some(FetchErrorPrefix + built.error);
          loading := false;
          return;
        }
        prescription := Some(built.value);
      } else {
        error := Some(NotFoundError);
      }
      loading := false;
    }

    function Screen(): Screen
      reads this
    {
      Render(loading, error, prescription)
    }
  }
}

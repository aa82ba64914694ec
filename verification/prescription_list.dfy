/**
 * The prescription list page (src/pages/Prescription_pharmacy.jsx): it loads
 * every document of the `prescriptions` collection, decrypts it field by field
 * into a flat record, filters the records by a search query, and records a
 * completion flag per prescription in the `ConfirmPrescription` collection.
 */
module PrescriptionList {
  import opened Wrappers
  import opened Text
  import opened Documents
  import opened Traversal

  /** What a field that cannot be decrypted shows. */
  const Unknown := "Unknown"

  const FetchErrorPrefix := "Error fetching prescriptions: "

  datatype Doctor = Doctor(doctorName: string, biography: string)

  /** A record of the list; `completed` is a local, display-only flag. */
  datatype Prescription = Prescription(
    id: string,
    doctor: Doctor,
    patient: string,
    prescriptionDate: string,
    diagnosis: string,
    note: string,
    appointmentNo: string,
    referenceNo: Option<string>,
    nicNo: string,
    medicines: seq<Medicine>,
    createdDate: Option<string>,
    completed: bool)

  // ---------------------------------------------------------------- decryption

  /**
   * `decryptPrescriptionData`: fail-soft decryption of one field. An exception
   * or an empty plaintext both give `Unknown`; any other plaintext is kept.
   */
  function DecryptField(decrypt: Decrypt, field: Option<string>): (r: string)
    ensures r != ""
    ensures r == Unknown <==> decrypt(field).Threw? || decrypt(field).text == "" || decrypt(field).text == Unknown
    ensures decrypt(field).Plain? && decrypt(field).text != "" ==> r == decrypt(field).text
  {
    match decrypt(field)
    case Threw(_) => Unknown
    case Plain(text) => if text == "" then Unknown else text
  }

  function DecryptMedicine(decrypt: Decrypt, m: RawMedicine): Medicine {
    Medicine(DecryptField(decrypt, m.medicineName), DecryptField(decrypt, m.instruction), DecryptField(decrypt, m.days))
  }

  /** `data.medicines.map(...)` with the fail-soft decryptor. */
  function MapMedicines(decrypt: Decrypt, meds: seq<RawMedicine>): (r: seq<Medicine>)
    ensures |r| == |meds|
  {
    if meds == [] then [] else [DecryptMedicine(decrypt, meds[0])] + MapMedicines(decrypt, meds[1..])
  }

  /** The medicine list is mapped element by element: same length, same order, each field decrypted on its own. */
  lemma {:induction false} MapMedicinesAt(decrypt: Decrypt, meds: seq<RawMedicine>, k: nat)
    requires k < |meds|
    ensures var m := MapMedicines(decrypt, meds)[k];
      && m.medicineName == DecryptField(decrypt, meds[k].medicineName)
      && m.instruction == DecryptField(decrypt, meds[k].instruction)
      && m.days == DecryptField(decrypt, meds[k].days)
  {
    if k > 0 {
      MapMedicinesAt(decrypt, meds[1..], k - 1);
    }
  }

  /** The documents `fetchPrescriptions` turns into a record without throwing. */
  predicate Normalizes(doc: Document) {
    doc.data.doctor.Some? && doc.data.medicines.Some?
  }

  /**
   * The object built for one snapshot document. Reading `data.doctor.doctorName`
   * with no doctor, or `data.medicines.map` with no medicines, throws a
   * TypeError; the doctor is read first.
   */
  function NormalizeDocument(decrypt: Decrypt, doc: Document): (r: Result<Prescription>)
    ensures r.Ok? <==> Normalizes(doc)
    ensures doc.data.doctor.None? ==> r == Err(ReadOfUndefined("doctorName"))
    ensures doc.data.doctor.Some? && doc.data.medicines.None? ==> r == Err(ReadOfUndefined("map"))
  {
    var data := doc.data;
    match data.doctor
    case None => Err(ReadOfUndefined("doctorName"))
    case Some(d) =>
      match data.medicines
      case None => Err(ReadOfUndefined("map"))
      case Some(meds) =>
        Ok(Prescription(
          doc.id,
          Doctor(DecryptField(decrypt, d.doctorName), DecryptField(decrypt, d.biography)),
          DecryptField(decrypt, data.patient),
          DecryptField(decrypt, data.prescriptionDate),
          DecryptField(decrypt, data.diagnosis),
          DecryptField(decrypt, data.note),
          DecryptField(decrypt, data.appointmentNo),
          data.referenceNo,
          DecryptField(decrypt, data.nicNo),
          MapMedicines(decrypt, meds),
          data.createdDate,
          false))
  }

  /**
   * A normalised record keeps the id, the reference number (not decrypted) and
   * the creation date verbatim, starts not completed, decrypts each text field
   * fail-soft, and has one medicine per stored medicine.
   */
  lemma NormalizeDocumentFields(decrypt: Decrypt, doc: Document)
    requires Normalizes(doc)
    ensures var p := NormalizeDocument(decrypt, doc).value;
      && p.id == doc.id
      && p.referenceNo == doc.data.referenceNo
      && p.createdDate == doc.data.createdDate
      && !p.completed
      && p.doctor == Doctor(DecryptField(decrypt, doc.data.doctor.value.doctorName), DecryptField(decrypt, doc.data.doctor.value.biography))
      && p.patient == DecryptField(decrypt, doc.data.patient)
      && p.prescriptionDate == DecryptField(decrypt, doc.data.prescriptionDate)
      && p.diagnosis == DecryptField(decrypt, doc.data.diagnosis)
      && p.note == DecryptField(decrypt, doc.data.note)
      && p.appointmentNo == DecryptField(decrypt, doc.data.appointmentNo)
      && p.nicNo == DecryptField(decrypt, doc.data.nicNo)
      && p.medicines == MapMedicines(decrypt, doc.data.medicines.value)
      && |p.medicines| == |doc.data.medicines.value|
  {
  }

  // ---------------------------------------------------------------- fetching

  /**
   * The records the `forEach` loop of `fetchPrescriptions` pushes, one per
   * document in snapshot order; the first document that throws ends the loop
   * with its exception.
   */
  function Normalized(decrypt: Decrypt, docs: seq<Document>): Result<seq<Prescription>> {
    Traverse(d => NormalizeDocument(decrypt, d), docs)
  }

  /**
   * The loop succeeds exactly when every document has a doctor and a medicine
   * list, and then yields one record per document, in snapshot order.
   */
  lemma NormalizedOk(decrypt: Decrypt, docs: seq<Document>)
    ensures Normalized(decrypt, docs).Ok? <==> forall i :: 0 <= i < |docs| ==> Normalizes(docs[i])
    ensures Normalized(decrypt, docs).Ok? ==>
      && |Normalized(decrypt, docs).value| == |docs|
      && forall i :: 0 <= i < |docs| ==> Normalized(decrypt, docs).value[i] == NormalizeDocument(decrypt, docs[i]).value
  {
    var f := d => NormalizeDocument(decrypt, d);
    TraverseOkIff(f, docs);
    if Normalized(decrypt, docs).Ok? {
      forall i | 0 <= i < |docs|
        ensures |Normalized(decrypt, docs).value| == |docs|
        ensures Normalized(decrypt, docs).value[i] == NormalizeDocument(decrypt, docs[i]).value
      {
        TraverseOkAt(f, docs, i);
      }
      if docs == [] {
        assert Normalized(decrypt, docs).value == [];
      }
    }
  }

  /** A failed loop reports the exception of the first document without a doctor or a medicine list. */
  lemma NormalizedErr(decrypt: Decrypt, docs: seq<Document>)
    requires Normalized(decrypt, docs).Err?
    ensures exists i :: (0 <= i < |docs| && !Normalizes(docs[i]) &&
      NormalizeDocument(decrypt, docs[i]) == Err(Normalized(decrypt, docs).error) &&
      forall j :: 0 <= j < i ==> Normalizes(docs[j]))
  {
    TraverseErrIsFirst(d => NormalizeDocument(decrypt, d), docs);
  }

  /** Every freshly fetched record starts with `completed` false. */
  lemma NormalizedArePending(decrypt: Decrypt, docs: seq<Document>)
    requires Normalized(decrypt, docs).Ok?
    ensures forall p :: p in Normalized(decrypt, docs).value ==> !p.completed
  {
    NormalizedOk(decrypt, docs);
    var rs := Normalized(decrypt, docs).value;
    forall p | p in rs ensures !p.completed {
      var i :| 0 <= i < |rs| && rs[i] == p;
      NormalizeDocumentFields(decrypt, docs[i]);
    }
  }

  /** The `forEach` loop of `fetchPrescriptions`, pushing into `prescriptionsData`. */
  method BuildRecords(decrypt: Decrypt, docs: seq<Document>) returns (r: Result<seq<Prescription>>)
    ensures r == Normalized(decrypt, docs)
  {
    var f := d => NormalizeDocument(decrypt, d);
    var prescriptionsData: seq<Prescription> := [];
    var i := 0;
    while i < |docs|
      invariant 0 <= i <= |docs|
      invariant Traverse(f, docs[..i]) == Ok(prescriptionsData)
    {
      var rec := NormalizeDocument(decrypt, docs[i]);
      TraverseSnoc(f, docs, i);
      if rec.Err? {
        TraversePrefixErr(f, docs, i + 1);
        return Err(rec.error);
      }
      prescriptionsData := prescriptionsData + [rec.value];
      i := i + 1;
    }
    assert docs[..i] == docs;
    return Ok(prescriptionsData);
  }

  /** The result of `fetchPrescriptions`: the snapshot's own failure, or the loop's. */
  function FetchOutcome(decrypt: Decrypt, snapshot: Result<seq<Document>>): Result<seq<Prescription>> {
    match snapshot
    case Err(e) => Err(e)
    case Ok(docs) => Normalized(decrypt, docs)
  }

  // ---------------------------------------------------------------- search

  /**
   * The `handleSearch` predicate: the lower-cased query occurs in the
   * lower-cased patient, reference number, appointment number, NIC or id; a
   * missing reference number reads as the empty string.
   */
  predicate Matches(p: Prescription, query: string) {
    var needle := ToLower(query);
    || Contains(ToLower(p.patient), needle)
    || Contains(ToLower(p.referenceNo.GetOr("")), needle)
    || Contains(ToLower(p.appointmentNo), needle)
    || Contains(ToLower(p.nicNo), needle)
    || Contains(ToLower(p.id), needle)
  }

  /** `prescriptions.filter(...)`. */
  function Search(records: seq<Prescription>, query: string): (r: seq<Prescription>)
    ensures |r| <= |records|
    ensures forall p :: p in r ==> p in records && Matches(p, query)
  {
    if records == [] then []
    else (if Matches(records[0], query) then [records[0]] else []) + Search(records[1..], query)
  }

  /** No matching record is dropped. */
  lemma {:induction false} SearchComplete(records: seq<Prescription>, query: string, p: Prescription)
    requires p in records && Matches(p, query)
    ensures p in Search(records, query)
  {
    if records[0] != p {
      SearchComplete(records[1..], query, p);
    }
  }

  /** Filtering distributes over concatenation, so the original order is kept. */
  lemma {:induction false} SearchAppend(a: seq<Prescription>, b: seq<Prescription>, query: string)
    ensures Search(a + b, query) == Search(a, query) + Search(b, query)
  {
    if a == [] {
      assert a + b == b;
    } else {
      assert (a + b)[0] == a[0] && (a + b)[1..] == a[1..] + b;
      SearchAppend(a[1..], b, query);
    }
  }

  /** A list is its own filtered form exactly when every record in it matches. */
  lemma {:induction false} SearchKeepsAll(records: seq<Prescription>, query: string)
    ensures Search(records, query) == records <==> forall p :: p in records ==> Matches(p, query)
  {
    if records != [] {
      SearchKeepsAll(records[1..], query);
      if !Matches(records[0], query) {
        assert |Search(records, query)| < |records| by {
          assert Search(records, query) == Search(records[1..], query);
        }
      }
    }
  }

  /** The empty query matches every record: the whole list, in order. */
  lemma SearchEmptyQuery(records: seq<Prescription>)
    ensures Search(records, "") == records
  {
    SearchKeepsAll(records, "");
  }

  /** Filtering an already-filtered list with the same query changes nothing. */
  lemma SearchIdempotent(records: seq<Prescription>, query: string)
    ensures Search(Search(records, query), query) == Search(records, query)
  {
    SearchKeepsAll(Search(records, query), query);
  }

  /** Query case does not matter. */
  lemma SearchIgnoresQueryCase(records: seq<Prescription>, query: string)
    ensures Search(records, ToLower(query)) == Search(records, query)
  {
    ToLowerIdempotent(query);
    assert forall p :: Matches(p, ToLower(query)) == Matches(p, query);
    SearchSameMatches(records, ToLower(query), query);
  }

  lemma {:induction false} SearchSameMatches(records: seq<Prescription>, q1: string, q2: string)
    requires forall p :: Matches(p, q1) == Matches(p, q2)
    ensures Search(records, q1) == Search(records, q2)
  {
    if records != [] {
      SearchSameMatches(records[1..], q1, q2);
    }
  }

  // ---------------------------------------------------------------- completion

  /** The `Action` written to `ConfirmPrescription`. */
  function ActionFor(isCompleted: bool): (a: string)
    ensures a == "Completed" || a == "Not Completed"
    ensures isCompleted <==> a == "Completed"
  {
    if isCompleted then "Completed" else "Not Completed"
  }

  function FlipIfId(p: Prescription, id: string): Prescription {
    if p.id == id then p.(completed := !p.completed) else p
  }

  /** The `prev.map(...)` update of the filtered list after a successful write. */
  function ToggleMatching(list: seq<Prescription>, id: string): (r: seq<Prescription>)
    ensures |r| == |list|
  {
    if list == [] then [] else [FlipIfId(list[0], id)] + ToggleMatching(list[1..], id)
  }

  /** Only records with the given id have `completed` negated; every other field and record is kept. */
  lemma {:induction false} ToggleMatchingAt(list: seq<Prescription>, id: string, k: nat)
    requires k < |list|
    ensures list[k].id == id ==> ToggleMatching(list, id)[k] == list[k].(completed := !list[k].completed)
    ensures list[k].id != id ==> ToggleMatching(list, id)[k] == list[k]
  {
    if k > 0 {
      ToggleMatchingAt(list[1..], id, k - 1);
    }
  }

  /** Toggling the same id twice restores the list. */
  lemma {:induction false} ToggleMatchingTwice(list: seq<Prescription>, id: string)
    ensures ToggleMatching(ToggleMatching(list, id), id) == list
  {
    if list != [] {
      ToggleMatchingTwice(list[1..], id);
      assert ToggleMatching(list, id)[1..] == ToggleMatching(list[1..], id);
    }
  }

  /**
   * A search over freshly fetched records shows every record as not completed,
   * whatever toggles were made before: the flag lives only in the filtered list.
   */
  lemma SearchAfterFetchIsPending(decrypt: Decrypt, docs: seq<Document>, query: string)
    requires Normalized(decrypt, docs).Ok?
    ensures forall p :: p in Search(Normalized(decrypt, docs).value, query) ==> !p.completed
  {
    NormalizedArePending(decrypt, docs);
  }

  /** The `ConfirmPrescription` document body. */
  datatype Confirmation = Confirmation(action: string)

  /** The `ConfirmPrescription` collection, keyed by prescription id. */
  class ConfirmStore {
    var docs: map<string, Confirmation>

    constructor (initial: map<string, Confirmation>)
      ensures docs == initial
    {
      docs := initial;
    }

    /** `setDoc`: overwrites the whole document under one key. */
    method SetDoc(id: string, body: Confirmation)
      modifies this
      ensures docs == old(docs)[id := body]
    {
      docs := docs[id := body];
    }
  }

  // ---------------------------------------------------------------- the page

  class PrescriptionsPage {
    var prescriptions: seq<Prescription>
    var searchQuery: string
    var filtered: seq<Prescription>
    var loading: bool
    var error: Option<string>

    /** The initial state of the component's hooks. */
    constructor ()
      ensures prescriptions == [] && searchQuery == "" && filtered == []
      ensures loading && error == None
    {
      prescriptions, searchQuery, filtered := [], "", [];
      loading, error := true, None;
    }

    /** `handleSearch`: the filtered list is recomputed from the full list. */
    method HandleSearch()
      modifies this`filtered
      ensures filtered == Search(prescriptions, searchQuery)
    {
      filtered := Search(prescriptions, searchQuery);
    }

    /** Typing in the search box; the effect on `searchQuery` reruns the search. */
    method SetSearchQuery(query: string)
      modifies this`searchQuery, this`filtered
      ensures searchQuery == query
      ensures filtered == Search(prescriptions, query)
    {
      searchQuery := query;
      HandleSearch();
    }

    /**
     * `fetchPrescriptions`. On success the full list is replaced and the effect
     * on `prescriptions` reruns the search; on failure the error is recorded and
     * both lists are kept. Loading ends either way.
     */
    method FetchPrescriptions(decrypt: Decrypt, snapshot: Result<seq<Document>>)
      modifies this
      ensures !loading && searchQuery == old(searchQuery)
      ensures FetchOutcome(decrypt, snapshot).Ok? ==>
        && prescriptions == FetchOutcome(decrypt, snapshot).value
        && filtered == Search(prescriptions, searchQuery)
        && error == old(error)
      ensures FetchOutcome(decrypt, snapshot).Err? ==>
        && error == Some(FetchErrorPrefix + FetchOutcome(decrypt, snapshot).error)
        && prescriptions == old(prescriptions)
        && filtered == old(filtered)
    {
      var outcome: Result<seq<Prescription>>;
      if snapshot.Err? {
        outcome := Err(snapshot.error);
      } else {
        outcome := BuildRecords(decrypt, snapshot.value);
      }
      if outcome.Ok? {
        prescriptions := outcome.value;
        loading := false;
        HandleSearch();
      } else {
        error := Some(FetchErrorPrefix + outcome.error);
        loading := false;
      }
    }

    /**
     * `toggleCompleted(id, isCompleted)`. A successful write overwrites the
     * store entry for `id` and negates `completed` on the matching records of
     * the filtered list; a failed write changes nothing. The full list is
     * never touched.
     */
    method ToggleCompleted(store: ConfirmStore, id: string, isCompleted: bool, writeError: Option<string>)
      modifies this`filtered, store
      ensures prescriptions == old(prescriptions)
      ensures writeError.Some? ==> store.docs == old(store.docs) && filtered == old(filtered)
      ensures writeError.None? ==>
        && store.docs == old(store.docs)[id := Confirmation(ActionFor(isCompleted))]
        && filtered == ToggleMatching(old(filtered), id)
    {
      if writeError.Some? {
        return;
      }
      store.SetDoc(id, Confirmation(ActionFor(isCompleted)));
      filtered := ToggleMatching(filtered, id);
    }
  }
}

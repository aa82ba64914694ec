/**
 * The dashboard (src/pages/Dashboard_pharmacy.jsx): counts of appointments and
 * prescriptions, and a bar chart of prescriptions per weekday with a y-axis
 * sized to the tallest bar.
 */
module Dashboard {
  import opened Wrappers
  import opened Documents

  datatype Weekday = Monday | Tuesday | Wednesday | Thursday | Friday | Saturday | Sunday

  /** The key order of the `prescriptionsByDay` object, which is the chart's bar order. */
  const Week: seq<Weekday> := [Monday, Tuesday, Wednesday, Thursday, Friday, Saturday, Sunday]

  /** The long English weekday name `Intl.DateTimeFormat('en-US', { weekday: 'long' })` gives. */
  function WeekdayName(w: Weekday): string {
    match w
    case Monday => "Monday"
    case Tuesday => "Tuesday"
    case Wednesday => "Wednesday"
    case Thursday => "Thursday"
    case Friday => "Friday"
    case Saturday => "Saturday"
    case Sunday => "Sunday"
  }

  /** Every weekday appears in `Week` exactly once, under a name no other day has. */
  lemma WeekIsComplete(w: Weekday)
    ensures exists i :: 0 <= i < |Week| && Week[i] == w
    ensures forall i, j :: 0 <= i < j < |Week| ==> Week[i] != Week[j]
    ensures forall v :: WeekdayName(v) == WeekdayName(w) ==> v == w
  {
    match w
    case Monday => assert Week[0] == w;
    case Tuesday => assert Week[1] == w;
    case Wednesday => assert Week[2] == w;
    case Thursday => assert Week[3] == w;
    case Friday => assert Week[4] == w;
    case Saturday => assert Week[5] == w;
    case Sunday => assert Week[6] == w;
  }

  /**
   * What `decryptDate` (`new Date(atob(s))`) and `getWeekdayName` make of a
   * stored date: `atob` throws on text that is not base64, the `Date` may be
   * invalid, or it falls on a weekday. Date parsing and time zones are not
   * modelled; the weekday is an input.
   */
  datatype DateReading = NotBase64 | InvalidDate | ValidDate(weekday: Weekday)

  type DecodeDate = string -> DateReading

  /** The `prescriptionsByDay` object. */
  type Buckets = map<Weekday, nat>

  /** The bucket object has a key for each of the seven days. */
  predicate HasAllDays(m: Buckets) {
    forall w: Weekday :: w in m
  }

  /** The initial counts the dashboard ships with: 4 on Monday, 7 on Tuesday, 0 elsewhere. */
  function ShippedSeed(): (m: Buckets)
    ensures HasAllDays(m)
  {
    var m := map[Monday := 4, Tuesday := 7, Wednesday := 0, Thursday := 0, Friday := 0, Saturday := 0, Sunday := 0];
    SevenKeys(m);
    m
  }

  /** A map with the seven day keys listed one by one has every day as a key. */
  lemma SevenKeys(m: Buckets)
    requires Monday in m && Tuesday in m && Wednesday in m && Thursday in m
    requires Friday in m && Saturday in m && Sunday in m
    ensures HasAllDays(m)
  {
    forall w: Weekday ensures w in m {
      match w {
        case Monday =>
        case Tuesday =>
        case Wednesday =>
        case Thursday =>
        case Friday =>
        case Saturday =>
        case Sunday =>
      }
    }
  }

  /** The sum of all seven buckets. */
  function Total(m: Buckets): nat
    requires HasAllDays(m)
  {
    m[Monday] + m[Tuesday] + m[Wednesday] + m[Thursday] + m[Friday] + m[Saturday] + m[Sunday]
  }

  /** What one document does to the histogram. */
  datatype Contribution = Skip | Count(day: Weekday) | Abort

  /**
   * One iteration of the `forEach` body: a missing or empty date is skipped,
   * an invalid `Date` is skipped, a date that `atob` rejects throws out of the
   * loop, and a valid date counts on its weekday.
   */
  function Classify(doc: PrescriptionData, decodeDate: DecodeDate): (c: Contribution)
    ensures c.Skip? <==> doc.prescriptionDate.None? || doc.prescriptionDate.value == ""
                         || decodeDate(doc.prescriptionDate.value).InvalidDate?
    ensures c.Abort? <==> doc.prescriptionDate.Some? && doc.prescriptionDate.value != ""
                          && decodeDate(doc.prescriptionDate.value).NotBase64?
    ensures c.Count? ==> doc.prescriptionDate.Some? && doc.prescriptionDate.value != ""
                         && decodeDate(doc.prescriptionDate.value) == ValidDate(c.day)
  {
    match doc.prescriptionDate
    case None => Skip
    case Some(s) =>
      if s == "" then Skip
      else
        match decodeDate(s)
        case NotBase64 => Abort
        case InvalidDate => Skip
        case ValidDate(w) => Count(w)
  }

  /** `prescriptionsByDay[weekday] += 1`. */
  function AddOne(m: Buckets, w: Weekday): (r: Buckets)
    requires HasAllDays(m)
    ensures HasAllDays(r)
    ensures r[w] == m[w] + 1 && Total(r) == Total(m) + 1
    ensures forall d :: d != w ==> r[d] == m[d]
  {
    var r := m[w := m[w] + 1];
    // `Total` adds the seven buckets by name; splitting on `w` shows the
    // verifier which one of its seven summands grew.
    match w
    case Monday => r
    case Tuesday => r
    case Wednesday => r
    case Thursday => r
    case Friday => r
    case Saturday => r
    case Sunday => r
  }

  /** The histogram after the loop, or None when an exception left it. */
  function Tally(seed: Buckets, docs: seq<PrescriptionData>, decodeDate: DecodeDate): (r: Option<Buckets>)
    requires HasAllDays(seed)
    ensures r.Some? ==> HasAllDays(r.value)
  {
    if docs == [] then Some(seed)
    else
      match Tally(seed, docs[..|docs| - 1], decodeDate)
      case None => None
      case Some(m) =>
        match Classify(docs[|docs| - 1], decodeDate)
        case Abort => None
        case Skip => Some(m)
        case Count(w) => Some(AddOne(m, w))
  }

  /** The number of documents that count on weekday `w`. */
  function CountOn(docs: seq<PrescriptionData>, decodeDate: DecodeDate, w: Weekday): nat {
    if docs == [] then 0
    else CountOn(docs[..|docs| - 1], decodeDate, w) + (if Classify(docs[|docs| - 1], decodeDate) == Count(w) then 1 else 0)
  }

  /** The number of documents with a valid date. */
  function ValidCount(docs: seq<PrescriptionData>, decodeDate: DecodeDate): nat {
    if docs == [] then 0
    else ValidCount(docs[..|docs| - 1], decodeDate) + (if Classify(docs[|docs| - 1], decodeDate).Count? then 1 else 0)
  }

  /** Once a prefix has thrown, the whole loop has thrown. */
  lemma {:induction false} TallyPrefixAbort(seed: Buckets, docs: seq<PrescriptionData>, decodeDate: DecodeDate, k: nat)
    requires HasAllDays(seed) && k <= |docs| && Tally(seed, docs[..k], decodeDate).None?
    ensures Tally(seed, docs, decodeDate).None?
  {
    if k < |docs| {
      var init := docs[..|docs| - 1];
      assert init[..k] == docs[..k];
      TallyPrefixAbort(seed, init, decodeDate, k);
    } else {
      assert docs[..k] == docs;
    }
  }

  /** The histogram is abandoned exactly when some document's date is not base64. */
  lemma {:induction false} TallyAbortsIff(seed: Buckets, docs: seq<PrescriptionData>, decodeDate: DecodeDate)
    requires HasAllDays(seed)
    ensures Tally(seed, docs, decodeDate).None? <==> exists i :: 0 <= i < |docs| && Classify(docs[i], decodeDate).Abort?
  {
    if docs != [] {
      var n := |docs| - 1;
      var init := docs[..n];
      TallyAbortsIff(seed, init, decodeDate);
      if Tally(seed, init, decodeDate).None? {
        var j :| 0 <= j < n && Classify(init[j], decodeDate).Abort?;
        assert init[j] == docs[j];
      } else if !Classify(docs[n], decodeDate).Abort? {
        forall i | 0 <= i < |docs| ensures !Classify(docs[i], decodeDate).Abort? {
          if i < n { assert init[i] == docs[i]; }
        }
      }
    }
  }

  /**
   * Each bucket ends at its seed plus the number of documents dated on that
   * weekday: a valid date adds one to its own day only, everything else adds
   * nothing.
   */
  lemma {:induction false} TallyPerDay(seed: Buckets, docs: seq<PrescriptionData>, decodeDate: DecodeDate, w: Weekday)
    requires HasAllDays(seed) && Tally(seed, docs, decodeDate).Some?
    ensures Tally(seed, docs, decodeDate).value[w] == seed[w] + CountOn(docs, decodeDate, w)
  {
    if docs != [] {
      TallyPerDay(seed, docs[..|docs| - 1], decodeDate, w);
    }
  }

  /** The buckets sum to the seeds' sum plus the number of documents with a valid date. */
  lemma {:induction false} TallyTotal(seed: Buckets, docs: seq<PrescriptionData>, decodeDate: DecodeDate)
    requires HasAllDays(seed) && Tally(seed, docs, decodeDate).Some?
    ensures Total(Tally(seed, docs, decodeDate).value) == Total(seed) + ValidCount(docs, decodeDate)
  {
    if docs != [] {
      TallyTotal(seed, docs[..|docs| - 1], decodeDate);
    }
  }

  /** No bucket ends below its seed. */
  lemma TallyAtLeastSeed(seed: Buckets, docs: seq<PrescriptionData>, decodeDate: DecodeDate)
    requires HasAllDays(seed) && Tally(seed, docs, decodeDate).Some?
    ensures forall w :: Tally(seed, docs, decodeDate).value[w] >= seed[w]
  {
    forall w ensures Tally(seed, docs, decodeDate).value[w] >= seed[w] {
      TallyPerDay(seed, docs, decodeDate, w);
    }
  }

  /** With the shipped seed, the chart total is 11 more than the number of validly dated prescriptions. */
  lemma ShippedTotal(docs: seq<PrescriptionData>, decodeDate: DecodeDate)
    requires Tally(ShippedSeed(), docs, decodeDate).Some?
    ensures Total(Tally(ShippedSeed(), docs, decodeDate).value) == 11 + ValidCount(docs, decodeDate)
  {
    TallyTotal(ShippedSeed(), docs, decodeDate);
  }

  /** One more document: the tally so far, changed as that document's contribution says. */
  lemma TallyStep(seed: Buckets, docs: seq<PrescriptionData>, decodeDate: DecodeDate, i: nat)
    requires HasAllDays(seed) && i < |docs| && Tally(seed, docs[..i], decodeDate).Some?
    ensures var m := Tally(seed, docs[..i], decodeDate).value;
      Tally(seed, docs[..i + 1], decodeDate) ==
        match Classify(docs[i], decodeDate)
        case Abort => None
        case Skip => Some(m)
        case Count(w) => Some(m[w := m[w] + 1])
  {
    assert docs[..i + 1][..i] == docs[..i];
  }

  /**
   * The `forEach` loop of `fetchCounts` over the prescription documents,
   * updating the bucket object in place. `aborted` says an exception left the
   * loop.
   */
  method AccumulateByDay(seed: Buckets, docs: seq<PrescriptionData>, decodeDate: DecodeDate)
    returns (byDay: Buckets, aborted: bool)
    requires HasAllDays(seed)
    ensures aborted <==> Tally(seed, docs, decodeDate).None?
    ensures !aborted ==> byDay == Tally(seed, docs, decodeDate).value
  {
    byDay, aborted := seed, false;
    var i := 0;
    while i < |docs|
      invariant 0 <= i <= |docs|
      invariant Tally(seed, docs[..i], decodeDate) == Some(byDay)
      invariant HasAllDays(byDay)
    {
      TallyStep(seed, docs, decodeDate, i);
      var contribution := Classify(docs[i], decodeDate);
      match contribution {
        case Abort =>
          TallyPrefixAbort(seed, docs, decodeDate, i + 1);
          aborted := true;
          return;
        case Skip =>
        case Count(w) =>
          byDay := byDay[w := byDay[w] + 1];
      }
      i := i + 1;
    }
    assert docs[..i] == docs;
  }

  /** One bar of the chart. */
  datatype ChartPoint = ChartPoint(weekday: string, prescriptions: nat)

  /** `Object.keys(prescriptionsByDay).map(...)`: one bar per weekday, Monday first. */
  function ChartData(m: Buckets): (r: seq<ChartPoint>)
    requires HasAllDays(m)
    ensures |r| == |Week|
    ensures forall i :: 0 <= i < |Week| ==> r[i].weekday == WeekdayName(Week[i]) && r[i].prescriptions == m[Week[i]]
  {
    seq(|Week|, i requires 0 <= i < |Week| => ChartPoint(WeekdayName(Week[i]), m[Week[i]]))
  }

  function ChartSum(chart: seq<ChartPoint>): nat {
    if chart == [] then 0 else chart[0].prescriptions + ChartSum(chart[1..])
  }

  /** The bars add up to the bucket total, and each weekday's bar carries its bucket under its name. */
  lemma ChartDataFaithful(m: Buckets, w: Weekday)
    requires HasAllDays(m)
    ensures ChartSum(ChartData(m)) == Total(m)
    ensures exists i :: 0 <= i < |Week| && ChartData(m)[i] == ChartPoint(WeekdayName(w), m[w])
  {
    var c := ChartData(m);
    assert ChartSum(c[6..]) == m[Sunday];
    assert ChartSum(c[5..]) == m[Saturday] + m[Sunday];
    assert ChartSum(c[4..]) == m[Friday] + m[Saturday] + m[Sunday];
    assert ChartSum(c[3..]) == m[Thursday] + m[Friday] + m[Saturday] + m[Sunday];
    assert ChartSum(c[2..]) == m[Wednesday] + m[Thursday] + m[Friday] + m[Saturday] + m[Sunday];
    assert ChartSum(c[1..]) == Total(m) - m[Monday];
    WeekIsComplete(w);
  }

  /** `Math.max(...chartData.map(d => d.prescriptions), 0)`. */
  function MaxCount(chart: seq<ChartPoint>): (r: nat)
    ensures forall i :: 0 <= i < |chart| ==> chart[i].prescriptions <= r
    ensures r == 0 || exists i :: 0 <= i < |chart| && chart[i].prescriptions == r
  {
    if chart == [] then 0
    else
      var rest := MaxCount(chart[1..]);
      if chart[0].prescriptions >= rest then chart[0].prescriptions
      else
        assert exists i :: 0 <= i < |chart[1..]| && chart[1..][i].prescriptions == rest;
        var i :| 0 <= i < |chart[1..]| && chart[1..][i].prescriptions == rest;
        assert chart[i + 1].prescriptions == rest;
        rest
  }

  /** The upper end of the y-axis domain: `Math.max(maxCount + 5, 50)`. */
  function YAxisTop(maxCount: int): (top: int)
    ensures top >= 50 && top >= maxCount + 5
    ensures top == 50 || top == maxCount + 5
  {
    if maxCount + 5 >= 50 then maxCount + 5 else 50
  }

  /** The y-axis reaches at least 50 and stays strictly above every bar. */
  lemma YAxisAboveEveryBar(chart: seq<ChartPoint>)
    ensures YAxisTop(MaxCount(chart)) >= 50
    ensures forall i :: 0 <= i < |chart| ==> chart[i].prescriptions < YAxisTop(MaxCount(chart))
  {
  }

  class DashboardPage {
    var patientCount: nat
    var prescriptionCount: nat
    var chartData: seq<ChartPoint>

    constructor ()
      ensures patientCount == 0 && prescriptionCount == 0 && chartData == []
    {
      patientCount, prescriptionCount, chartData := 0, 0, [];
    }

    /**
     * `fetchCounts`. `appointments` is the size of the `Appointments` snapshot
     * and `prescriptions` the `prescriptions` snapshot, each None when its
     * read fails. A failure anywhere stops the handler where it is: the
     * counts already set stay, and the chart is only replaced when the loop
     * completes.
     */
    method FetchCounts(appointments: Option<nat>, prescriptions: Option<seq<PrescriptionData>>, decodeDate: DecodeDate)
      modifies this
      ensures appointments.None? ==> patientCount == old(patientCount)
      ensures appointments.Some? ==> patientCount == appointments.value
      ensures appointments.Some? && prescriptions.Some? ==> prescriptionCount == |prescriptions.value|
      ensures appointments.None? || prescriptions.None? ==> prescriptionCount == old(prescriptionCount)
      ensures chartData ==
        if appointments.Some? && prescriptions.Some? && Tally(ShippedSeed(), prescriptions.value, decodeDate).Some?
        then ChartData(Tally(ShippedSeed(), prescriptions.value, decodeDate).value)
        else old(chartData)
    {
      if appointments.None? {
        return;
      }
      patientCount := appointments.value;
      if prescriptions.None? {
        return;
      }
      prescriptionCount := |prescriptions.value|;
      var byDay, aborted := AccumulateByDay(ShippedSeed(), prescriptions.value, decodeDate);
      if aborted {
        return;
      }
      chartData := ChartData(byDay);
    }
  }
}

/** The computations of src/components/ItineraryGenerator.jsx: the estimated
    price of a trip, the remaining balance shown under the payment plan, the
    trip length, and the editing of a day's activity list. The form state is an
    object whose values the activity buttons replace; submitting hands the
    values and the estimate to the document builder. */
module ItineraryGenerator {
  import opened Trip
  import DateHelpers
  import PageLayout
  import PdfGenerator
  import Draw

  /** Price of one hotel room for one night. */
  const CostPerNightPerRoom: nat := 4000
  /** Price of one flight for one traveler. */
  const CostPerFlight: nat := 8000
  /** Price of one activity for one traveler. */
  const CostPerActivity: nat := 500

  // ------------------------------------------------------------ the estimate

  /** `parseInt(data.travelers || 1)`: an empty or zero count means one traveler. */
  function Travelers(t: TripForm): (n: nat)
    ensures n >= 1
    ensures t.travelers >= 1 ==> n == t.travelers
    ensures t.travelers == 0 ==> n == 1
  {
    if t.travelers == 0 then 1 else t.travelers
  }

  /** `parseInt(hotel.nights || 0)`: a missing count costs nothing. */
  function HotelNights(h: Hotel): (r: nat)
    ensures h.nights.None? ==> r == 0
    ensures h.nights.Some? ==> r == h.nights.value
  {
    match h.nights
    case None => 0
    case Some(n) => n
  }

  /** The hotel `reduce`: `sum` carried from left to right. */
  function HotelCostFold(sum: int, hotels: seq<Hotel>): int
    decreases |hotels|
  {
    if hotels == [] then sum
    else HotelCostFold(sum + HotelNights(hotels[0]) * CostPerNightPerRoom, hotels[1..])
  }

  /** The activity `reduce`: `total` carried from left to right. */
  function ActivityCountFold(total: int, days: seq<DayPlan>): int
    decreases |days|
  {
    if days == [] then total
    else ActivityCountFold(total + |days[0].activities|, days[1..])
  }

  /** Reference definition: the nights of all hotels. */
  function TotalNights(hotels: seq<Hotel>): nat {
    if hotels == [] then 0 else HotelNights(hotels[0]) + TotalNights(hotels[1..])
  }

  /** Reference definition: the activities of all days, in order. */
  function AllActivities(days: seq<DayPlan>): seq<Activity> {
    if days == [] then [] else days[0].activities + AllActivities(days[1..])
  }

  /** The hotel fold adds the price of all nights to its seed. */
  lemma {:induction false} HotelCostFoldSum(sum: int, hotels: seq<Hotel>)
    ensures HotelCostFold(sum, hotels) == sum + TotalNights(hotels) * CostPerNightPerRoom
    decreases |hotels|
  {
    if hotels != [] {
      HotelCostFoldSum(sum + HotelNights(hotels[0]) * CostPerNightPerRoom, hotels[1..]);
    }
  }

  /** The activity fold adds the number of all activities to its seed. */
  lemma {:induction false} ActivityCountFoldSum(total: int, days: seq<DayPlan>)
    ensures ActivityCountFold(total, days) == total + |AllActivities(days)|
    decreases |days|
  {
    if days != [] {
      ActivityCountFoldSum(total + |days[0].activities|, days[1..]);
    }
  }

  /** calculateTotalAmount. */
  function CalculateTotalAmount(t: TripForm): int {
    var travelers := Travelers(t);
    var hotelCost := HotelCostFold(0, t.hotels);
    var flightCost := |t.flights| * CostPerFlight * travelers;
    var activityCount := ActivityCountFold(0, t.days);
    hotelCost + flightCost + activityCount * CostPerActivity * travelers
  }

  /** The estimate is the price of every hotel night, plus every flight and
      every activity for each traveler; it is never negative. */
  lemma TotalAmountFormula(t: TripForm)
    ensures CalculateTotalAmount(t)
            == TotalNights(t.hotels) * CostPerNightPerRoom
               + |t.flights| * CostPerFlight * Travelers(t)
               + |AllActivities(t.days)| * CostPerActivity * Travelers(t)
    ensures CalculateTotalAmount(t) >= 0
  {
    HotelCostFoldSum(0, t.hotels);
    ActivityCountFoldSum(0, t.days);
  }

  /** The estimate as a natural number, the amount handed to the document. */
  function Estimate(t: TripForm): (total: nat)
    ensures total == CalculateTotalAmount(t)
  {
    TotalAmountFormula(t);
    CalculateTotalAmount(t)
  }

  /** An activity with the given slot and type and empty text fields. */
  function BlankActivity(time: string, kind: string): Activity {
    Activity(time, "", "", "", kind)
  }

  /** One hotel of 5 nights, two flights and three activities over two days,
      for one traveler, cost 5 * 4000 + 2 * 8000 + 3 * 500. */
  lemma ExampleTotal()
    ensures var a := BlankActivity("Morning", "Sightseeing");
            var t := TripForm("", "", 1, "", DateHelpers.NoDate, DateHelpers.NoDate,
                              [DayPlan(DateHelpers.NoDate, [a, a]), DayPlan(DateHelpers.NoDate, [a])],
                              [Flight(DateHelpers.NoDate, "Air India", "", "", "", ""),
                               Flight(DateHelpers.NoDate, "Air India", "", "", "", "")],
                              [Hotel("", "", DateHelpers.NoDate, DateHelpers.NoDate, Some(5))], 0, 0);
            CalculateTotalAmount(t) == 37500
  {
    var a := BlankActivity("Morning", "Sightseeing");
    var days := [DayPlan(DateHelpers.NoDate, [a, a]), DayPlan(DateHelpers.NoDate, [a])];
    var hotels := [Hotel("", "", DateHelpers.NoDate, DateHelpers.NoDate, Some(5))];
    assert days[1..] == [DayPlan(DateHelpers.NoDate, [a])] && days[1..][1..] == [];
    assert hotels[1..] == [];
    assert AllActivities(days[1..]) == [a] + AllActivities(days[1..][1..]) == [a];
    assert AllActivities(days) == [a, a] + [a];
    assert TotalNights(hotels) == 5;
    var t := TripForm("", "", 1, "", DateHelpers.NoDate, DateHelpers.NoDate, days,
                      [Flight(DateHelpers.NoDate, "Air India", "", "", "", ""),
                       Flight(DateHelpers.NoDate, "Air India", "", "", "", "")],
                      hotels, 0, 0);
    TotalAmountFormula(t);
  }

  /** The remaining balance under the payment plan, `Math.max(total - i1 - i2, 0)`. */
  function RemainingAmount(total: int, installment1: nat, installment2: nat): (r: nat)
    ensures r >= total - installment1 - installment2
    ensures r == 0 || r == total - installment1 - installment2
  {
    if total - installment1 - installment2 > 0 then total - installment1 - installment2 else 0
  }

  /** The trip length shown on screen: 0 when either date is empty, otherwise
      the nights of the date helpers. */
  function CalculateNights(date1: DateHelpers.DateValue, date2: DateHelpers.DateValue): (n: nat)
    ensures n == DateHelpers.CalculateNights(date1, date2)
  {
    if date1.Date? && date2.Date? then
      DateHelpers.CeilDiv(DateHelpers.Abs(date2.ms - date1.ms), DateHelpers.MsPerDay)
    else 0
  }

  /** The on-screen trip length is 0 for a missing date, the same in either
      order, and 0 for equal dates. */
  lemma CalculateNightsProperties(a: DateHelpers.DateValue, b: DateHelpers.DateValue)
    ensures a == DateHelpers.NoDate || b == DateHelpers.NoDate ==> CalculateNights(a, b) == 0
    ensures CalculateNights(a, b) == CalculateNights(b, a)
    ensures CalculateNights(a, a) == 0
  {
    DateHelpers.NightsSymmetric(a, b);
    DateHelpers.NightsSameDate(a);
  }

  // ------------------------------------------------------ activity editing

  /** The activity `addActivity` appends. */
  function NewActivity(): (a: Activity)
    ensures a.time == "Afternoon" && a.kind == "Sightseeing"
    ensures a.title == "" && a.description == "" && a.duration == ""
  {
    BlankActivity("Afternoon", "Sightseeing")
  }

  /** `[...activities, newActivity]`. */
  function AppendActivity(acts: seq<Activity>): (r: seq<Activity>)
    ensures |r| == |acts| + 1
    ensures r[..|acts|] == acts && r[|acts|] == NewActivity()
  {
    acts + [NewActivity()]
  }

  /** `activities.filter((_, index) => index !== k)`, walking the list with the
      index of its first element. */
  function FilterIndex(acts: seq<Activity>, k: nat, index: nat): seq<Activity>
    decreases |acts|
  {
    if acts == [] then []
    else if index == k then FilterIndex(acts[1..], k, index + 1)
    else [acts[0]] + FilterIndex(acts[1..], k, index + 1)
  }

  /** A position outside the list drops nothing. */
  lemma {:induction false} FilterIndexKeeps(acts: seq<Activity>, k: nat, index: nat)
    requires !(index <= k < index + |acts|)
    ensures FilterIndex(acts, k, index) == acts
    decreases |acts|
  {
    if acts != [] {
      FilterIndexKeeps(acts[1..], k, index + 1);
      assert [acts[0]] + acts[1..] == acts;
    }
  }

  /** The filter drops exactly the entry at position `k` and keeps the others
      in order. */
  lemma {:induction false} FilterIndexDrops(acts: seq<Activity>, k: nat, index: nat)
    requires index <= k < index + |acts|
    ensures FilterIndex(acts, k, index) == acts[..k - index] + acts[k - index + 1..]
    decreases |acts|
  {
    if index == k {
      FilterIndexKeeps(acts[1..], k, index + 1);
      assert acts[..0] + acts[1..] == acts[1..];
    } else {
      var j, tail := k - index, acts[1..];
      FilterIndexDrops(tail, k, index + 1);
      assert tail[..j - 1] == acts[1..j] && tail[j..] == acts[j + 1..];
      assert FilterIndex(acts, k, index) == [acts[0]] + (acts[1..j] + acts[j + 1..]);
      assert [acts[0]] + acts[1..j] == acts[..j];
      Draw.ConcatAssoc([acts[0]], acts[1..j], acts[j + 1..]);
    }
  }

  /** removeActivity's list: without the entry at `k`, the others in order; a
      position past the end changes nothing. */
  function RemoveActivityAt(acts: seq<Activity>, k: nat): (r: seq<Activity>)
    ensures k < |acts| ==> |r| == |acts| - 1 && r == acts[..k] + acts[k + 1..]
    ensures k >= |acts| ==> r == acts
  {
    if k < |acts| then
      FilterIndexDrops(acts, k, 0);
      FilterIndex(acts, k, 0)
    else
      FilterIndexKeeps(acts, k, 0);
      FilterIndex(acts, k, 0)
  }

  /** `setValue('days.<d>.activities', acts)`: the activities of day `d` and
      nothing else are replaced. */
  function SetDayActivities(t: TripForm, d: nat, acts: seq<Activity>): (r: TripForm)
    requires d < |t.days|
    ensures |r.days| == |t.days| && r.days[d].activities == acts && r.days[d].date == t.days[d].date
    ensures forall i :: 0 <= i < |t.days| && i != d ==> r.days[i] == t.days[i]
    ensures r.(days := t.days) == t
  {
    t.(days := t.days[d := t.days[d].(activities := acts)])
  }

  /** Replacing the activities of one day changes the total count by the
      difference in that day's length. */
  lemma {:induction false} AllActivitiesUpdate(days: seq<DayPlan>, d: nat, acts: seq<Activity>)
    requires d < |days|
    ensures |AllActivities(days[d := days[d].(activities := acts)])|
            == |AllActivities(days)| - |days[d].activities| + |acts|
    decreases |days|
  {
    var days' := days[d := days[d].(activities := acts)];
    if d == 0 {
      assert days'[1..] == days[1..];
    } else {
      assert days'[1..] == days[1..][d - 1 := days[d].(activities := acts)];
      AllActivitiesUpdate(days[1..], d - 1, acts);
    }
  }

  /** One more unit of `c` for each of `t`. */
  lemma MulSucc(x: int, c: int, t: int)
    ensures (x + 1) * c * t == x * c * t + c * t
  {
  }

  /** Adding an activity to a day raises the estimate by one activity for
      every traveler. */
  lemma AddActivityCost(t: TripForm, d: nat)
    requires d < |t.days|
    ensures CalculateTotalAmount(SetDayActivities(t, d, AppendActivity(t.days[d].activities)))
            == CalculateTotalAmount(t) + CostPerActivity * Travelers(t)
  {
    var t' := SetDayActivities(t, d, AppendActivity(t.days[d].activities));
    AllActivitiesUpdate(t.days, d, AppendActivity(t.days[d].activities));
    var n := |AllActivities(t.days)|;
    assert |AllActivities(t'.days)| == n + 1;
    MulSucc(n, CostPerActivity, Travelers(t));
    TotalAmountFormula(t);
    TotalAmountFormula(t');
  }

  /** Removing an existing activity lowers the estimate by one activity for
      every traveler. */
  lemma RemoveActivityCost(t: TripForm, d: nat, k: nat)
    requires d < |t.days| && k < |t.days[d].activities|
    ensures CalculateTotalAmount(SetDayActivities(t, d, RemoveActivityAt(t.days[d].activities, k)))
            == CalculateTotalAmount(t) - CostPerActivity * Travelers(t)
  {
    var t' := SetDayActivities(t, d, RemoveActivityAt(t.days[d].activities, k));
    AllActivitiesUpdate(t.days, d, RemoveActivityAt(t.days[d].activities, k));
    var n := |AllActivities(t'.days)|;
    assert |AllActivities(t.days)| == n + 1;
    MulSucc(n, CostPerActivity, Travelers(t));
    TotalAmountFormula(t);
    TotalAmountFormula(t');
  }

  // --------------------------------------------------------------- the form

  /** The `defaultValues` of the form. */
  function DefaultValues(): TripForm {
    TripForm("", "", 1, "", DateHelpers.NoDate, DateHelpers.NoDate,
             [DayPlan(DateHelpers.NoDate, [BlankActivity("Morning", "Sightseeing")])],
             [Flight(DateHelpers.NoDate, "Air India", "", "", "", "")],
             [Hotel("", "", DateHelpers.NoDate, DateHelpers.NoDate, Some(0))], 0, 0)
  }

  /** The untouched form is estimated at one flight and one activity for one
      traveler. */
  lemma DefaultTotal()
    ensures CalculateTotalAmount(DefaultValues()) == CostPerFlight + CostPerActivity
  {
    var t := DefaultValues();
    assert t.hotels[1..] == [] && t.days[1..] == [];
    TotalAmountFormula(t);
  }

  /** The document's third installment and the on-screen remaining balance are
      computed from the same estimate: when the document prints an amount it is
      the on-screen balance, and otherwise the document prints 'Remaining' and
      the screen shows 0. */
  lemma RemainingMatchesDocument(t: TripForm, b: PageLayout.Backend)
    ensures var third := PageLayout.Installments(ItineraryData(t, Estimate(t)))[2].amount;
            var shown := RemainingAmount(CalculateTotalAmount(t), t.installment1, t.installment2);
            (third > 0 ==> third == shown) &&
            (third <= 0 <==> PageLayout.AmountText(third, b) == "Remaining") &&
            (third <= 0 ==> shown == 0)
  {
  }

  /** The form: its current values, which the activity buttons replace. */
  class ItineraryForm {
    var values: TripForm

    constructor ()
      ensures values == DefaultValues()
    {
      values := DefaultValues();
    }

    /** addActivity: a day that does not exist leaves the form unchanged (the
        source fails reading its activities). */
    method AddActivity(dayIndex: nat) returns (ok: bool)
      modifies this
      ensures ok <==> dayIndex < |old(values).days|
      ensures ok ==> values == SetDayActivities(old(values), dayIndex,
                                                AppendActivity(old(values).days[dayIndex].activities))
      ensures !ok ==> values == old(values)
    {
      ok := dayIndex < |values.days|;
      if ok {
        var currentDay := values.days[dayIndex];
        values := SetDayActivities(values, dayIndex, AppendActivity(currentDay.activities));
      }
    }

    /** removeActivity. */
    method RemoveActivity(dayIndex: nat, activityIndex: nat) returns (ok: bool)
      modifies this
      ensures ok <==> dayIndex < |old(values).days|
      ensures ok ==> values == SetDayActivities(old(values), dayIndex,
                                                RemoveActivityAt(old(values).days[dayIndex].activities,
                                                                 activityIndex))
      ensures !ok ==> values == old(values)
    {
      ok := dayIndex < |values.days|;
      if ok {
        var currentDay := values.days[dayIndex];
        values := SetDayActivities(values, dayIndex, RemoveActivityAt(currentDay.activities, activityIndex));
      }
    }

    /** onSubmit: a new document builder is given the values and the same
        estimate as the one shown on screen. */
    method Submit(backend: PageLayout.Backend) returns (doc: PdfGenerator.DocBuilder, fileName: string)
      ensures fresh(doc)
      ensures doc.State() == PageLayout.Generate(ItineraryData(values, Estimate(values)), backend)
      ensures fileName == PdfGenerator.FileName(values.customerName, values.destination)
    {
      doc := new PdfGenerator.DocBuilder(backend);
      fileName := doc.GeneratePDF(ItineraryData(values, Estimate(values)));
    }
  }
}

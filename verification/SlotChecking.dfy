/** The check made before slots are stored (internal/billing/engine.go), against the evaluation it protects. */
module SlotChecking {
  import opened Common
  import opened Text
  import opened Billing

  datatype SlotsText = Blank | Malformed | Parsed(slots: seq<Slot>)

  datatype Fault = OutOfRange | SameTime

  datatype SlotError =
    | BadFormat
    | BadTime(slot: nat, fault: Fault)
    | Overlap(first: nat, second: nat, days: seq<int>)

  function FaultOf(slot: Slot): Option<Fault> {
    var start, end := slot.start, slot.end;
    if !(0 <= start < DAY && 0 <= end < DAY) then Some(OutOfRange)
    else if start == end then Some(SameTime)
    else None
  }

  const EVERY_DAY: seq<int> := [1, 2, 3, 4, 5, 6, 7]

  function DaysOf(slot: Slot): seq<int> { if slot.days == [] then EVERY_DAY else slot.days }

  /** A window within one day, or its two halves around midnight. */
  function Intervals(slot: Slot): seq<(int, int)> {
    var start, end := slot.start, slot.end;
    if start < end then [(start, end)] else [(start, DAY), (0, end)]
  }

  function CommonDays(a: seq<int>, b: seq<int>): seq<int> {
    if a == [] then [] else CommonDays(a[..|a| - 1], b) + if a[|a| - 1] in b then [a[|a| - 1]] else []
  }

  // ---- What the check is for, said without intervals ----

  predicate InSlot(slot: Slot, minute: int) {
    InWindow(slot.start, slot.end, minute)
  }

  predicate ShareMinute(a: Slot, b: Slot) {
    exists m :: 0 <= m < DAY && InSlot(a, m) && InSlot(b, m)
  }

  predicate ShareDay(a: Slot, b: Slot) {
    exists d :: d in DaysOf(a) && d in DaysOf(b)
  }

  predicate Clash(a: Slot, b: Slot) { ShareDay(a, b) && ShareMinute(a, b) }

  /** A single slot is taken as it is; several need proper times and no clash. */
  predicate Acceptable(slots: seq<Slot>) {
    |slots| > 1 ==>
      && (forall i :: 0 <= i < |slots| ==> FaultOf(slots[i]).None?)
      && forall i, j :: 0 <= i < j < |slots| ==> !Clash(slots[i], slots[j])
  }

  /** The pairs before (i, j), in the order in which they are looked at, do not clash. */
  predicate FineBefore(slots: seq<Slot>, i: nat, j: nat) {
    forall a, b :: 0 <= a < b < |slots| && (a < i || (a == i && b < j)) ==> !Clash(slots[a], slots[b])
  }

  predicate TimesFine(slots: seq<Slot>, n: nat) {
    forall k :: 0 <= k < n && k < |slots| ==> FaultOf(slots[k]).None?
  }

  /** The error is about the first fault met, pairs being looked at in order. */
  predicate IsFirstError(slots: seq<Slot>, e: SlotError) {
    match e
    case BadFormat => false
    case BadTime(k, fault) =>
      k < |slots| && FaultOf(slots[k]) == Some(fault) && TimesFine(slots, k) && FineBefore(slots, 0, k)
    case Overlap(i, j, days) =>
      && i < j < |slots| && Clash(slots[i], slots[j]) && FineBefore(slots, i, j)
      && TimesFine(slots, if i == 0 then j + 1 else |slots|)
      && days == CommonDays(DaysOf(slots[i]), DaysOf(slots[j]))
  }

  predicate Meet(r1: (int, int), r2: (int, int)) {
    (if r2.0 > r1.0 then r2.0 else r1.0) < (if r2.1 < r1.1 then r2.1 else r1.1)
  }

  /** The intervals of proper times hold the window's minutes. */
  lemma IntervalsAreTheWindow(slot: Slot, m: int)
    requires FaultOf(slot).None? && 0 <= m < DAY
    ensures InSlot(slot, m) <==> exists i :: 0 <= i < |Intervals(slot)| && Intervals(slot)[i].0 <= m < Intervals(slot)[i].1
    ensures forall i :: 0 <= i < |Intervals(slot)| ==> 0 <= Intervals(slot)[i].0 && Intervals(slot)[i].1 <= DAY
  {
    var start, end := slot.start, slot.end;
    if start < end {
      assert Intervals(slot)[0] == (start, end);
    } else {
      assert Intervals(slot)[0] == (start, DAY) && Intervals(slot)[1] == (0, end);
    }
  }

  predicate IntervalsMeet(a: seq<(int, int)>, b: seq<(int, int)>) {
    exists i, j :: 0 <= i < |a| && 0 <= j < |b| && Meet(a[i], b[j])
  }

  lemma MeetingIsSharing(a: Slot, b: Slot)
    requires FaultOf(a).None? && FaultOf(b).None?
    ensures IntervalsMeet(Intervals(a), Intervals(b)) <==> ShareMinute(a, b)
  {
    hide InWindow, Intervals, FaultOf, InSlot;
    IntervalsAreTheWindow(a, 0);
    IntervalsAreTheWindow(b, 0);
    if IntervalsMeet(Intervals(a), Intervals(b)) {
      var i, j :| 0 <= i < |Intervals(a)| && 0 <= j < |Intervals(b)| && Meet(Intervals(a)[i], Intervals(b)[j]);
      var r1, r2 := Intervals(a)[i], Intervals(b)[j];
      var m := if r2.0 > r1.0 then r2.0 else r1.0;
      IntervalsAreTheWindow(a, m);
      IntervalsAreTheWindow(b, m);
    }
    if ShareMinute(a, b) {
      var m :| 0 <= m < DAY && InSlot(a, m) && InSlot(b, m);
      IntervalsAreTheWindow(a, m);
      IntervalsAreTheWindow(b, m);
      var i :| 0 <= i < |Intervals(a)| && Intervals(a)[i].0 <= m < Intervals(a)[i].1;
      var j :| 0 <= j < |Intervals(b)| && Intervals(b)[j].0 <= m < Intervals(b)[j].1;
      assert Meet(Intervals(a)[i], Intervals(b)[j]);
    }
  }

  lemma {:induction false} CommonDaysAreShared(a: seq<int>, b: seq<int>)
    ensures forall d :: d in CommonDays(a, b) <==> d in a && d in b
  {
    if a != [] {
      var front, last := a[..|a| - 1], a[|a| - 1];
      CommonDaysAreShared(front, b);
      assert forall d :: d in a <==> d in front || d == last;
      assert CommonDays(a, b) == CommonDays(front, b) + if last in b then [last] else [];
      assert forall d :: d in CommonDays(a, b) <==> d in CommonDays(front, b) || (last in b && d == last);
    }
  }

  lemma CommonDaysMean(a: Slot, b: Slot)
    ensures CommonDays(DaysOf(a), DaysOf(b)) != [] <==> ShareDay(a, b)
  {
    hide DaysOf, CommonDays;
    var common := CommonDays(DaysOf(a), DaysOf(b));
    CommonDaysAreShared(DaysOf(a), DaysOf(b));
    if common != [] {
      var d := common[0];
      assert d in common;
      assert d in DaysOf(a) && d in DaysOf(b);
    }
  }

  // ---- The check ----

  method GetIntervals(slot: Slot) returns (r: Result<seq<(int, int)>, Fault>)
    ensures match FaultOf(slot) case Some(f) => r == Err(f) case None => r == Ok(Intervals(slot))
  {
    var sM, eM := slot.start, slot.end;
    if sM < 0 || sM >= 1440 || eM < 0 || eM >= 1440 {
      return Err(OutOfRange);
    }
    if sM == eM {
      return Err(SameTime);
    }
    if sM < eM {
      return Ok([(sM, eM)]);
    }
    return Ok([(sM, 1440), (0, eM)]);
  }

  method FindCommonDays(days1: seq<int>, days2: seq<int>) returns (common: seq<int>)
    ensures common == CommonDays(days1, days2)
  {
    common := [];
    for i := 0 to |days1|
      invariant common == CommonDays(days1[..i], days2)
    {
      assert days1[..i + 1][..i] == days1[..i];
      var found := ContainsDay(days2, days1[i]);
      if found {
        common := common + [days1[i]];
      }
    }
    assert days1[..|days1|] == days1;
  }

  method FindOverlap(int1: seq<(int, int)>, int2: seq<(int, int)>) returns (overlap: bool)
    ensures overlap <==> IntervalsMeet(int1, int2)
  {
    for i := 0 to |int1|
      invariant forall a, b :: 0 <= a < i && 0 <= b < |int2| ==> !Meet(int1[a], int2[b])
    {
      for j := 0 to |int2|
        invariant forall b :: 0 <= b < j ==> !Meet(int1[i], int2[b])
      {
        var maxS := int1[i].0;
        if int2[j].0 > maxS {
          maxS := int2[j].0;
        }
        var minE := int1[i].1;
        if int2[j].1 < minE {
          minE := int2[j].1;
        }
        if maxS < minE {
          assert Meet(int1[i], int2[j]);
          return true;
        }
      }
    }
    return false;
  }

  method ValidateSlotsOverlap(text: SlotsText) returns (err: Option<SlotError>)
    ensures text.Blank? ==> err == None
    ensures text.Malformed? ==> err == Some(BadFormat)
    ensures text.Parsed? ==>
      (err.None? <==> Acceptable(text.slots)) && (err.Some? ==> IsFirstError(text.slots, err.value))
  {
    hide FaultOf, Clash;
    match text
    case Blank => return None;
    case Malformed => return Some(BadFormat);
    case Parsed(slots) =>
      if |slots| <= 1 {
        return None;
      }
      for i := 0 to |slots|
        invariant FineBefore(slots, i, 0) && TimesFine(slots, if i == 0 then 0 else |slots|)
      {
        err := CheckSlot(slots, i);
        if err.Some? {
          return;
        }
      }
      return None;
  }

  /** One slot against all later ones. */
  method CheckSlot(slots: seq<Slot>, i: nat) returns (err: Option<SlotError>)
    requires i < |slots| && |slots| > 1 && FineBefore(slots, i, 0) && TimesFine(slots, if i == 0 then 0 else |slots|)
    ensures err.None? ==> FineBefore(slots, i + 1, 0) && TimesFine(slots, |slots|)
    ensures err.Some? ==> IsFirstError(slots, err.value) && !Acceptable(slots)
  {
    hide FaultOf, Clash, Intervals, CommonDays, DaysOf, InSlot;
    var int1 := GetIntervals(slots[i]);
    if int1.Err? {
      return Some(BadTime(i, int1.error));
    }
    err := None;
    for j := i + 1 to |slots|
      invariant FineBefore(slots, i, j) && TimesFine(slots, if i == 0 then j else |slots|)
    {
      var int2 := GetIntervals(slots[j]);
      if int2.Err? {
        return Some(BadTime(j, int2.error));
      }
      var clash, days := CheckPair(slots[i], slots[j], int1.value, int2.value);
      if clash {
        return Some(Overlap(i, j, days));
      }
    }
  }

  method CheckPair(a: Slot, b: Slot, int1: seq<(int, int)>, int2: seq<(int, int)>) returns (clash: bool, days: seq<int>)
    requires FaultOf(a).None? && FaultOf(b).None? && int1 == Intervals(a) && int2 == Intervals(b)
    ensures clash == Clash(a, b) && days == CommonDays(DaysOf(a), DaysOf(b))
  {
    hide FaultOf, Intervals, ShareMinute, ShareDay, IntervalsMeet;
    CommonDaysMean(a, b);
    MeetingIsSharing(a, b);
    days := FindCommonDays(DaysOf(a), DaysOf(b));
    if |days| == 0 {
      return false, days;
    }
    clash := FindOverlap(int1, int2);
  }

  // ---- What acceptance means to the evaluation ----

  /** Days as the evaluation counts them. */
  predicate RealDays(slots: seq<Slot>) {
    forall i, d :: 0 <= i < |slots| && d in slots[i].days ==> 1 <= d <= 7
  }

  lemma ActiveMeans(slot: Slot, day: int, minute: int)
    requires 1 <= day <= 7
    ensures Active(slot, day, minute) <==> day in DaysOf(slot) && InSlot(slot, minute)
  {
    hide InWindow;
    assert EVERY_DAY[day - 1] == day;
  }

  lemma DaysAreReal(slots: seq<Slot>, i: nat, d: int)
    requires RealDays(slots) && i < |slots| && d in DaysOf(slots[i])
    ensures 1 <= d <= 7
  {
  }

  /** Of accepted slots no two are ever active together, whatever numbers their days hold. */
  lemma AcceptedNeverTwoActive(slots: seq<Slot>, i: nat, j: nat, day: int, minute: int)
    requires Acceptable(slots) && i < |slots| && j < |slots| && i != j && 1 <= day <= 7 && 0 <= minute < DAY
    ensures !(Active(slots[i], day, minute) && Active(slots[j], day, minute))
  {
    hide Active, FaultOf, InSlot, DaysOf;
    ActiveMeans(slots[i], day, minute);
    ActiveMeans(slots[j], day, minute);
    assert !Clash(slots[if i < j then i else j], slots[if i < j then j else i]);
  }

  /** At some real day and minute the evaluation finds both slots active. */
  predicate ActiveTogether(a: Slot, b: Slot) {
    exists day, minute :: 1 <= day <= 7 && 0 <= minute < DAY && Active(a, day, minute) && Active(b, day, minute)
  }

  /** The windows overlap on a common day that the calendar does not have. */
  predicate MeetOnUnrealDay(a: Slot, b: Slot) {
    ShareMinute(a, b) && exists d :: d in DaysOf(a) && d in DaysOf(b) && !(1 <= d <= 7)
  }

  lemma MeetingIsActive(a: Slot, b: Slot, day: int, minute: int)
    requires 1 <= day <= 7 && 0 <= minute < DAY
    requires day in DaysOf(a) && day in DaysOf(b) && InSlot(a, minute) && InSlot(b, minute)
    ensures ActiveTogether(a, b)
  {
    hide Active, InSlot, DaysOf;
    ActiveMeans(a, day, minute);
    ActiveMeans(b, day, minute);
  }

  /** Two slots clash for the check if and only if they are active together or meet on an unreal day. */
  lemma ClashIff(a: Slot, b: Slot)
    ensures Clash(a, b) <==> ActiveTogether(a, b) || MeetOnUnrealDay(a, b)
  {
    hide Active, InSlot, DaysOf;
    if Clash(a, b) && !MeetOnUnrealDay(a, b) {
      var day :| day in DaysOf(a) && day in DaysOf(b);
      var minute :| 0 <= minute < DAY && InSlot(a, minute) && InSlot(b, minute);
      MeetingIsActive(a, b, day, minute);
    }
    if ActiveTogether(a, b) {
      var day, minute :| 1 <= day <= 7 && 0 <= minute < DAY && Active(a, day, minute) && Active(b, day, minute);
      ActiveMeans(a, day, minute);
      ActiveMeans(b, day, minute);
    }
  }

  predicate NeverTwoActive(slots: seq<Slot>) {
    forall i, j :: 0 <= i < j < |slots| ==> !ActiveTogether(slots[i], slots[j])
  }

  predicate NoneMeetOnUnrealDay(slots: seq<Slot>) {
    forall i, j :: 0 <= i < j < |slots| ==> !MeetOnUnrealDay(slots[i], slots[j])
  }

  /** Both times lie within the day and differ. */
  predicate ProperTimes(slot: Slot) {
    0 <= slot.start < 1440 && 0 <= slot.end < 1440 && slot.start != slot.end
  }

  /** A slot is at fault exactly when its times are not proper: out of the day, or else the same. */
  lemma FaultMeans(slot: Slot)
    ensures FaultOf(slot).None? <==> ProperTimes(slot)
    ensures FaultOf(slot) == Some(SameTime) <==> 0 <= slot.start == slot.end < 1440
  {
  }

  /**
   * Several slots are accepted if and only if all their times are proper, no two of them are ever active
   * together, midnight passed or not, and no two meet on a day outside 1 to 7.
   */
  lemma AcceptedIff(slots: seq<Slot>)
    requires |slots| > 1
    ensures Acceptable(slots) <==>
              (forall i :: 0 <= i < |slots| ==> ProperTimes(slots[i])) && NeverTwoActive(slots) && NoneMeetOnUnrealDay(slots)
  {
    hide FaultOf, ProperTimes, Clash, ActiveTogether, MeetOnUnrealDay;
    forall i | 0 <= i < |slots| ensures FaultOf(slots[i]).None? <==> ProperTimes(slots[i]) {
      FaultMeans(slots[i]);
    }
    forall i, j | 0 <= i < j < |slots|
      ensures Clash(slots[i], slots[j]) <==> ActiveTogether(slots[i], slots[j]) || MeetOnUnrealDay(slots[i], slots[j])
    {
      ClashIff(slots[i], slots[j]);
    }
  }

  /**
   * The check agrees with the evaluation - slots with proper times are refused exactly when two of them are
   * active together - if and only if two are, or none meet on an unreal day.
   */
  lemma RefusalIsDeservedIff(slots: seq<Slot>)
    requires |slots| > 1 && (forall i :: 0 <= i < |slots| ==> ProperTimes(slots[i]))
    ensures (Acceptable(slots) <==> NeverTwoActive(slots)) <==> !NeverTwoActive(slots) || NoneMeetOnUnrealDay(slots)
  {
    hide Acceptable, TimesFine, NeverTwoActive, NoneMeetOnUnrealDay;
    AcceptedIff(slots);
  }

  /** With days from 1 to 7 only, the check agrees with the evaluation. */
  lemma AcceptedIffNeverTwoActive(slots: seq<Slot>)
    requires RealDays(slots) && |slots| > 1
    ensures Acceptable(slots) <==> (forall i :: 0 <= i < |slots| ==> ProperTimes(slots[i])) && NeverTwoActive(slots)
  {
    hide Acceptable, TimesFine, NeverTwoActive;
    AcceptedIff(slots);
    forall i, j | 0 <= i < j < |slots| ensures !MeetOnUnrealDay(slots[i], slots[j]) {
      forall d | d in DaysOf(slots[i]) ensures 1 <= d <= 7 {
        DaysAreReal(slots, i, d);
      }
    }
  }

  /**
   * An overlap error names two slots and all their common days; at one and the same minute both are active
   * on every real one of these days, so they are active together exactly when one of the days is real.
   */
  lemma OverlapErrorIsReal(slots: seq<Slot>, e: SlotError) returns (minute: int)
    requires e.Overlap? && IsFirstError(slots, e)
    ensures 0 <= minute < DAY && e.days != []
    ensures forall day :: day in e.days && 1 <= day <= 7 ==>
              Active(slots[e.first], day, minute) && Active(slots[e.second], day, minute)
    ensures ActiveTogether(slots[e.first], slots[e.second]) <==> exists day :: day in e.days && 1 <= day <= 7
  {
    hide Active, InSlot, DaysOf, FaultOf;
    var a, b := slots[e.first], slots[e.second];
    minute :| 0 <= minute < DAY && InSlot(a, minute) && InSlot(b, minute);
    CommonDaysAreShared(DaysOf(a), DaysOf(b));
    CommonDaysMean(a, b);
    forall day | day in e.days && 1 <= day <= 7 ensures Active(a, day, minute) && Active(b, day, minute) {
      ActiveMeans(a, day, minute);
      ActiveMeans(b, day, minute);
    }
    if ActiveTogether(a, b) {
      var day, m :| 1 <= day <= 7 && 0 <= m < DAY && Active(a, day, m) && Active(b, day, m);
      ActiveMeans(a, day, m);
      ActiveMeans(b, day, m);
      assert day in e.days;
    }
  }

  /** With accepted slots, a custom price outside weekends is that of the one active slot, if there is one. */
  lemma AcceptedSlotsDecideAlone(p: Price, t: Moment, discount: real, i: nat)
    requires IsDiscount(discount) && ValidMoment(t) && !(p.weekendAllDay && IsWeekend(t))
    requires Acceptable(p.slots) && i < |p.slots| && Active(p.slots[i], IsoDay(t), t.minute)
    ensures Custom(p, t, discount) == OffPeak(true, SlotDiscount(p.slots[i], discount))
  {
    hide Active, FaultOf, InSlot, DaysOf, SlotDiscount;
    BestIsLeast(p.slots, IsoDay(t), t.minute, discount, FULL_PRICE);
    SlotDiscountIsProper(p.slots[i], discount);
    forall j | 0 <= j < |p.slots| && Active(p.slots[j], IsoDay(t), t.minute) ensures j == i {
      if j != i {
        AcceptedNeverTwoActive(p.slots, i, j, IsoDay(t), t.minute);
      }
    }
  }

  lemma SlotDiscountIsProper(slot: Slot, discount: real)
    requires IsDiscount(discount)
    ensures IsDiscount(SlotDiscount(slot, discount))
  {
  }

  /** Outside 1 to 7 the check is stricter than it need be: slots for a day that never comes are refused, never being active. */
  lemma UnrealDayIsRefused(a: Slot, b: Slot, day: int)
    requires a.days == b.days == [day] && !(1 <= day <= 7) && ShareMinute(a, b)
    ensures !Acceptable([a, b])
    ensures forall d, m :: 1 <= d <= 7 ==> !Active(a, d, m) && !Active(b, d, m)
  {
    hide InWindow, InSlot, FaultOf;
    var slots := [a, b];
    assert day in DaysOf(slots[0]) && day in DaysOf(slots[1]);
    assert Clash(slots[0], slots[1]);
  }
}

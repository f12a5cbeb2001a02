/** When a price is discounted and what it comes to, in numbers (internal/billing/engine.go). */
module OffPeakTimes {
  import opened Common
  import opened Text
  import opened Billing

  // ---- The clock ----

  predicate IsMinute(m: int) { 0 <= m < 1440 }

  /** On a clock that starts over every day a window holds the minutes less than its length behind its start. */
  lemma WindowIsCircular(start: int, end: int, minute: int)
    requires IsMinute(start) && IsMinute(end) && IsMinute(minute)
    ensures InWindow(start, end, minute) <==> (minute - start) % 1440 < (end - start) % 1440
  {
    Wraps(minute - start);
    Wraps(end - start);
  }

  lemma Wraps(d: int)
    requires -1440 < d < 1440
    ensures d % 1440 == if d < 0 then d + 1440 else d
  {
  }

  predicate IsDigit(c: char) { c in "0123456789" }

  function Digit(c: char): int
    requires IsDigit(c)
  {
    c as int - '0' as int
  }

  /** A text is cut at its first colon, unless it has none or the rest has another. */
  lemma MinutesAt(s: string, a: string, b: string)
    ensures IndexOf(TrimSpace(s), ":") < 0 ==> Minutes(s) == 0
    ensures TrimSpace(s) == a + ":" + b && IndexOf(TrimSpace(s), ":") == |a| ==>
              Minutes(s) == if IndexOf(b, ":") >= 0 then 0 else Atoi(a) * 60 + Atoi(b)
  {
    hide IndexOf, TrimSpace, Atoi;
    var t := a + ":" + b;
    assert t[..|a|] == a && t[|a| + 1..] == b;
  }

  /** A clock text of two digits, a colon and two digits is its hours and minutes. */
  lemma ClockIsRead(h1: char, h2: char, m1: char, m2: char)
    requires IsDigit(h1) && IsDigit(h2) && IsDigit(m1) && IsDigit(m2)
    ensures Minutes([h1, h2, ':', m1, m2]) == (Digit(h1) * 10 + Digit(h2)) * 60 + Digit(m1) * 10 + Digit(m2)
  {
    hide IndexOf, TrimSpace, Atoi, Minutes, Digit, IsSpace;
    var t := [h1, h2, ':', m1, m2];
    assert !IsSpace(h1) && !IsSpace(m2) by { DigitIsNoSpace(h1); DigitIsNoSpace(m2); }
    assert TrimSpace(t) == t;
    assert t == [h1, h2] + ":" + [m1, m2] == [h1, h2, ':'] + [m1, m2];
    ColonIsFound(h1, h2, [m1, m2]);
    NoColon(m1, m2);
    MinutesAt(t, [h1, h2], [m1, m2]);
    TwoDigits(h1, h2);
    TwoDigits(m1, m2);
  }

  lemma DigitIsNoSpace(c: char)
    requires IsDigit(c)
    ensures !IsSpace(c)
  {
  }

  lemma ColonIsFound(a: char, b: char, rest: string)
    requires IsDigit(a) && IsDigit(b)
    ensures IndexOf([a, b, ':'] + rest, ":") == 2
  {
    var s := [a, b, ':'] + rest;
    var t := [b, ':'] + rest;
    var u := [':'] + rest;
    assert s[1..] == t && t[1..] == u;
    assert ":" <= u && s[0] == a && t[0] == b;
    assert IndexOf(u, ":") == 0;
    assert IndexOf(t, ":") == 1;
  }

  lemma NoColon(a: char, b: char)
    requires IsDigit(a) && IsDigit(b)
    ensures IndexOf([a, b], ":") == -1
  {
    var s, t := [a, b], [b];
    assert s[1..] == t && t[1..] == "" && s[0] == a && t[0] == b;
    assert IndexOf("", ":") == -1;
    assert IndexOf(t, ":") == -1;
  }

  lemma TwoDigits(a: char, b: char)
    requires IsDigit(a) && IsDigit(b)
    ensures Atoi([a, b]) == Digit(a) * 10 + Digit(b)
  {
    var s := [a, b];
    assert s[..1] == [a] && [a][..0] == "";
    assert DigitsValue("") == 0;
    assert DigitsValue([a]) == Digit(a);
    assert AllDigits(s);
  }

  predicate Digits(s: string) { s != "" && forall i :: 0 <= i < |s| ==> IsDigit(s[i]) }

  /** Numbers are read in tens, with a sign if there is one, and anything else is zero. */
  lemma NumbersAreRead(s: string, c: char)
    requires IsDigit(c)
    ensures DigitsValue("") == 0 && DigitsValue(s + [c]) == 10 * DigitsValue(s) + Digit(c)
    ensures Digits(s) ==> Atoi(s) == Atoi("+" + s) == DigitsValue(s) && Atoi("-" + s) == -DigitsValue(s)
    ensures !Digits(s) && !(s != "" && s[0] in "+-" && Digits(s[1..])) ==> Atoi(s) == 0
  {
    assert (s + [c])[..|s|] == s;
    assert ("+" + s)[1..] == s && ("-" + s)[1..] == s && ("+" + s)[0] == '+' && ("-" + s)[0] == '-';
    DigitsAreAllDigits(s);
    SignIsNoDigit(s);
    if s != "" {
      DigitsAreAllDigits(s[1..]);
    }
  }

  lemma DigitsAreAllDigits(s: string)
    ensures Digits(s) <==> AllDigits(s)
  {
    assert forall c :: IsDigit(c) <==> '0' <= c <= '9';
  }

  lemma SignIsNoDigit(s: string)
    ensures !AllDigits("+" + s) && !AllDigits("-" + s)
  {
    assert ("+" + s)[0] == '+' && ("-" + s)[0] == '-';
  }

  /** A text without a colon, or with a second one, is midnight. */
  lemma NoClockIsMidnight(s: string, a: string, b: string)
    ensures ':' !in TrimSpace(s) ==> Minutes(s) == 0
    ensures TrimSpace(s) == a + ":" + b && ':' !in a && ':' in b ==> Minutes(s) == 0
  {
    hide IndexOf, TrimSpace, Atoi, Minutes;
    MinutesAt(s, a, b);
    if ':' !in TrimSpace(s) {
      NoneIsFound(TrimSpace(s));
    }
    if ':' !in a && ':' in b {
      FirstColon(a, b);
      var k :| 0 <= k < |b| && b[k] == ':';
      SomeColon(b, k);
    }
  }

  lemma {:induction false} NoneIsFound(s: string)
    requires ':' !in s
    ensures IndexOf(s, ":") == -1
  {
    if s != "" {
      assert s[0] != ':';
      NoneIsFound(s[1..]);
    }
  }

  lemma {:induction false} FirstColon(a: string, b: string)
    requires ':' !in a
    ensures IndexOf(a + ":" + b, ":") == |a|
  {
    var s := a + ":" + b;
    if a == "" {
      assert ":" <= s;
    } else {
      assert s[0] == a[0] && s[1..] == a[1..] + ":" + b;
      FirstColon(a[1..], b);
    }
  }

  lemma {:induction false} SomeColon(s: string, k: nat)
    requires k < |s| && s[k] == ':'
    ensures IndexOf(s, ":") >= 0
  {
    if k == 0 {
      assert ":" <= s;
    } else {
      SomeColon(s[1..], k - 1);
    }
  }

  // ---- Which moments are off-peak ----

  /** A discount that is none stands for one half. */
  function Base(p: Price): real {
    if 0.0 < p.offPeakDiscount && p.offPeakDiscount < 1.0 then p.offPeakDiscount else 0.5
  }

  function DiscountOf(p: Price, slot: Slot): real {
    if 0.0 < slot.discount && slot.discount < 1.0 then slot.discount else Base(p)
  }

  predicate Weekend(t: Moment) { t.weekday in {0, 6} }

  /** Monday is 1 and Sunday 7. */
  function DayNumber(t: Moment): int { if t.weekday == 0 then 7 else t.weekday }

  predicate CoversMinute(start: int, end: int, minute: int) {
    (start <= end && start <= minute < end) || (end < start && !(end <= minute < start))
  }

  predicate SlotHolds(slot: Slot, t: Moment) {
    (slot.days == [] || DayNumber(t) in slot.days) && CoversMinute(slot.start, slot.end, t.minute)
  }

  function Mode(p: Price): string { Lower(TrimSpace(p.offPeakMode)) }

  /** The window of the modes that have one. */
  function WindowOf(p: Price): (int, int) {
    var start, end := Minutes(p.offPeakStart), Minutes(p.offPeakEnd);
    if Mode(p) == "night" && start == 0 && end == 0 then (0, 8 * 60 + 30) else (start, end)
  }

  /** The price is discounted at this moment. */
  predicate IsOffPeakAt(p: Price, t: Moment) {
    && p.offPeakEnabled && Mode(p) != "none"
    && if Mode(p) == "custom" then
         (p.weekendAllDay && Weekend(t)) || exists i :: 0 <= i < |p.slots| && SlotHolds(p.slots[i], t)
       else CoversMinute(WindowOf(p).0, WindowOf(p).1, t.minute)
  }

  /** `d` is what the price is multiplied with: the least that applies. */
  predicate IsLeastDiscount(p: Price, t: Moment, d: real) {
    if Mode(p) != "custom" then d == Base(p)
    else
      && (p.weekendAllDay && Weekend(t) ==> d <= Base(p))
      && (forall i :: 0 <= i < |p.slots| && SlotHolds(p.slots[i], t) ==> d <= DiscountOf(p, p.slots[i]))
      && ((p.weekendAllDay && Weekend(t) && d == Base(p))
          || exists i :: 0 <= i < |p.slots| && SlotHolds(p.slots[i], t) && d == DiscountOf(p, p.slots[i]))
  }

  lemma SlotByFields(p: Price, slot: Slot, t: Moment)
    ensures Active(slot, IsoDay(t), t.minute) <==> SlotHolds(slot, t)
    ensures SlotDiscount(slot, BaseDiscount(p)) == DiscountOf(p, slot)
  {
  }

  predicate SlotsSay(p: Price, t: Moment, n: nat, r: OffPeak) {
    && n <= |p.slots|
    && (r.matched <==> (p.weekendAllDay && Weekend(t)) || exists i :: 0 <= i < n && SlotHolds(p.slots[i], t))
    && (p.weekendAllDay && Weekend(t) ==> r.discount <= Base(p))
    && (forall i :: 0 <= i < n && SlotHolds(p.slots[i], t) ==> r.discount <= DiscountOf(p, p.slots[i]))
    && (r.matched ==>
          (p.weekendAllDay && Weekend(t) && r.discount == Base(p))
          || exists i :: 0 <= i < n && SlotHolds(p.slots[i], t) && r.discount == DiscountOf(p, p.slots[i]))
    && (!r.matched ==> r.discount == 1.0)
  }

  lemma DiscountsAreUnderOne(p: Price)
    ensures 0.0 < Base(p) < 1.0 && forall slot :: 0.0 < DiscountOf(p, slot) < 1.0
  {
  }

  lemma {:induction false} SlotsInTurn(p: Price, t: Moment, n: nat)
    requires n <= |p.slots|
    ensures var start := if p.weekendAllDay && IsWeekend(t) then OffPeak(true, BaseDiscount(p)) else FULL_PRICE;
            SlotsSay(p, t, n, Best(p.slots[..n], IsoDay(t), t.minute, BaseDiscount(p), start))
  {
    DiscountsAreUnderOne(p);
    hide DiscountOf, SlotHolds, Active, SlotDiscount;
    if n > 0 {
      SlotsInTurn(p, t, n - 1);
      SlotByFields(p, p.slots[n - 1], t);
      assert p.slots[..n][..n - 1] == p.slots[..n - 1];
    }
  }

  /** Exactly when a price is discounted, and by what: the least discount that applies, the full price otherwise. */
  lemma OffPeakIff(p: Price, t: Moment)
    ensures Evaluated(p, t).matched <==> IsOffPeakAt(p, t)
    ensures if Evaluated(p, t).matched then IsLeastDiscount(p, t, Evaluated(p, t).discount) else Evaluated(p, t).discount == 1.0
  {
    SlotsInTurn(p, t, |p.slots|);
    assert p.slots[..|p.slots|] == p.slots;
    hide Minutes, Best, SlotHolds, DiscountOf;
  }

  // ---- What it comes to ----

  /** In millionths: tokens at their own rates, and at list price, where a cache rate above the prompt's counts as it is. */
  lemma AmountsInNumbers(p: Price, uncached: int, cached: int, completion: int)
    ensures TokenCost(p, uncached, cached, completion) * 1000000.0
         == uncached as real * p.prompt + cached as real * p.cacheRead + completion as real * p.completion
    ensures (ListPrice(p, uncached, cached, completion) - TokenCost(p, uncached, cached, completion) - p.fixed) * 1000000.0
         == if p.prompt > p.cacheRead then cached as real * (p.prompt - p.cacheRead) else 0.0
  {
    CacheSaving(cached, p.prompt, p.cacheRead);
    assert cached as real * (p.prompt - p.cacheRead) == cached as real * p.prompt - cached as real * p.cacheRead;
  }

  /** Rounding is to the nearest, halves away from zero. */
  lemma HalvesRoundAway(x: real, n: nat)
    ensures Round(-x) == -Round(x) && Round(n as real + 0.5) == n + 1 && Round(n as real) == n
  {
  }
}

/** Prices, off-peak windows and the cost of a request (internal/billing/engine.go), on exact reals. */
module Billing {
  import opened Common
  import opened Text

  const DAY: int := 1440

  /**
   * `start` and `end` are minutes of the day, as `Minutes` reads the stored clock times.
   * `days` empty means every day; 1 is Monday and 7 Sunday.
   */
  datatype Slot = Slot(start: int, end: int, discount: real, name: string, days: seq<int>)

  datatype Price = Price(
    prompt: real, completion: real, cacheRead: real, fixed: real,
    offPeakEnabled: bool, offPeakMode: string, offPeakStart: string, offPeakEnd: string,
    offPeakDiscount: real, weekendAllDay: bool, slots: seq<Slot>)

  /** The local weekday, 0 being Sunday, and the minute of the day. */
  datatype Moment = Moment(weekday: int, minute: int)

  predicate ValidMoment(t: Moment) { 0 <= t.weekday <= 6 && 0 <= t.minute < DAY }

  function IsoDay(t: Moment): int { if t.weekday == 0 then 7 else t.weekday }

  predicate IsWeekend(t: Moment) { t.weekday == 6 || t.weekday == 0 }

  // ---- Clock times ----

  function DigitsValue(s: string): int {
    if s == "" then 0 else 10 * DigitsValue(s[..|s| - 1]) + (s[|s| - 1] as int - '0' as int)
  }

  predicate AllDigits(s: string) { s != "" && forall i :: 0 <= i < |s| ==> '0' <= s[i] <= '9' }

  /** Go's Atoi with its error dropped. */
  function Atoi(s: string): int {
    if AllDigits(s) then DigitsValue(s)
    else if s != "" && s[0] == '+' && AllDigits(s[1..]) then DigitsValue(s[1..])
    else if s != "" && s[0] == '-' && AllDigits(s[1..]) then -DigitsValue(s[1..])
    else 0
  }

  /** Minutes of a time like "08:30"; anything else counts as midnight. */
  function Minutes(s: string): int {
    var t := TrimSpace(s);
    var i := IndexOf(t, ":");
    if i < 0 || IndexOf(t[i + 1..], ":") >= 0 then 0 else Atoi(t[..i]) * 60 + Atoi(t[i + 1..])
  }

  /** Whether a window that may pass midnight contains the minute. */
  predicate InWindow(start: int, end: int, minute: int) {
    if start <= end then start <= minute < end else minute >= start || minute < end
  }

  // ---- Off-peak evaluation ----

  datatype OffPeak = OffPeak(matched: bool, discount: real)

  const FULL_PRICE := OffPeak(false, 1.0)

  predicate IsDiscount(d: real) { 0.0 < d < 1.0 }

  function SlotDiscount(slot: Slot, discount: real): real {
    if IsDiscount(slot.discount) then slot.discount else discount
  }

  predicate Active(slot: Slot, day: int, minute: int) {
    (slot.days == [] || day in slot.days) && InWindow(slot.start, slot.end, minute)
  }

  /** The best discount among `best` and the active slots. */
  function Best(slots: seq<Slot>, day: int, minute: int, discount: real, best: OffPeak): OffPeak {
    if slots == [] then best
    else
      var before := Best(slots[..|slots| - 1], day, minute, discount, best);
      var slot := slots[|slots| - 1];
      if !Active(slot, day, minute) then before
      else
        var d := SlotDiscount(slot, discount);
        OffPeak(true, if d < before.discount then d else before.discount)
  }

  function Custom(p: Price, t: Moment, discount: real): OffPeak {
    var start := if p.weekendAllDay && IsWeekend(t) then OffPeak(true, discount) else FULL_PRICE;
    Best(p.slots, IsoDay(t), t.minute, discount, start)
  }

  function Windowed(start: int, end: int, t: Moment, discount: real): OffPeak {
    if InWindow(start, end, t.minute) then OffPeak(true, discount) else FULL_PRICE
  }

  function Night(p: Price, t: Moment, discount: real): OffPeak {
    var start, end := Minutes(p.offPeakStart), Minutes(p.offPeakEnd);
    Windowed(start, if start == 0 && end == 0 then 510 else end, t, discount)
  }

  function BaseDiscount(p: Price): (d: real)
    ensures IsDiscount(d)
  {
    if IsDiscount(p.offPeakDiscount) then p.offPeakDiscount else 0.5
  }

  function Evaluated(p: Price, t: Moment): OffPeak {
    if !p.offPeakEnabled then FULL_PRICE
    else
      var mode := Lower(TrimSpace(p.offPeakMode));
      if mode == "night" then Night(p, t, BaseDiscount(p))
      else if mode == "custom" then Custom(p, t, BaseDiscount(p))
      else if mode == "none" then FULL_PRICE
      else Windowed(Minutes(p.offPeakStart), Minutes(p.offPeakEnd), t, BaseDiscount(p))
  }

  method EvaluateCustom(p: Price, t: Moment, discount: real) returns (r: OffPeak)
    ensures r == Custom(p, t, discount)
  {
    hide Minutes, InWindow;
    var bestDiscount := 1.0;
    var matched := false;
    if p.weekendAllDay && IsWeekend(t) {
      matched := true;
      bestDiscount := discount;
    }
    ghost var start := OffPeak(matched, bestDiscount);
    for i := 0 to |p.slots|
      invariant OffPeak(matched, bestDiscount) == Best(p.slots[..i], IsoDay(t), t.minute, discount, start)
      invariant matched || bestDiscount == 1.0
    {
      assert p.slots[..i + 1][..i] == p.slots[..i];
      var slot := p.slots[i];
      if |slot.days| > 0 {
        var dayMatch := ContainsDay(slot.days, IsoDay(t));
        if !dayMatch {
          continue;
        }
      }
      var d := slot.discount;
      if d <= 0.0 || d >= 1.0 {
        d := discount;
      }
      if InWindow(slot.start, slot.end, t.minute) {
        matched := true;
        if d < bestDiscount {
          bestDiscount := d;
        }
      }
    }
    assert p.slots[..|p.slots|] == p.slots;
    r := if matched then OffPeak(true, bestDiscount) else FULL_PRICE;
  }

  method ContainsDay(days: seq<int>, day: int) returns (found: bool)
    ensures found == (day in days)
  {
    for i := 0 to |days|
      invariant day !in days[..i]
    {
      if days[i] == day {
        return true;
      }
    }
    return false;
  }

  /** `p` is None where the engine has no price. */
  method IsOffPeak(p: Option<Price>, t: Moment) returns (r: OffPeak)
    ensures r == if p.None? then FULL_PRICE else Evaluated(p.value, t)
  {
    hide Minutes, InWindow, Lower, TrimSpace;
    if p.None? || !p.value.offPeakEnabled {
      return FULL_PRICE;
    }
    var discount := p.value.offPeakDiscount;
    if discount <= 0.0 || discount >= 1.0 {
      discount := 0.5;
    }
    var mode := Lower(TrimSpace(p.value.offPeakMode));
    if mode == "night" {
      r := Night(p.value, t, discount);
    } else if mode == "custom" {
      r := EvaluateCustom(p.value, t, discount);
    } else if mode == "none" {
      r := FULL_PRICE;
    } else {
      r := Windowed(Minutes(p.value.offPeakStart), Minutes(p.value.offPeakEnd), t, discount);
    }
  }

  // ---- Cost ----

  datatype Cost = Cost(cost: real, totalSaved: real, cacheSaved: real, offPeak: bool, discount: real)

  const NO_COST := Cost(0.0, 0.0, 0.0, false, 1.0)

  /** Go's math.Round: to the nearest integer, halves away from zero. */
  function Round(x: real): int {
    if x >= 0.0 then (x + 0.5).Floor else -((-x + 0.5).Floor)
  }

  const SCALE: real := 100000000.0

  function RoundPrecision(val: real): real { Round(val * SCALE) as real / SCALE }

  function PerMillion(tokens: int, price: real): real { tokens as real * price / 1000000.0 }

  /** What a request costs at full price: the list price of its tokens, the cheaper cache rate never counting. */
  function ListPrice(p: Price, uncached: int, cached: int, completion: int): real {
    PerMillion(uncached, p.prompt)
    + PerMillion(cached, if p.prompt > p.cacheRead then p.prompt else p.cacheRead)
    + PerMillion(completion, p.completion)
    + p.fixed
  }

  /** The tokens at their own rates, before any time-of-use discount. */
  function TokenCost(p: Price, uncached: int, cached: int, completion: int): real {
    PerMillion(uncached, p.prompt) + PerMillion(cached, p.cacheRead) + PerMillion(completion, p.completion)
  }

  /** The amounts before rounding. */
  method ExactCost(p: Price, uncached: int, cached: int, completion: int, offPeak: OffPeak) returns (r: Cost)
    requires 0 <= uncached && 0 <= cached && 0 <= completion
    ensures r.cost + r.totalSaved == ListPrice(p, uncached, cached, completion)
    ensures r.cacheSaved == ListPrice(p, uncached, cached, completion) - p.fixed - TokenCost(p, uncached, cached, completion)
    ensures r.offPeak == offPeak.matched && r.discount == if offPeak.matched then offPeak.discount else 1.0
    ensures r.cost == TokenCost(p, uncached, cached, completion) * r.discount + p.fixed
  {
    var promptCost := PerMillion(uncached, p.prompt);
    var cachedCost := PerMillion(cached, p.cacheRead);
    var compCost := PerMillion(completion, p.completion);
    var tokenCost := promptCost + cachedCost + compCost;
    var cacheSaved := 0.0;
    if cached > 0 && p.prompt > p.cacheRead {
      cacheSaved := PerMillion(cached, p.prompt - p.cacheRead);
    }
    CacheSaving(cached, p.prompt, p.cacheRead);
    if offPeak.matched {
      var discounted := tokenCost * offPeak.discount;
      var offPeakSaved := tokenCost - discounted;
      r := Cost(discounted + p.fixed, cacheSaved + offPeakSaved, cacheSaved, true, offPeak.discount);
    } else {
      assert tokenCost * 1.0 == tokenCost;
      r := Cost(tokenCost + p.fixed, cacheSaved, cacheSaved, false, 1.0);
    }
  }

  lemma CacheSaving(cached: int, prompt: real, cacheRead: real)
    ensures PerMillion(cached, prompt - cacheRead) == PerMillion(cached, prompt) - PerMillion(cached, cacheRead)
    ensures cached == 0 ==> PerMillion(cached, prompt) == 0.0 && PerMillion(cached, cacheRead) == 0.0
  {
    var n := cached as real;
    assert n * (prompt - cacheRead) == n * prompt - n * cacheRead;
  }

  /** Within half a unit of the eighth decimal place. */
  predicate Near(a: real, b: real) { -0.000000005 <= a - b <= 0.000000005 }

  /** Rounding to 8 places moves a value by at most half a unit of the last place. */
  lemma RoundingError(val: real)
    ensures Near(RoundPrecision(val), val)
  {
    var x := val * SCALE;
    assert x - 0.5 <= Round(x) as real <= x + 0.5;
  }

  /** Rounding a rounded value changes nothing. */
  lemma RoundingIsIdempotent(val: real)
    ensures RoundPrecision(RoundPrecision(val)) == RoundPrecision(val)
  {
    var n := Round(val * SCALE);
    assert (n as real / SCALE) * SCALE == n as real;
    assert Round(n as real) == n;
  }

  /**
   * Token counts are clamped first, the cached ones to the prompt's. Then cost and saving together
   * are the list price within 1e-8, whatever the strategy and the time.
   */
  method CalculateCost(price: Option<Price>, promptTokens: int, completionTokens: int, cachedTokens: int, t: Moment)
    returns (r: Cost)
    ensures price.None? ==> r == NO_COST
    ensures price.Some? ==>
      var prompt := if promptTokens < 0 then 0 else promptTokens;
      var cached := if cachedTokens < 0 then 0 else if cachedTokens > prompt then prompt else cachedTokens;
      var completion := if completionTokens < 0 then 0 else completionTokens;
      var list := ListPrice(price.value, prompt - cached, cached, completion);
      && -0.00000001 <= r.cost + r.totalSaved - list <= 0.00000001
      && r.offPeak == Evaluated(price.value, t).matched
      && r.discount == (if r.offPeak then Evaluated(price.value, t).discount else 1.0)
      && Near(r.cost, TokenCost(price.value, prompt - cached, cached, completion) * r.discount + price.value.fixed)
      && Near(r.totalSaved,
              list - (TokenCost(price.value, prompt - cached, cached, completion) * r.discount + price.value.fixed))
      && Near(r.cacheSaved, list - price.value.fixed - TokenCost(price.value, prompt - cached, cached, completion))
  {
    hide Evaluated, ListPrice, RoundPrecision, TokenCost;
    if price.None? {
      return NO_COST;
    }
    var p := price.value;
    var prompt := if promptTokens < 0 then 0 else promptTokens;
    var completion := if completionTokens < 0 then 0 else completionTokens;
    var cached := cachedTokens;
    if cached < 0 {
      cached := 0;
    }
    if cached > prompt {
      cached := prompt;
    }
    var offPeak := IsOffPeak(Some(p), t);
    var exact := ExactCost(p, prompt - cached, cached, completion, offPeak);
    RoundingError(exact.cost);
    RoundingError(exact.totalSaved);
    RoundingError(exact.cacheSaved);
    r := Cost(RoundPrecision(exact.cost), RoundPrecision(exact.totalSaved), RoundPrecision(exact.cacheSaved),
              exact.offPeak, exact.discount);
  }

  // ---- What the evaluation means ----

  /** The result matches exactly when it started matched or a slot is active, and is the least discount of those. */
  lemma {:induction false} BestIsLeast(slots: seq<Slot>, day: int, minute: int, discount: real, best: OffPeak)
    ensures var r := Best(slots, day, minute, discount, best);
            && (r.matched <==> best.matched || exists i :: 0 <= i < |slots| && Active(slots[i], day, minute))
            && r.discount <= best.discount
            && (forall i :: 0 <= i < |slots| && Active(slots[i], day, minute) ==> r.discount <= SlotDiscount(slots[i], discount))
            && (r.discount == best.discount
                || exists i :: 0 <= i < |slots| && Active(slots[i], day, minute) && r.discount == SlotDiscount(slots[i], discount))
  {
    hide Active, SlotDiscount;
    if slots != [] {
      var front := slots[..|slots| - 1];
      BestIsLeast(front, day, minute, discount, best);
      assert forall i :: 0 <= i < |front| ==> front[i] == slots[i];
    }
  }

  lemma {:induction false} BestIsADiscount(slots: seq<Slot>, day: int, minute: int, discount: real, best: OffPeak)
    requires IsDiscount(discount) && (if best.matched then IsDiscount(best.discount) else best == FULL_PRICE)
    ensures var r := Best(slots, day, minute, discount, best);
            if r.matched then IsDiscount(r.discount) else r == FULL_PRICE
  {
    if slots != [] {
      BestIsADiscount(slots[..|slots| - 1], day, minute, discount, best);
    }
  }

  /** In every mode and at every time, an off-peak result discounts strictly between 0 and 1, and any other is the full price. */
  lemma OffPeakDiscountIsProper(p: Price, t: Moment)
    ensures var r := Evaluated(p, t);
            if r.matched then IsDiscount(r.discount) else r == FULL_PRICE
  {
    hide Minutes, InWindow, Lower, TrimSpace;
    BestIsADiscount(p.slots, IsoDay(t), t.minute, BaseDiscount(p),
                    if p.weekendAllDay && IsWeekend(t) then OffPeak(true, BaseDiscount(p)) else FULL_PRICE);
  }
}

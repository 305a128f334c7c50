/**
  * The time-slot buttons of colab_app.py: a loop producing one slot every
  * 30 minutes from opening to closing time, each slot holding its `HH:MM`
  * value and a display text (12-hour with AM/PM at booking, `HH:MM` when a
  * reservation's time is modified), and the lunch and dinner filters.
  */
module Slots {
  import opened Wrappers
  import opened Text
  import opened Validators

  // ---------------------------------------------------------------------
  // 12-hour display

  /** `"PM" if hour >= 12 else "AM"` */
  function Meridiem(hour: int): string { if hour >= 12 then "PM" else "AM" }

  /** `hour if hour <= 12 else hour - 12`, then `12 if hour == 0`. */
  function Hour12(hour: int): int {
    var h := if hour <= 12 then hour else hour - 12;
    if h == 0 then 12 else h
  }

  /** Reading a 12-hour clock back: the inverse of `Hour12` paired with `Meridiem`. */
  function To24(h12: int, meridiem: string): int {
    if meridiem == "PM" then (if h12 == 12 then 12 else h12 + 12)
    else (if h12 == 12 then 0 else h12)
  }

  /** On a whole day the 12-hour form is in 1..12 and determines the hour together with AM/PM. */
  lemma TwelveHourRoundTrip(hour: int)
    requires 0 <= hour <= 23
    ensures 1 <= Hour12(hour) <= 12
    ensures Meridiem(hour) == "PM" <==> hour >= 12
    ensures hour == 0 ==> Hour12(hour) == 12
    ensures hour > 12 ==> Hour12(hour) == hour - 12
    ensures To24(Hour12(hour), Meridiem(hour)) == hour
  {
  }

  /** `f"{hour_12}:{minute:02d} {ampm}"` */
  function TwelveHourText(c: Clock): (s: string)
    requires ValidClock(c)
  {
    NatToDigits(Hour12(c.hour)) + ":" + Pad2(c.minute) + " " + Meridiem(c.hour)
  }

  /** The 12-hour text is a number, a colon, two minute digits, a space and AM or PM. */
  lemma TwelveHourTextShape(c: Clock)
    requires ValidClock(c)
    ensures var s := TwelveHourText(c); var n := |NatToDigits(Hour12(c.hour))|;
            && 1 <= n <= 2 && |s| == n + 6 && s[n] == ':' && s[n + 3] == ' '
            && DigitsValue(s[..n]) == Hour12(c.hour)
            && DigitsValue(s[n + 1..n + 3]) == c.minute
            && To24(DigitsValue(s[..n]), s[n + 4..]) == c.hour
  {
    var h := NatToDigits(Hour12(c.hour));
    NatToDigitsRoundTrip(Hour12(c.hour));
    Pad2Digits(c.minute);
    var s := TwelveHourText(c);
    assert s[..|h|] == h;
    assert s[|h| + 1..|h| + 3] == Pad2(c.minute);
    assert s[|h| + 4..] == Meridiem(c.hour);
  }

  // ---------------------------------------------------------------------
  // Slots

  datatype Slot = Slot(value: string, display: string)

  /** The booking step shows 12-hour text; the modify-time step shows the `HH:MM` value itself. */
  datatype DisplayStyle = TwelveHour | TwentyFourHour

  function Display(c: Clock, style: DisplayStyle): string
    requires ValidClock(c)
  {
    match style
    case TwelveHour => TwelveHourText(c)
    case TwentyFourHour => FormatClock(c)
  }

  function SlotOf(c: Clock, style: DisplayStyle): Slot
    requires ValidClock(c)
  {
    Slot(FormatClock(c), Display(c, style))
  }

  /** How many slots the loop produces: 11:00 to 22:00 every 30 minutes. */
  const SlotCount: nat := 23

  /** The `k`-th slot time: 11:00 plus `k` half hours. */
  function SlotClock(k: nat): (c: Clock)
    ensures Minutes(c) == OpeningMinutes + 30 * k
  {
    Clock(11 + k / 2, if k % 2 == 0 then 0 else 30)
  }

  lemma SlotClockValid(k: nat)
    requires k < SlotCount
    ensures ValidClock(SlotClock(k)) && WithinOpeningHours(SlotClock(k))
  {
  }

  /** The first `n` slots, as a definition by index. */
  function SlotsUpTo(n: nat, style: DisplayStyle): (r: seq<Slot>)
    requires n <= SlotCount
    ensures |r| == n
  {
    seq(n, k requires 0 <= k < n => SlotClockValid(k); SlotOf(SlotClock(k), style))
  }

  /** The `k`-th generated slot is the slot of 11:00 plus `k` half hours. */
  lemma SlotsUpToAt(n: nat, style: DisplayStyle, k: nat)
    requires k < n <= SlotCount
    ensures ValidClock(SlotClock(k)) && SlotsUpTo(n, style)[k] == SlotOf(SlotClock(k), style)
  {
    SlotClockValid(k);
  }

  /** The whole list the loop builds. */
  function AllSlots(style: DisplayStyle): seq<Slot> { SlotsUpTo(SlotCount, style) }

  /**
    * colab_app.py's slot loop: start at opening time, append the slot, step
    * to the next half hour, and stop once past closing time.
    */
  method TimeSlots(style: DisplayStyle) returns (slots: seq<Slot>)
    ensures slots == AllSlots(style)
  {
    slots := [];
    var current := Clock(11, 0);
    ghost var k := 0;
    while Minutes(current) <= ClosingMinutes
      invariant k <= SlotCount && current == SlotClock(k)
      invariant slots == SlotsUpTo(k, style)
      decreases ClosingMinutes - Minutes(current)
    {
      var slot := SlotOf(current, style);
      AppendSlot(slots, k, current, slot, style);
      slots := slots + [slot];
      if current.minute == 30 {
        current := Clock(current.hour + 1, 0);
      } else {
        current := Clock(current.hour, 30);
      }
      k := k + 1;
    }
    PastClosing(k);
  }

  /** One pass of the loop body keeps the list equal to the first slots. */
  lemma AppendSlot(slots: seq<Slot>, k: nat, current: Clock, slot: Slot, style: DisplayStyle)
    requires k < SlotCount && current == SlotClock(k) && slots == SlotsUpTo(k, style)
    requires ValidClock(current) && slot == SlotOf(current, style)
    ensures k + 1 <= SlotCount && slots + [slot] == SlotsUpTo(k + 1, style)
    ensures current.minute == 30 ==> Clock(current.hour + 1, 0) == SlotClock(k + 1)
    ensures current.minute != 30 ==> Clock(current.hour, 30) == SlotClock(k + 1)
  {
    NextHalfHour(k);
    SlotsUpToSnoc(k, style);
  }

  /** The first `k + 1` slots are the first `k` followed by the `k`-th. */
  lemma SlotsUpToSnoc(k: nat, style: DisplayStyle)
    requires k < SlotCount
    ensures ValidClock(SlotClock(k))
    ensures SlotsUpTo(k, style) + [SlotOf(SlotClock(k), style)] == SlotsUpTo(k + 1, style)
  {
    SlotClockValid(k);
    var shorter, longer := SlotsUpTo(k, style) + [SlotOf(SlotClock(k), style)], SlotsUpTo(k + 1, style);
    forall i | 0 <= i < k + 1 ensures shorter[i] == longer[i] {
      SlotsUpToAt(k + 1, style, i);
      if i < k { SlotsUpToAt(k, style, i); }
    }
  }

  /** The loop stops exactly after the 23rd slot. */
  lemma PastClosing(k: nat)
    requires k <= SlotCount && Minutes(SlotClock(k)) > ClosingMinutes
    ensures k == SlotCount
  {
  }

  /** One step of the loop moves from the `k`-th slot time to the next one. */
  lemma NextHalfHour(k: nat)
    requires k < SlotCount
    ensures ValidClock(SlotClock(k)) && k + 1 <= SlotCount
    ensures SlotClock(k).minute == 30 ==> Clock(SlotClock(k).hour + 1, 0) == SlotClock(k + 1)
    ensures SlotClock(k).minute != 30 ==> Clock(SlotClock(k).hour, 30) == SlotClock(k + 1)
  {
  }

  /**
    * The loop's promise about its `k`-th slot: it is 11:00 plus `k` half
    * hours, inside opening hours, and its value is the zero-padded `HH:MM`
    * that `strptime('%H:%M')` reads back as that time.
    */
  lemma AllSlotsAt(style: DisplayStyle, k: nat)
    requires k < SlotCount
    ensures |AllSlots(style)| == SlotCount
    ensures Minutes(SlotClock(k)) == OpeningMinutes + 30 * k
    ensures ValidClock(SlotClock(k)) && WithinOpeningHours(SlotClock(k))
    ensures AllSlots(style)[k] == SlotOf(SlotClock(k), style)
    ensures AllSlots(style)[k].value == FormatClock(SlotClock(k))
    ensures StrptimeClock(AllSlots(style)[k].value) == Some(SlotClock(k))
  {
    SlotsUpToAt(SlotCount, style, k);
    StrptimeClockAcceptsPaddedForm(SlotClock(k));
  }

  /** The first slot is "11:00" and the last "22:00". */
  lemma AllSlotsEnds(style: DisplayStyle)
    ensures AllSlots(style)[0].value == "11:00"
    ensures AllSlots(style)[SlotCount - 1].value == "22:00"
  {
    SlotsUpToAt(SlotCount, style, 0);
    SlotsUpToAt(SlotCount, style, SlotCount - 1);
    assert SlotClock(0) == Clock(11, 0) && SlotClock(SlotCount - 1) == Clock(22, 0);
    OpeningAndClosingText();
  }

  lemma OpeningAndClosingText()
    ensures FormatClock(Clock(11, 0)) == "11:00" && FormatClock(Clock(22, 0)) == "22:00"
  {
    assert DigitChar(0) == '0' && DigitChar(1) == '1' && DigitChar(2) == '2';
  }

  /** Every half-hour inside opening hours has a slot. */
  lemma AllSlotsCoverOpeningHours(c: Clock)
    requires ValidClock(c) && WithinOpeningHours(c) && (c.minute == 0 || c.minute == 30)
    ensures exists k :: 0 <= k < SlotCount && SlotClock(k) == c
  {
    var k := 2 * (c.hour - 11) + c.minute / 30;
    assert SlotClock(k) == c;
  }

  /** The slot values are strictly increasing, both as times and as strings. */
  lemma AllSlotsIncreasing(style: DisplayStyle, i: nat, j: nat)
    requires i < j < SlotCount
    ensures Minutes(SlotClock(i)) < Minutes(SlotClock(j))
    ensures LexLe(AllSlots(style)[i].value, AllSlots(style)[j].value)
    ensures AllSlots(style)[i].value != AllSlots(style)[j].value
  {
    AllSlotsAt(style, i);
    AllSlotsAt(style, j);
    FormatClockOrder(SlotClock(i), SlotClock(j));
  }

  /** On zero-padded `HH:MM` strings the string order is the time order. */
  lemma FormatClockOrder(a: Clock, b: Clock)
    requires ValidClock(a) && ValidClock(b) && Minutes(a) < Minutes(b)
    ensures LexLe(FormatClock(a), FormatClock(b)) && FormatClock(a) != FormatClock(b)
  {
    var x, y := FormatClock(a), FormatClock(b);
    if a.hour == b.hour {
      Pad2Order(a.minute, b.minute);
      LexLeCommonPrefix(Pad2(a.hour) + ":", Pad2(a.minute), Pad2(b.minute));
      assert x == (Pad2(a.hour) + ":") + Pad2(a.minute) && y == (Pad2(a.hour) + ":") + Pad2(b.minute);
      assert x[3..] == Pad2(a.minute) && y[3..] == Pad2(b.minute);
    } else {
      Pad2Order(a.hour, b.hour);
      LexLeDifferentPrefix(Pad2(a.hour), Pad2(b.hour), ":" + Pad2(a.minute), ":" + Pad2(b.minute));
      assert x[..2] == Pad2(a.hour) && y[..2] == Pad2(b.hour);
    }
  }

  // ---------------------------------------------------------------------
  // Lunch and dinner tabs

  /** `int(slot["value"].split(":")[0])` for a slot value the loop made. */
  function SlotHour(s: Slot): int {
    match TypedClock(s.value)
    case Some(c) => c.hour
    case None => -1
  }

  /** `11 <= hour < 15`, the lunch tab. */
  predicate IsLunch(s: Slot) { 11 <= SlotHour(s) < 15 }

  /** `17 <= hour <= 22`, the dinner tab. */
  predicate IsDinner(s: Slot) { 17 <= SlotHour(s) <= 22 }

  /** `[slot for slot in xs if 11 <= hour < 15]`. */
  function FilterLunch(xs: seq<Slot>): (r: seq<Slot>)
    ensures forall s :: s in r <==> s in xs && IsLunch(s)
  {
    if xs == [] then [] else (if IsLunch(xs[0]) then [xs[0]] else []) + FilterLunch(xs[1..])
  }

  /** `[slot for slot in xs if 17 <= hour <= 22]`. */
  function FilterDinner(xs: seq<Slot>): (r: seq<Slot>)
    ensures forall s :: s in r <==> s in xs && IsDinner(s)
  {
    if xs == [] then [] else (if IsDinner(xs[0]) then [xs[0]] else []) + FilterDinner(xs[1..])
  }

  /** The lunch filter keeps each matching slot as often as the input holds it, and no other. */
  lemma {:induction false} FilterLunchCounts(xs: seq<Slot>)
    ensures forall s :: multiset(FilterLunch(xs))[s] == if IsLunch(s) then multiset(xs)[s] else 0
    decreases |xs|
  {
    if xs != [] {
      assert xs == [xs[0]] + xs[1..];
      FilterLunchCounts(xs[1..]);
    }
  }

  /** The lunch filter keeps the order of its input: filtering a concatenation filters each part. */
  lemma {:induction false} FilterLunchAppend(a: seq<Slot>, b: seq<Slot>)
    ensures FilterLunch(a + b) == FilterLunch(a) + FilterLunch(b)
    decreases |a|
  {
    if a == [] {
      assert a + b == b;
    } else {
      assert (a + b)[0] == a[0] && (a + b)[1..] == a[1..] + b;
      FilterLunchAppend(a[1..], b);
    }
  }

  /** The dinner filter keeps each matching slot as often as the input holds it, and no other. */
  lemma {:induction false} FilterDinnerCounts(xs: seq<Slot>)
    ensures forall s :: multiset(FilterDinner(xs))[s] == if IsDinner(s) then multiset(xs)[s] else 0
    decreases |xs|
  {
    if xs != [] {
      assert xs == [xs[0]] + xs[1..];
      FilterDinnerCounts(xs[1..]);
    }
  }

  /** The dinner filter keeps the order of its input in the same way. */
  lemma {:induction false} FilterDinnerAppend(a: seq<Slot>, b: seq<Slot>)
    ensures FilterDinner(a + b) == FilterDinner(a) + FilterDinner(b)
    decreases |a|
  {
    if a == [] {
      assert a + b == b;
    } else {
      assert (a + b)[0] == a[0] && (a + b)[1..] == a[1..] + b;
      FilterDinnerAppend(a[1..], b);
    }
  }

  /** The slot buttons shown at the booking time step: the lunch tab, then the dinner tab. */
  function BookingSlots(): seq<Slot> {
    FilterLunch(AllSlots(TwelveHour)) + FilterDinner(AllSlots(TwelveHour))
  }

  /** The booking screen shows a generated slot exactly when it falls in one of the two tabs. */
  lemma BookingSlotsMembers(s: Slot)
    ensures s in BookingSlots() <==> s in AllSlots(TwelveHour) && (IsLunch(s) || IsDinner(s))
  {
  }

  /**
    * A booking offers exactly the generated slots outside 15:00-16:30: the
    * afternoon slots the loop produces fall in neither tab.
    */
  lemma BookingSlotsSkipAfternoon(k: nat)
    requires k < SlotCount
    ensures AllSlots(TwelveHour)[k] in BookingSlots() <==> !(15 <= SlotClock(k).hour < 17)
  {
    var s := AllSlots(TwelveHour)[k];
    AllSlotsAt(TwelveHour, k);
    TypedClockAcceptsPaddedForm(SlotClock(k));
    assert SlotHour(s) == SlotClock(k).hour;
    BookingSlotsMembers(s);
  }

  /**
    * A slot the booking screen offers: one the loop generates, outside the
    * afternoon that neither tab shows.
    */
  predicate Offered(s: Slot) {
    exists k :: 0 <= k < SlotCount && s == SlotOf(SlotClock(k), TwelveHour) && !(15 <= SlotClock(k).hour < 17)
  }

  /** Every button of the two tabs is offered. */
  lemma BookingSlotIsOffered(s: Slot)
    requires s in BookingSlots()
    ensures Offered(s)
  {
    BookingSlotsMembers(s);
    var xs := AllSlots(TwelveHour);
    var k :| 0 <= k < |xs| && xs[k] == s;
    SlotsUpToAt(SlotCount, TwelveHour, k);
    BookingSlotsSkipAfternoon(k);
  }

  /** Every offered slot is a button of one of the two tabs. */
  lemma OfferedIsShown(s: Slot)
    requires Offered(s)
    ensures s in BookingSlots()
  {
    var k :| 0 <= k < SlotCount && s == SlotOf(SlotClock(k), TwelveHour) && !(15 <= SlotClock(k).hour < 17);
    SlotsUpToAt(SlotCount, TwelveHour, k);
    BookingSlotsSkipAfternoon(k);
  }

  /** `Offered` is exactly membership of the two tabs. */
  lemma OfferedIsBookingSlot(s: Slot)
    ensures Offered(s) <==> s in BookingSlots()
  {
    if s in BookingSlots() { BookingSlotIsOffered(s); }
    if Offered(s) { OfferedIsShown(s); }
  }

  /** The booking screen shows only generated slots. */
  lemma BookingSlotsAreGenerated(s: Slot)
    requires s in BookingSlots()
    ensures s in AllSlots(TwelveHour)
  {
    BookingSlotsMembers(s);
  }

  /** Every button on either screen is one of the generated slots, so its value is in opening hours. */
  lemma OfferedSlotIsOpen(s: Slot, style: DisplayStyle)
    requires s in AllSlots(style) || (style == TwelveHour && s in BookingSlots())
    ensures exists k :: 0 <= k < SlotCount && s == SlotOf(SlotClock(k), style)
    ensures match StrptimeClock(s.value) case Some(c) => WithinOpeningHours(c) case None => false
  {
    if s !in AllSlots(style) {
      BookingSlotsAreGenerated(s);
    }
    var k := SlotIndex(s, style);
    AllSlotsAt(style, k);
  }

  /** The position of a generated slot in the loop's list. */
  lemma SlotIndex(s: Slot, style: DisplayStyle) returns (k: nat)
    requires s in AllSlots(style)
    ensures k < SlotCount && AllSlots(style)[k] == s
  {
    var xs := AllSlots(style);
    k :| 0 <= k < |xs| && xs[k] == s;
  }
}

/**
 * The pure rules of the booking form: the number of nights between two
 * instants, the payable total, the date picker's options and which of them
 * are disabled, and the `YYYY-MM-DD` date format sent to the server.
 *
 * Instants are integers (milliseconds since the epoch, what `getTime()`
 * returns); a date the user has not chosen yet is `None` (the empty string in
 * the form's state). Money is an exact integer number of paise.
 */
module BookingQuote {
  import opened Wrappers
  import opened JsString

  /** Milliseconds in a day, `1000 * 60 * 60 * 24`. */
  const DayMs: int := 1000 * 60 * 60 * 24

  function Abs(x: int): nat {
    if x < 0 then -x else x
  }

  /** `Math.ceil(a / b)` for a non-negative numerator and a positive denominator. */
  function CeilDiv(a: nat, b: nat): nat
    requires b > 0
  {
    (a + b - 1) / b
  }

  /**
   * `calculateNights`: 0 when either date is missing, otherwise the distance
   * between the two instants in days, rounded up.
   */
  function Nights(checkIn: Option<int>, checkOut: Option<int>): nat
  {
    if checkIn.None? || checkOut.None? then 0
    else CeilDiv(Abs(checkOut.value - checkIn.value), DayMs)
  }

  /** A missing date gives no nights. */
  lemma NightsWithoutBothDates(checkIn: Option<int>, checkOut: Option<int>)
    requires checkIn.None? || checkOut.None?
    ensures Nights(checkIn, checkOut) == 0
  {
  }

  /**
   * With both dates present the result is the least number of whole days
   * that covers the distance: a partial day counts as a whole one.
   */
  lemma NightsRoundsUp(checkIn: int, checkOut: int)
    ensures var n, d := Nights(Some(checkIn), Some(checkOut)), Abs(checkOut - checkIn);
      d <= n * DayMs && (n == 0 || (n - 1) * DayMs < d)
  {
    var n, d := Nights(Some(checkIn), Some(checkOut)), Abs(checkOut - checkIn);
    var r := (d + DayMs - 1) % DayMs;
    assert d + DayMs - 1 == n * DayMs + r;
  }

  /** Because of the absolute value the order of the two dates does not matter. */
  lemma NightsSymmetric(a: Option<int>, b: Option<int>)
    ensures Nights(a, b) == Nights(b, a)
  {
  }

  /** The same instant twice is zero nights, and only then. */
  lemma NightsZeroIff(checkIn: int, checkOut: int)
    ensures Nights(Some(checkIn), Some(checkOut)) == 0 <==> checkIn == checkOut
  {
    NightsRoundsUp(checkIn, checkOut);
  }

  /** Two instants exactly `k` days apart are `k` nights apart. */
  lemma NightsWholeDays(checkIn: int, k: nat)
    ensures Nights(Some(checkIn), Some(checkIn + k * DayMs)) == k
  {
    assert Abs(checkIn + k * DayMs - checkIn) + DayMs - 1 == k * DayMs + (DayMs - 1);
  }

  /** Prices of a room, in paise: the per-night member price and the two extras. */
  datatype RoomRates = RoomRates(memberPrice: int, extraPersonPrice: int, extraMattressPrice: int)

  /**
   * `calculateTotal`: the member price for every night, plus the price of
   * each extra person and of each extra mattress.
   */
  function Total(rates: RoomRates, checkIn: Option<int>, checkOut: Option<int>,
                 extraPerson: int, extraMattress: int): int
  {
    rates.memberPrice * Nights(checkIn, checkOut)
    + extraPerson * rates.extraPersonPrice
    + extraMattress * rates.extraMattressPrice
  }

  /** The lines of the total section of the screen, before rounding for display. */
  datatype Quote = Quote(nights: nat, roomTotal: int, extraPersonTotal: int,
                         extraMattressTotal: int, grandTotal: int)

  function QuoteOf(rates: RoomRates, checkIn: Option<int>, checkOut: Option<int>,
                   extraPerson: int, extraMattress: int): Quote
  {
    var nights := Nights(checkIn, checkOut);
    Quote(nights, rates.memberPrice * nights, extraPerson * rates.extraPersonPrice,
          extraMattress * rates.extraMattressPrice,
          Total(rates, checkIn, checkOut, extraPerson, extraMattress))
  }

  /** The lines shown add up to the grand total, which is the amount charged. */
  lemma QuoteAddsUp(rates: RoomRates, checkIn: Option<int>, checkOut: Option<int>,
                    extraPerson: int, extraMattress: int)
    ensures var q := QuoteOf(rates, checkIn, checkOut, extraPerson, extraMattress);
      q.grandTotal == q.roomTotal + q.extraPersonTotal + q.extraMattressTotal
      && q.roomTotal == rates.memberPrice * q.nights
  {
  }

  /** Without extras the total is the room total alone. */
  lemma TotalWithoutExtras(rates: RoomRates, checkIn: Option<int>, checkOut: Option<int>)
    ensures Total(rates, checkIn, checkOut, 0, 0) == rates.memberPrice * Nights(checkIn, checkOut)
  {
  }

  /** One more extra person costs exactly the extra-person price. */
  lemma TotalExtraPersonStep(rates: RoomRates, checkIn: Option<int>, checkOut: Option<int>,
                             extraPerson: int, extraMattress: int)
    ensures Total(rates, checkIn, checkOut, extraPerson + 1, extraMattress)
         == Total(rates, checkIn, checkOut, extraPerson, extraMattress) + rates.extraPersonPrice
  {
  }

  /** One more extra mattress costs exactly the extra-mattress price. */
  lemma TotalExtraMattressStep(rates: RoomRates, checkIn: Option<int>, checkOut: Option<int>,
                               extraPerson: int, extraMattress: int)
    ensures Total(rates, checkIn, checkOut, extraPerson, extraMattress + 1)
         == Total(rates, checkIn, checkOut, extraPerson, extraMattress) + rates.extraMattressPrice
  {
  }

  /** A stay one day longer costs exactly one more night at the member price. */
  lemma TotalOneMoreNight(rates: RoomRates, checkIn: int, k: nat, extraPerson: int, extraMattress: int)
    ensures Total(rates, Some(checkIn), Some(checkIn + (k + 1) * DayMs), extraPerson, extraMattress)
         == Total(rates, Some(checkIn), Some(checkIn + k * DayMs), extraPerson, extraMattress) + rates.memberPrice
  {
    NightsWholeDays(checkIn, k);
    NightsWholeDays(checkIn, k + 1);
  }

  /**
   * A worked quote: 100 rupees a night, 20 per extra person, 15 per extra
   * mattress, three nights, one extra person and two mattresses come to 350.
   */
  lemma TotalExample(checkIn: int)
    ensures Total(RoomRates(10000, 2000, 1500), Some(checkIn), Some(checkIn + 3 * DayMs), 1, 2) == 35000
  {
    NightsWholeDays(checkIn, 3);
  }

  /** The number of days the picker offers. */
  const PickerDays: nat := 60

  /** Which date the picker is choosing (`datePickerType`). */
  datatype PickerMode = CheckInMode | CheckOutMode

  /** The instant offered on row `i` of the picker: `i` days after now. */
  function PickerOption(today: int, i: nat): int
  {
    today + i * DayMs
  }

  /** All rows of the picker. */
  function PickerOptions(today: int): (options: seq<int>)
    ensures |options| == PickerDays
    ensures options[0] == today
    ensures forall i :: 0 <= i < PickerDays - 1 ==> options[i + 1] == options[i] + DayMs
  {
    seq(PickerDays, i requires 0 <= i => PickerOption(today, i))
  }

  /**
   * The picker's `isDisabled`: when choosing the check-out date, every
   * option at or before the chosen check-in instant.
   */
  predicate IsDisabled(mode: PickerMode, checkIn: Option<int>, option: int)
  {
    mode == CheckOutMode && checkIn.Some? && option <= checkIn.value
  }

  /** When choosing the check-in date nothing is disabled. */
  lemma NothingDisabledForCheckIn(checkIn: Option<int>, option: int)
    ensures !IsDisabled(CheckInMode, checkIn, option)
  {
  }

  /**
   * When choosing the check-out date, the disabled rows are a prefix of the
   * picker: with check-in on or after today, exactly the rows up to the
   * number of whole days from today to check-in are disabled, none otherwise,
   * and every row above a disabled one is disabled too.
   */
  lemma DisabledRowsArePrefix(today: int, checkIn: int, i: nat, j: nat)
    requires j <= i
    ensures IsDisabled(CheckOutMode, Some(checkIn), PickerOption(today, i))
            <==> today <= checkIn && i <= (checkIn - today) / DayMs
    ensures IsDisabled(CheckOutMode, Some(checkIn), PickerOption(today, i))
            ==> IsDisabled(CheckOutMode, Some(checkIn), PickerOption(today, j))
  {
    assert j * DayMs <= i * DayMs;
    if today <= checkIn {
      var q, r := (checkIn - today) / DayMs, (checkIn - today) % DayMs;
      assert checkIn - today == q * DayMs + r && 0 <= r < DayMs;
      if i <= q {
        assert i * DayMs <= q * DayMs;
      } else {
        assert i * DayMs >= (q + 1) * DayMs;
      }
    }
  }

  /** A check-out date the picker lets through is after check-in, at least one night later. */
  lemma EnabledCheckOutIsLater(checkIn: int, option: int)
    requires !IsDisabled(CheckOutMode, Some(checkIn), option)
    ensures checkIn < option
    ensures Nights(Some(checkIn), Some(option)) >= 1
  {
  }

  /** A local calendar date as `getFullYear`, `getMonth` (0-based) and `getDate` give it. */
  datatype LocalDate = LocalDate(year: int, monthIndex: int, day: int)

  predicate ValidLocalDate(d: LocalDate) {
    d.year >= 0 && 0 <= d.monthIndex < 12 && 1 <= d.day <= 31
  }

  /** `formatDateForAPI`: the year, then the 1-based month and the day padded to two digits. */
  function FormatDateForApi(d: LocalDate): string
  {
    IntToString(d.year) + "-" + PadStart2(IntToString(d.monthIndex + 1))
      + "-" + PadStart2(IntToString(d.day))
  }

  /** How a `YYYY-MM-DD` string is read back: three digit groups separated by `-`. */
  function ParseApiDate(s: string): Option<LocalDate>
  {
    var parts := Split(s, '-');
    if |parts| == 3 && AllDigits(parts[0]) && AllDigits(parts[1]) && AllDigits(parts[2])
       && parts[0] != [] && parts[1] != [] && parts[2] != []
    then Some(LocalDate(DigitsValue(parts[0]), DigitsValue(parts[1]) - 1, DigitsValue(parts[2])))
    else None
  }

  /** A number below 100 padded to two digits keeps its value. */
  lemma PaddedTwoDigits(n: nat)
    requires n < 100
    ensures var s := PadStart2(NatToString(n));
      |s| == 2 && AllDigits(s) && DigitsValue(s) == n
  {
    var t := NatToString(n);
    if n < 10 {
      assert PadStart2(t) == "0" + t;
      DigitsValueLeadingZero(t);
    } else {
      assert t == NatToString(n / 10) + [DigitChar(n % 10)];
    }
  }

  /** The formatted date is the unsigned year, month and day with dashes between them. */
  lemma FormatDateAsConcat(d: LocalDate)
    requires ValidLocalDate(d)
    ensures FormatDateForApi(d) == NatToString(d.year) + "-" + PadStart2(NatToString(d.monthIndex + 1))
                                   + "-" + PadStart2(NatToString(d.day))
  {
  }

  /** Three pieces joined by a separator. */
  lemma JoinThree(a: string, b: string, c: string, sep: char)
    ensures Join([a, b, c], sep) == a + [sep] + b + [sep] + c
  {
    var parts := [a, b, c];
    assert parts[1..] == [b, c];
    assert parts[1..][1..] == [c];
    assert Join([c], sep) == c;
    assert Join([b, c], sep) == b + [sep] + c;
    assert Join(parts, sep) == a + [sep] + (b + [sep] + c);
  }

  /** The three pieces of a formatted date, joined by dashes. */
  lemma FormatDateAsJoin(d: LocalDate)
    requires ValidLocalDate(d)
    ensures FormatDateForApi(d) == Join([NatToString(d.year), PadStart2(NatToString(d.monthIndex + 1)),
                                         PadStart2(NatToString(d.day))], '-')
  {
    FormatDateAsConcat(d);
    JoinThree(NatToString(d.year), PadStart2(NatToString(d.monthIndex + 1)), PadStart2(NatToString(d.day)), '-');
  }

  /** The formatted date reads back as the date it was made from. */
  lemma {:induction false} FormatDateRoundTrip(d: LocalDate)
    requires ValidLocalDate(d)
    ensures ParseApiDate(FormatDateForApi(d)) == Some(d)
  {
    var y := NatToString(d.year);
    var m := PadStart2(NatToString(d.monthIndex + 1));
    var dd := PadStart2(NatToString(d.day));
    PaddedTwoDigits(d.monthIndex + 1);
    PaddedTwoDigits(d.day);
    var parts := [y, m, dd];
    forall i | 0 <= i < 3
      ensures '-' !in parts[i]
    {
      assert AllDigits(parts[i]);
    }
    FormatDateAsJoin(d);
    SplitJoin(parts, '-');
    assert Split(FormatDateForApi(d), '-') == parts;
  }

  /** A year with four digits is written with four characters. */
  lemma FourDigitYear(year: int)
    requires 1000 <= year <= 9999
    ensures |NatToString(year)| == 4
  {
    var a := NatToString(year / 1000);
    var b := NatToString(year / 100);
    var c := NatToString(year / 10);
    assert |a| == 1;
    assert |b| == 2;
    assert |c| == 3;
  }

  /** Where the pieces of a dashed date of four, two and two characters land. */
  lemma DashedLayout(y: string, m: string, dd: string)
    requires |y| == 4 && |m| == 2 && |dd| == 2
    ensures var s := y + "-" + m + "-" + dd;
      |s| == 10 && s[4] == '-' && s[7] == '-' && s[..4] == y && s[5..7] == m && s[8..] == dd
  {
  }

  /** Years with four digits give exactly `YYYY-MM-DD`: ten characters, dashes at 4 and 7. */
  lemma FormatDateShape(d: LocalDate)
    requires ValidLocalDate(d) && 1000 <= d.year <= 9999
    ensures var s := FormatDateForApi(d);
      |s| == 10 && s[4] == '-' && s[7] == '-'
      && AllDigits(s[..4]) && AllDigits(s[5..7]) && AllDigits(s[8..])
      && DigitsValue(s[..4]) == d.year && DigitsValue(s[5..7]) == d.monthIndex + 1
      && DigitsValue(s[8..]) == d.day
  {
    var y := NatToString(d.year);
    var m := PadStart2(NatToString(d.monthIndex + 1));
    var dd := PadStart2(NatToString(d.day));
    FourDigitYear(d.year);
    PaddedTwoDigits(d.monthIndex + 1);
    PaddedTwoDigits(d.day);
    FormatDateAsConcat(d);
    DashedLayout(y, m, dd);
  }
}

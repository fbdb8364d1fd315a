/**
 * The booking form screen: its state (the screen's `useState` variables),
 * the date-picker transitions, the two counters, the form validator and the
 * booking record sent to the server once the form is valid.
 */
module BookingForm {
  import opened Wrappers
  import opened JsString
  import opened BookingQuote

  /** `bookAs`: the member books for themself or for a guest. */
  datatype BookAs = Self | Guest

  /** The value of every state variable of the screen at one moment. */
  datatype FormState = FormState(
    checkInDate: Option<int>,
    checkOutDate: Option<int>,
    showDatePicker: bool,
    datePickerType: PickerMode,
    extraPerson: int,
    extraMattress: int,
    bookAs: BookAs,
    guestName: string,
    guestContact: string,
    loading: bool,
    error: string)

  /** The state when the screen opens. */
  const InitialState := FormState(None, None, false, CheckInMode, 0, 0, Self, "", "", false, "")

  /** The checks of `validateForm`, in the order it makes them. */
  datatype FormError = MissingDates | CheckOutNotAfterCheckIn | MissingGuestName | InvalidGuestContact

  /** The message `validateForm` shows for each failed check. */
  function ErrorMessage(e: FormError): string
  {
    match e
    case MissingDates => "Please select check-in and check-out dates"
    case CheckOutNotAfterCheckIn => "Check-out date must be after check-in date"
    case MissingGuestName => "Please enter guest name"
    case InvalidGuestContact => "Please enter valid guest contact number"
  }

  /** Position of a check in the validator's sequence. */
  function Rank(e: FormError): nat
  {
    match e
    case MissingDates => 0
    case CheckOutNotAfterCheckIn => 1
    case MissingGuestName => 2
    case InvalidGuestContact => 3
  }

  /** The condition under which each check rejects the form, stated on its own. */
  predicate Fails(e: FormError, f: FormState)
  {
    match e
    case MissingDates => f.checkInDate.None? || f.checkOutDate.None?
    case CheckOutNotAfterCheckIn =>
      f.checkInDate.Some? && f.checkOutDate.Some? && f.checkOutDate.value <= f.checkInDate.value
    case MissingGuestName => f.bookAs == Guest && AllWhitespace(f.guestName)
    case InvalidGuestContact =>
      f.bookAs == Guest && (AllWhitespace(f.guestContact) || |f.guestContact| < 10)
  }

  /** `validateForm` as a function: the error it reports, or `None` when it returns true. */
  function FirstFormError(f: FormState): Option<FormError>
  {
    if f.checkInDate.None? || f.checkOutDate.None? then Some(MissingDates)
    else if f.checkOutDate.value <= f.checkInDate.value then Some(CheckOutNotAfterCheckIn)
    else if f.bookAs == Guest && Trim(f.guestName) == [] then Some(MissingGuestName)
    else if f.bookAs == Guest && (Trim(f.guestContact) == [] || |f.guestContact| < 10)
    then Some(InvalidGuestContact)
    else None
  }

  /** The validator reports the first failing check and none of the later ones. */
  lemma FirstFormErrorIsFirstFailure(f: FormState, e: FormError)
    ensures FirstFormError(f) == Some(e)
            <==> Fails(e, f) && forall e' :: Rank(e') < Rank(e) ==> !Fails(e', f)
  {
    if Fails(e, f) && forall e' :: Rank(e') < Rank(e) ==> !Fails(e', f) {
      assert Rank(e) >= 1 ==> !Fails(MissingDates, f);
      assert Rank(e) >= 2 ==> !Fails(CheckOutNotAfterCheckIn, f);
      assert Rank(e) >= 3 ==> !Fails(MissingGuestName, f);
    }
  }

  /**
   * The validator accepts exactly the forms with both dates, check-out after
   * check-in and, for a guest booking, a non-blank name and a non-blank
   * contact of at least ten characters.
   */
  lemma FirstFormErrorNoneIff(f: FormState)
    ensures FirstFormError(f) == None <==>
      && f.checkInDate.Some? && f.checkOutDate.Some?
      && f.checkInDate.value < f.checkOutDate.value
      && (f.bookAs == Guest ==>
            !AllWhitespace(f.guestName) && !AllWhitespace(f.guestContact) && |f.guestContact| >= 10)
  {
  }

  /** A booking for oneself never fails on the guest fields. */
  lemma SelfBookingIgnoresGuestFields(f: FormState, name: string, contact: string)
    requires f.bookAs == Self
    ensures FirstFormError(f.(guestName := name, guestContact := contact)) == FirstFormError(f)
  {
  }

  /** A form the validator accepts is at least one night long. */
  lemma ValidFormHasNights(f: FormState)
    requires FirstFormError(f) == None
    ensures Nights(f.checkInDate, f.checkOutDate) >= 1
  {
    NightsZeroIff(f.checkInDate.value, f.checkOutDate.value);
  }

  /** The record the screen posts to the booking endpoint. */
  datatype BookingRequest = BookingRequest(
    roomId: Option<int>,
    checkIn: string,
    checkOut: string,
    extraPerson: int,
    extraMattress: int,
    bookAs: string,
    guestName: string,
    guestContact: string,
    payableAmount: int)

  /**
   * `bookingData`, built once `validateForm` has passed. `localDate` is the
   * local calendar date of an instant (what `new Date(...)` and its getters
   * give) and `memberName` is the signed-in member's profile name, if any.
   */
  function BookingData(f: FormState, rates: RoomRates, roomIdParam: string,
                       memberName: Option<string>, localDate: int -> LocalDate): BookingRequest
    requires FirstFormError(f) == None
  {
    BookingRequest(
      ParseInt(roomIdParam),
      FormatDateForApi(localDate(f.checkInDate.value)),
      FormatDateForApi(localDate(f.checkOutDate.value)),
      f.extraPerson,
      f.extraMattress,
      if f.bookAs == Guest then "guest" else "self",
      if f.bookAs == Guest then f.guestName else OrElse(memberName, ""),
      if f.bookAs == Guest then f.guestContact else OrElse(memberName, ""),
      Total(rates, f.checkInDate, f.checkOutDate, f.extraPerson, f.extraMattress))
  }

  /**
   * What the server receives: the dates read back as the local check-in and
   * check-out dates, the counters and the amount of the quote on screen, the
   * guest's details for a guest booking, and for a booking for oneself the
   * member's name in both guest fields (the contact field too, as written).
   */
  lemma BookingDataContents(f: FormState, rates: RoomRates, roomIdParam: string,
                            memberName: Option<string>, localDate: int -> LocalDate)
    requires FirstFormError(f) == None
    requires ValidLocalDate(localDate(f.checkInDate.value)) && ValidLocalDate(localDate(f.checkOutDate.value))
    ensures var r := BookingData(f, rates, roomIdParam, memberName, localDate);
      && r.roomId == ParseInt(roomIdParam)
      && r.extraPerson == f.extraPerson && r.extraMattress == f.extraMattress
      && ParseApiDate(r.checkIn) == Some(localDate(f.checkInDate.value))
      && ParseApiDate(r.checkOut) == Some(localDate(f.checkOutDate.value))
      && r.payableAmount == QuoteOf(rates, f.checkInDate, f.checkOutDate, f.extraPerson, f.extraMattress).grandTotal
      && (f.bookAs == Guest ==> r.bookAs == "guest" && r.guestName == f.guestName && r.guestContact == f.guestContact)
      && (f.bookAs == Self ==> r.bookAs == "self" && r.guestName == r.guestContact == OrElse(memberName, ""))
  {
    FormatDateRoundTrip(localDate(f.checkInDate.value));
    FormatDateRoundTrip(localDate(f.checkOutDate.value));
  }

  /**
   * The screen. Its fields mirror the `useState` variables; the prices are
   * the route parameters, fixed for the life of the screen.
   */
  class BookingFormScreen {
    const rates: RoomRates
    var checkInDate: Option<int>
    var checkOutDate: Option<int>
    var showDatePicker: bool
    var datePickerType: PickerMode
    var extraPerson: int
    var extraMattress: int
    var bookAs: BookAs
    var guestName: string
    var guestContact: string
    var loading: bool
    var error: string

    function State(): FormState
      reads this
    {
      FormState(checkInDate, checkOutDate, showDatePicker, datePickerType, extraPerson,
                extraMattress, bookAs, guestName, guestContact, loading, error)
    }

    /** The counters never go below zero. */
    predicate Valid()
      reads this
    {
      extraPerson >= 0 && extraMattress >= 0
    }

    constructor (rates: RoomRates)
      ensures Valid() && this.rates == rates && State() == InitialState
    {
      this.rates := rates;
      checkInDate, checkOutDate := None, None;
      showDatePicker, datePickerType := false, CheckInMode;
      extraPerson, extraMattress := 0, 0;
      bookAs, guestName, guestContact := Self, "", "";
      loading, error := false, "";
    }

    /** `openDatePicker`: choose which date the picker sets and show it. */
    method OpenDatePicker(mode: PickerMode)
      requires Valid()
      modifies this
      ensures Valid()
      ensures State() == old(State()).(datePickerType := mode, showDatePicker := true)
    {
      datePickerType := mode;
      showDatePicker := true;
    }

    /** Cancel, Done or the back gesture: hide the picker. */
    method CloseDatePicker()
      requires Valid()
      modifies this
      ensures Valid()
      ensures State() == old(State()).(showDatePicker := false)
    {
      showDatePicker := false;
    }

    /**
     * `handleDateSelect`: a new check-in date clears the check-out date and
     * keeps the picker open; a check-out date closes it.
     */
    method HandleDateSelect(date: int)
      requires Valid()
      modifies this
      ensures Valid()
      ensures old(datePickerType) == CheckInMode ==>
        State() == old(State()).(checkInDate := Some(date), checkOutDate := None)
      ensures old(datePickerType) == CheckOutMode ==>
        State() == old(State()).(checkOutDate := Some(date), showDatePicker := false)
      ensures old(datePickerType) == CheckInMode ==> FirstFormError(State()) == Some(MissingDates)
    {
      if datePickerType == CheckInMode {
        checkInDate := Some(date);
        checkOutDate := None;
      } else {
        checkOutDate := Some(date);
        showDatePicker := false;
      }
    }

    /**
     * Pressing row `i` of the picker opened at instant `today`: a disabled
     * row does nothing, any other row is selected. A check-out date chosen
     * this way is after the check-in date.
     */
    method PressDateOption(today: int, i: nat)
      requires Valid() && i < PickerDays
      modifies this
      ensures Valid()
      ensures IsDisabled(old(datePickerType), old(checkInDate), PickerOption(today, i)) ==>
        State() == old(State())
      ensures !IsDisabled(old(datePickerType), old(checkInDate), PickerOption(today, i)) &&
              old(datePickerType) == CheckInMode ==>
        State() == old(State()).(checkInDate := Some(PickerOption(today, i)), checkOutDate := None)
      ensures !IsDisabled(old(datePickerType), old(checkInDate), PickerOption(today, i)) &&
              old(datePickerType) == CheckOutMode ==>
        State() == old(State()).(checkOutDate := Some(PickerOption(today, i)), showDatePicker := false)
      ensures old(datePickerType) == CheckOutMode && old(checkInDate).Some? && State() != old(State()) ==>
        checkOutDate.Some? && checkInDate.Some? && checkInDate.value < checkOutDate.value
    {
      var option := PickerOption(today, i);
      if !IsDisabled(datePickerType, checkInDate, option) {
        HandleDateSelect(option);
      }
    }

    /** The minus button of the extra-person counter: down by one, but not below zero. */
    method DecrementExtraPerson()
      requires Valid()
      modifies this
      ensures Valid()
      ensures State() == old(State()).(extraPerson := if old(extraPerson) > 0 then old(extraPerson) - 1 else 0)
    {
      extraPerson := if 0 > extraPerson - 1 then 0 else extraPerson - 1;
    }

    /** The plus button of the extra-person counter. */
    method IncrementExtraPerson()
      requires Valid()
      modifies this
      ensures Valid()
      ensures State() == old(State()).(extraPerson := old(extraPerson) + 1)
    {
      extraPerson := extraPerson + 1;
    }

    /** The minus button of the extra-mattress counter: down by one, but not below zero. */
    method DecrementExtraMattress()
      requires Valid()
      modifies this
      ensures Valid()
      ensures State() == old(State()).(extraMattress := if old(extraMattress) > 0 then old(extraMattress) - 1 else 0)
    {
      extraMattress := if 0 > extraMattress - 1 then 0 else extraMattress - 1;
    }

    /** The plus button of the extra-mattress counter. */
    method IncrementExtraMattress()
      requires Valid()
      modifies this
      ensures Valid()
      ensures State() == old(State()).(extraMattress := old(extraMattress) + 1)
    {
      extraMattress := extraMattress + 1;
    }

    /**
     * `validateForm`: true when every check passes, leaving the state alone;
     * otherwise the message of the first failing check is shown.
     */
    method ValidateForm() returns (ok: bool)
      requires Valid()
      modifies this
      ensures Valid()
      ensures ok <==> FirstFormError(old(State())) == None
      ensures ok ==> State() == old(State())
      ensures !ok ==> State() == old(State()).(error := ErrorMessage(FirstFormError(old(State())).value))
    {
      if checkInDate.None? || checkOutDate.None? {
        error := ErrorMessage(MissingDates);
        return false;
      }
      if checkOutDate.value <= checkInDate.value {
        error := ErrorMessage(CheckOutNotAfterCheckIn);
        return false;
      }
      if bookAs == Guest {
        if Trim(guestName) == [] {
          error := ErrorMessage(MissingGuestName);
          return false;
        }
        if Trim(guestContact) == [] || |guestContact| < 10 {
          error := ErrorMessage(InvalidGuestContact);
          return false;
        }
      }
      return true;
    }
  }
}

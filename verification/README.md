# Doon Club app: a verified model of its client-side rules

The Doon Club app is a React Native app for the members of a club. Nearly every screen is markup bound to a REST
backend. This project models, in Dafny, the logic the screens run on the device:

- **Booking form** (`app/booking-form.tsx`). It computes the nights between check-in and check-out and the payable
  total. It validates the form in a fixed order and drives the date picker, which clears check-out when check-in
  changes and disables check-out days that are not after check-in. It also has the two extras counters and builds
  the booking record with its `YYYY-MM-DD` dates.
- **Translations** (`contexts/LanguageContext.tsx`). `t` follows a dotted key through the current language's
  table. Only known language codes are accepted, whether set by the user or loaded from storage.
- **Room detail** (`app/booking-detail.tsx`). It builds storage URLs and the carousel's image list, and passes
  parameters to the booking form.
- **Family** (`app/family.tsx`). Role colours and labels, and the capitalisation of unknown roles and of gender.
- **Language screen** (`app/language.tsx`). Splits the languages into a suggested group and the rest, and marks
  the current one.
- **Notifications** (`app/notifications.tsx`). Three flags, each flipped by its own switch.
- **Personal information** (`app/personal-info.tsx`). Fills the profile form from the server, guards the save on
  the required fields, and builds the update request.

Modelling choices:

- Instants are integers: milliseconds since the epoch, as `getTime()` gives them. A date not yet chosen (the empty
  string in the screen's state) is `None`.
- Prices are exact integers (paise).
- The JavaScript string built-ins the screens use (`trim`, `split`, `padStart`, `String(n)`, `parseInt`,
  `replace`, `s || fallback`) are modelled once, in module `JsString`. `IndexOf` is the search step inside
  `ReplaceFirst`, the model of `replace` with a string pattern.
- State that a screen updates in place is a class whose fields mirror its `useState` variables: `BookingFormScreen`,
  `LanguageProvider` and `PersonalInfoScreen`. Their methods state the whole new state in terms of the old one.
- Each network request in `personal-info.tsx` is split at its `await`. A `Begin…` method does what happens before
  it; a `Finish…` method takes the server's reply as a parameter and does what happens after.

For a booking made for oneself, the booking record puts the member's profile *name* in both `guest_name` and
`guest_contact` (app/booking-form.tsx:118-119). The model keeps this as written, and `BookingDataContents` states
it.

## Model

| member | source | states |
|---|---|---|
| `JsString.Trim` | app/booking-form.tsx:95-99 | `s.trim()` removes leading and trailing white space and is empty exactly when `s` is all white space |
| `JsString.TrimStart` | app/booking-form.tsx:95 | the result is the longest suffix that does not start with white space; everything removed is white space |
| `JsString.TrimEnd` | app/booking-form.tsx:99 | the result is the longest prefix that does not end with white space; everything removed is white space |
| `JsString.Split` | contexts/LanguageContext.tsx:63 | `key.split('.')` gives at least one piece, no piece holds the separator, and joining the pieces gives back the key |
| `JsString.SplitAfterPiece` | contexts/LanguageContext.tsx:63 | splitting `a + '.' + b`, where `a` has no dot, gives `a` followed by the pieces of `b` |
| `JsString.SplitWithoutSeparator` | contexts/LanguageContext.tsx:63 | a key without a dot splits into itself alone |
| `JsString.SplitJoin` | contexts/LanguageContext.tsx:63 | splitting undoes joining when no segment holds a dot |
| `JsString.NatToString` | app/booking-detail.tsx:114 | `String(n)` gives decimal digits without leading zeros that denote `n` |
| `JsString.IntToString` | app/booking-detail.tsx:114 | `String(i)` is never empty |
| `JsString.DigitsValueLeadingZero` | app/booking-form.tsx:76-77 | a leading `0` does not change the value of a digit string |
| `JsString.DigitChar` | app/booking-form.tsx:76-77 | a digit character denotes its digit |
| `JsString.PadStart2` | app/booking-form.tsx:76-77 | `padStart(2, '0')` keeps a string of two or more characters and otherwise left-pads it with zeros to length 2 |
| `JsString.DigitPrefix` | app/booking-form.tsx:112 | `parseInt` reads the longest run of digits at the front |
| `JsString.ParseInt` | app/booking-form.tsx:112 | `parseInt` in base ten: leading white space skipped, one sign, then the longest run of digits, and NaN when there are none; `ParseIntOfIntToString` states it inverts `String(i)` |
| `JsString.ParseIntOfIntToString` | app/booking-form.tsx:112 | `parseInt(String(i))` gives back `i` for every integer |
| `JsString.IndexOfFrom` | app/booking-detail.tsx:95 | the search step of `replace` finds the first occurrence at or after a position, or proves there is none |
| `JsString.IndexOf` | app/booking-detail.tsx:95 | the search step of `replace` finds the first occurrence of the pattern, or proves there is none |
| `JsString.ReplaceFirst` | app/booking-detail.tsx:95 | `replace` with a string pattern: the text before the first occurrence, the replacement, then the text after it; the string unchanged when there is none (stated for the storage path by `BookingDetail.ImageUrl`) |
| `JsString.OrElse` | app/personal-info.tsx:45-55 | the logical-or fallback for a possibly missing string: the string when present and non-empty, otherwise the fallback (stated by `PersonalInfo.FailureTextNeverEmpty`) |
| `BookingQuote.Nights` | app/booking-form.tsx:41-48 | `calculateNights`: the whole days between the two dates rounded up, 0 with either missing; stated by the five `Nights…` lemmas below |
| `BookingQuote.NightsWithoutBothDates` | app/booking-form.tsx:42 | with either date missing there are 0 nights |
| `BookingQuote.NightsRoundsUp` | app/booking-form.tsx:45-47 | the nights are the least whole number of days covering the distance between the instants, so a partial day counts as a whole one |
| `BookingQuote.NightsSymmetric` | app/booking-form.tsx:45 | swapping check-in and check-out gives the same nights, because of the absolute value |
| `BookingQuote.NightsZeroIff` | app/booking-form.tsx:45-47 | 0 nights exactly when the two instants are equal |
| `BookingQuote.NightsWholeDays` | app/booking-form.tsx:45-47 | instants exactly `k` days apart are `k` nights apart |
| `BookingQuote.Total` | app/booking-form.tsx:50-56 | `calculateTotal`: member price per night plus each extra person and mattress; stated by the `Total…` lemmas below |
| `BookingQuote.QuoteOf` | app/booking-form.tsx:336-357 | the lines of the total section, whose sum `QuoteAddsUp` states is the amount charged |
| `BookingQuote.QuoteAddsUp` | app/booking-form.tsx:336-357 | the room, extra-person and extra-mattress lines shown add up to the grand total, and the room line is price times nights |
| `BookingQuote.TotalWithoutExtras` | app/booking-form.tsx:50-56 | with no extras the total is the member price times the nights |
| `BookingQuote.TotalExtraPersonStep` | app/booking-form.tsx:53-55 | one more extra person raises the total by exactly the extra-person price |
| `BookingQuote.TotalExtraMattressStep` | app/booking-form.tsx:54-55 | one more extra mattress raises the total by exactly the extra-mattress price |
| `BookingQuote.TotalOneMoreNight` | app/booking-form.tsx:51-55 | a stay one day longer costs exactly one more member price |
| `BookingQuote.TotalExample` | app/booking-form.tsx:50-56 | three nights at 10000 paise, one extra person at 2000 and two mattresses at 1500 come to 35000 paise |
| `BookingQuote.PickerOptions` | app/booking-form.tsx:393-395 | the picker offers 60 consecutive days starting today, one day apart |
| `BookingQuote.IsDisabled` | app/booking-form.tsx:402-405 | `isDisabled`: in check-out mode with a check-in chosen, every option not after it; stated by the three lemmas below |
| `BookingQuote.NothingDisabledForCheckIn` | app/booking-form.tsx:402-405 | no option is disabled while choosing check-in |
| `BookingQuote.DisabledRowsArePrefix` | app/booking-form.tsx:393-405 | while choosing check-out, the disabled rows are exactly rows 0 to the number of whole days from today to check-in (none when check-in is before today), so they are the first rows |
| `BookingQuote.EnabledCheckOutIsLater` | app/booking-form.tsx:402-411 | a check-out option that is not disabled is after check-in and at least one night away |
| `BookingQuote.FormatDateForApi` | app/booking-form.tsx:73-79 | `formatDateForAPI`: year, padded month and padded day with dashes; stated by `FormatDateRoundTrip` and `FormatDateShape` |
| `BookingQuote.PaddedTwoDigits` | app/booking-form.tsx:76-77 | a month or day below 100 is written as two digits that read back as the same number |
| `BookingQuote.FormatDateAsJoin` | app/booking-form.tsx:73-79 | the API date is year, month and day joined by dashes |
| `BookingQuote.FormatDateRoundTrip` | app/booking-form.tsx:73-79 | reading the formatted date back as three dash-separated numbers gives the year, the 1-based month and the day |
| `BookingQuote.FourDigitYear` | app/booking-form.tsx:75 | a year from 1000 to 9999 is written with four digits |
| `BookingQuote.FormatDateShape` | app/booking-form.tsx:73-79 | a four-digit year gives exactly `YYYY-MM-DD`: ten characters, dashes at 4 and 7, digit groups equal to year, month + 1 and day |
| `BookingForm.FirstFormError` | app/booking-form.tsx:81-106 | `validateForm`'s outcome: the first failing check, or none; stated by the three lemmas below |
| `BookingForm.ErrorMessage` | app/booking-form.tsx:83-100 | the message `validateForm` shows for each failing check, word for word |
| `BookingForm.FirstFormErrorIsFirstFailure` | app/booking-form.tsx:81-106 | the validator reports a check's error iff that check fails and every earlier check passes |
| `BookingForm.FirstFormErrorNoneIff` | app/booking-form.tsx:81-106 | the form is accepted iff both dates are present, check-out is after check-in and, for a guest, the name is not blank and the contact is not blank and has at least 10 characters |
| `BookingForm.SelfBookingIgnoresGuestFields` | app/booking-form.tsx:94 | the guest fields are checked only for guest bookings |
| `BookingForm.ValidFormHasNights` | app/booking-form.tsx:89-92 | an accepted form is at least one night long |
| `BookingForm.BookingData` | app/booking-form.tsx:111-121 | the `bookingData` record built after validation; stated by `BookingDataContents` |
| `BookingForm.BookingDataContents` | app/booking-form.tsx:111-121 | the room id is `parseInt` of the route's id; the counters are passed unchanged; the booking record's dates read back as the local check-in and check-out dates; the amount is the grand total; guest bookings carry the guest's fields, self bookings carry the member name in both |
| `BookingForm.BookingFormScreen.constructor` | app/booking-form.tsx:29-39 | the screen opens with no dates, a hidden check-in picker, zero extras, a self booking, empty guest fields and no error |
| `BookingForm.BookingFormScreen.OpenDatePicker` | app/booking-form.tsx:58-61 | sets the picker's mode and shows it; nothing else changes |
| `BookingForm.BookingFormScreen.CloseDatePicker` | app/booking-form.tsx:378-389 | hides the picker; nothing else changes |
| `BookingForm.BookingFormScreen.HandleDateSelect` | app/booking-form.tsx:63-71 | in check-in mode sets check-in, clears check-out and leaves the picker open; in check-out mode sets check-out and closes the picker; nothing else changes |
| `BookingForm.BookingFormScreen.PressDateOption` | app/booking-form.tsx:393-411 | a disabled row changes nothing; any other row is selected; a check-out chosen with check-in set is after check-in |
| `BookingForm.BookingFormScreen.DecrementExtraPerson` | app/booking-form.tsx:246 | lowers the extra-person count by one but not below zero; nothing else changes |
| `BookingForm.BookingFormScreen.IncrementExtraPerson` | app/booking-form.tsx:252 | raises the extra-person count by exactly one; nothing else changes |
| `BookingForm.BookingFormScreen.DecrementExtraMattress` | app/booking-form.tsx:266 | lowers the extra-mattress count by one but not below zero; nothing else changes |
| `BookingForm.BookingFormScreen.IncrementExtraMattress` | app/booking-form.tsx:272 | raises the extra-mattress count by exactly one; nothing else changes |
| `BookingForm.BookingFormScreen.ValidateForm` | app/booking-form.tsx:81-106 | returns true iff no check fails, leaving the state alone; otherwise shows the first failing check's message and changes nothing else |
| `Translation.Resolve` | contexts/LanguageContext.tsx:64-72 | the loop of `t`: follow each segment through objects, giving up when one is missing or the value is not an object; stated by `ResolveAppend` |
| `Translation.Translate` | contexts/LanguageContext.tsx:62-75 | what `t` returns: the string the key's segments lead to, otherwise the key; stated by the four `Translate…` lemmas below |
| `Translation.ResolveAppend` | contexts/LanguageContext.tsx:66-71 | walking a path in two pieces is walking the first piece, then the second from where it ends |
| `Translation.TranslateIsLeafOrKey` | contexts/LanguageContext.tsx:62-75 | `t` returns the key itself or a string stored somewhere in the current table |
| `Translation.TranslateSegments` | contexts/LanguageContext.tsx:63-74 | for a key made of dot-free segments, `t` returns the string those segments lead to, and the key when they lead nowhere or to a non-string |
| `Translation.TranslateStopsAtMissingSegment` | contexts/LanguageContext.tsx:66-71 | once a segment is absent or the value reached is not an object, `t` returns the key whatever the later segments are |
| `Translation.TranslateSubtreeIsKey` | contexts/LanguageContext.tsx:74 | a key whose segments lead to a nested object or any other non-string value returns the key |
| `Translation.AvailableLanguagesAreKnownCodes` | contexts/LanguageContext.tsx:44-49 | the languages listed are en, hi, zh, es in that order, all distinct, and they are exactly the codes with a table |
| `Translation.LanguageProvider.constructor` | contexts/LanguageContext.tsx:19-27 | the provider holds the four tables and starts in `en` |
| `Translation.LanguageProvider.LoadLanguagePreference` | contexts/LanguageContext.tsx:33-42 | a stored code is adopted only when it is present, non-empty and has a table; otherwise the language is unchanged |
| `Translation.LanguageProvider.SetLanguage` | contexts/LanguageContext.tsx:51-60 | the language changes only to a code that has a table; any other code leaves it unchanged |
| `Translation.LanguageProvider.T` | contexts/LanguageContext.tsx:62-75 | the segment-by-segment walk with early return gives what `Translate` specifies for the current language's table |
| `LanguageScreen.InSuggestedGroup` | app/language.tsx:17 | the test of the suggested group: code en or hi |
| `LanguageScreen.InOtherGroup` | app/language.tsx:20 | the test of the other group: code neither en nor hi |
| `LanguageScreen.Filter` | app/language.tsx:16-21 | the filtered list is no longer than the original |
| `LanguageScreen.FilterMembers` | app/language.tsx:16-21 | the filtered list holds exactly the entries that pass the test |
| `LanguageScreen.FilterKeepsOrder` | app/language.tsx:16-21 | filtering keeps the original relative order |
| `LanguageScreen.FilterPartition` | app/language.tsx:16-21 | two complementary filters together hold every entry exactly once |
| `LanguageScreen.SuggestedLanguages` | app/language.tsx:16-18 | `suggestedLanguages`; stated by `GroupsPartition` and `AvailableGroups` |
| `LanguageScreen.OtherLanguages` | app/language.tsx:19-21 | `otherLanguages`; stated by `GroupsPartition` and `AvailableGroups` |
| `LanguageScreen.GroupsPartition` | app/language.tsx:16-21 | the suggested group holds exactly the en and hi entries, the other group exactly the rest; both keep the order and together they partition the list |
| `LanguageScreen.AvailableGroups` | app/language.tsx:16-21 | on the app's list the suggested group is English then Hindi, and the other group is Chinese then Spanish |
| `LanguageScreen.IsSelected` | app/language.tsx:24 | `isSelected`: the item's code is the current language; stated by `AtMostOneSelected` and `PressLanguageItem` |
| `LanguageScreen.AtMostOneSelected` | app/language.tsx:24 | with distinct codes, at most one item carries the check mark |
| `LanguageScreen.PressLanguageItem` | app/language.tsx:30 | pressing an item switches to its code; afterwards it is the only item marked |
| `Notifications.InitiallyAllOn` | app/notifications.tsx:15-19 | every flag starts on |
| `Notifications.Toggle` | app/notifications.tsx:21-26 | the chosen flag is negated and every other flag is unchanged |
| `Notifications.FlagsDetermineSettings` | app/notifications.tsx:15-19 | two records with the same three flags are equal |
| `Notifications.ToggleTwice` | app/notifications.tsx:21-26 | flipping the same switch twice restores the original record |
| `Notifications.TogglesCommute` | app/notifications.tsx:21-26 | flipping two switches gives the same record in either order |
| `Family.RoleColor` | app/family.tsx:61-69 | `getRoleColor`; stated by `RoleColorCases` |
| `Family.RoleColorCases` | app/family.tsx:61-69 | primary, spouse, child and dependent get their colours; any other role gets `#6b7280` |
| `Family.Capitalize` | app/family.tsx:78 | the length is kept, the first character is upper-cased and the rest is unchanged |
| `Family.CapitalizeIdempotent` | app/family.tsx:78 | capitalising twice is capitalising once |
| `Family.RoleLabel` | app/family.tsx:71-79 | `getRoleLabel`; stated by `RoleLabelCases` and `UnknownCapitalisedRoleUnchanged` |
| `Family.ToUpper` | app/family.tsx:78 | `toUpperCase` on one character, for ASCII letters; stated through `Capitalize` |
| `Family.RoleLabelCases` | app/family.tsx:71-79 | the four known roles get their labels; any other role is shown capitalised: same length, first character upper-cased, the rest unchanged; the empty role gives '' |
| `Family.UnknownCapitalisedRoleUnchanged` | app/family.tsx:78 | an unknown role that already starts with a capital is shown as it is |
| `Family.GenderText` | app/family.tsx:168-176 | the gender line appears only for a non-empty gender, capitalised like a role |
| `BookingDetail.ImageUrl` | app/booking-detail.tsx:94-96 | the URL is the storage address followed by the path with its first `public/` removed, or by the path unchanged when it has none |
| `BookingDetail.ImageUrlRemovesOnlyFirst` | app/booking-detail.tsx:95 | a path that starts with `public/` loses that prefix and nothing else, so a second `public/` in the rest stays |
| `BookingDetail.Spread` | app/booking-detail.tsx:103 | what `...` yields for a parsed value: a list's entries, a string's characters, nothing (it throws) for anything else |
| `BookingDetail.RoomImages` | app/booking-detail.tsx:98-107 | no room gives no images; otherwise the featured image comes first, followed by the parsed list in order, or by one entry per character of a parsed string; it stands alone when parsing fails or the parsed value cannot be spread |
| `BookingDetail.BookNowParams` | app/booking-detail.tsx:109-121 | nothing without a room; otherwise name and prices are passed unchanged, and the id as a string that `parseInt` reads back as the same id |
| `PersonalInfo.Normalise` | app/personal-info.tsx:44-53 | the inputs `fetchProfile` fills: each returned field, or '' when missing or empty; stated by `SaveThenLoad` and `FinishLoad` |
| `PersonalInfo.RequiredFilled` | app/personal-info.tsx:60 | the save guard: name, email, mobile, date of birth and gender all non-empty; stated by `OptionalFieldsNotRequired` and `BeginSave` |
| `PersonalInfo.OptionalFieldsNotRequired` | app/personal-info.tsx:60 | address, city, pin and anniversary play no part in the save guard |
| `PersonalInfo.UpdateOf` | app/personal-info.tsx:68-78 | the anniversary is left out of the request exactly when it is empty |
| `PersonalInfo.SaveThenLoad` | app/personal-info.tsx:44-53 | a profile holding what was sent loads back into exactly the saved fields |
| `PersonalInfo.FailureTextNeverEmpty` | app/personal-info.tsx:55 | after a failure some text is always shown: the reply's error, or the fixed load or save message when the reply has none |
| `PersonalInfo.PersonalInfoScreen.constructor` | app/personal-info.tsx:20-32 | the screen opens loading, not saving, with no error and empty inputs |
| `PersonalInfo.PersonalInfoScreen.BeginLoad` | app/personal-info.tsx:38-40 | loading, with the error cleared; inputs unchanged |
| `PersonalInfo.PersonalInfoScreen.FinishLoad` | app/personal-info.tsx:41-56 | loading ends; on success each input takes the returned value or ''; otherwise the inputs stay and the reply's error or 'Failed to load profile' is shown |
| `PersonalInfo.PersonalInfoScreen.BeginSave` | app/personal-info.tsx:59-78 | with a required field empty nothing is sent and nothing changes; otherwise saving starts, the error is cleared and the request is all fields, without an empty anniversary |
| `PersonalInfo.PersonalInfoScreen.FinishSave` | app/personal-info.tsx:80-89 | saving ends; a failure shows the reply's error or 'Failed to update profile' |

## Left out

- Network and navigation. This covers every `fetch`, the payment flow (`WebBrowser.openBrowserAsync`, the booking
  confirmation, `loading` during payment), `Alert` and `router` calls (app/booking-form.tsx:108-190,
  app/booking-detail.tsx:71-92, app/personal-info.tsx:61, 83-88). Network replies enter the model only as
  parameters of the `Finish…` methods.
- Date parsing and time zones: `new Date(string)`, `toISOString`, `toLocaleDateString`, and the local getters used
  by `formatDateForAPI`. Instants are integers supplied by the caller, and the local calendar date of an instant is a
  function supplied by the caller. An unparseable date (`NaN`) is not modelled.
- BookingQuote.PickerOptions: row `i` is `today + i` days of 86 400 000 ms, so days lengthened or shortened by a
  daylight-saving change (`setDate` works in local time) are not modelled.
- Floating point: `parseFloat` of the route's prices (and NaN prices), `toFixed(2)` display rounding, the scroll
  index of the image carousel. Prices are exact integers.
- JsString.IntToString: the exponent notation JavaScript uses for magnitudes of 1e21 and above is not modelled.
- JsString.ParseInt: the `0x` hexadecimal prefix that `parseInt` accepts is not modelled.
- Family.Capitalize: only ASCII letters are upper-cased. Unicode case mapping, including mappings that change the
  length such as `ß` to `SS`, is not modelled.
- BookingForm.FirstFormError: `guestContact.length` counts UTF-16 code units, and the model counts characters. The
  two differ only for characters outside the Basic Multilingual Plane.
- Inherited object properties. In JavaScript, `in` and property lookup also see `Object.prototype` members, so
  `'toString' in translations` is true. Map membership in the model covers only own keys. Such a name never yields
  a string in `t`, but a stored preference such as `constructor` would be adopted by `loadLanguagePreference`.
  The same holds for `roleColors[role]` and `roleLabels[role]` (app/family.tsx:68, 78): for a role such as
  `constructor` the app shows an inherited function, while `Family.RoleColor` and `Family.RoleLabel` give the
  fallback.
- BookingDetail.RoomImages: the entries of a parsed JSON list are taken to be image paths. Other JSON values in the
  list are not distinguished.
- AsyncStorage: writing the preference, and a failing read (which behaves like a missing value). The locale JSON
  files are abstract `Node` tables given to the provider's constructor.
- The plain text-input setters (`setGuestName`, `setGuestContact`, `setBookAs` and the profile inputs) assign one
  field each. The model's fields are public variables that a caller assigns directly.
- The "night"/"nights" plural in the nights label (app/booking-form.tsx:233) and all `StyleSheet` objects and markup.
- contexts/AuthContext.tsx, app/login.tsx, app/index.tsx and the tab screens are not part of this model. They are
  network clients or redirects.

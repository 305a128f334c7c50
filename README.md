# Restaurant booking chatbot: the dialogue controllers

The repository is a Streamlit chatbot for booking a table at a restaurant
and for managing bookings already made. It has two copies of the
application, `colab_app.py` and `streamlit_app.py`. Each keeps a session
(`st.session_state`) with a chat history, a current step, a draft
reservation and a few more values. Each has a `process_input` state machine
that reads one chat line and moves the session on. Both keep a SQLite
table `reservations` that is read and written through five helper
functions. This project models the following.

- `text.dfy` (module `Text`) holds the Python string operations the
  controllers depend on, restricted to ASCII: `lower`, the `in` substring
  test, `strip`, `title`, `int(...)`, `str(n)`, `re.findall(r"\d+", s)[0]`
  and the code-point order of strings.
- `validators.dfy` (module `Validators`) holds:
  - the email and phone checks of both copies, each stated as a decision
    procedure and proved equal to the regular expression's meaning;
  - the guest-count rule;
  - `datetime.date.fromisoformat`, `strptime('%Y-%m-%d')`,
    `strptime('%H:%M')` and the `hh, mm = int(...)` split;
  - the opening hours, 11:00 to 22:00.
- `slots.dfy` (module `Slots`) holds the colab copy's generator of
  half-hour time slots (a `while` loop, modelled as a method with its
  invariant), the 12-hour labels, and the lunch and dinner filters of the
  booking screen.
- `reservations.dfy` (module `Reservations`) holds the table, modelled as
  a class over a sequence of rows with a unique primary key, with the same
  operations as the five helpers. It also holds the draft reservation, a
  record whose keys are each present or absent.
- `chat.dfy` (module `Chat`) holds the chat message, which has a role and
  a content, and the texts the two quick-action buttons send, which both
  copies share.
- `colab_app.dfy` (module `ColabBot`) holds the colab controller as class
  `Controller`. It covers:
  - the session state and `reset_chat`;
  - every branch of `process_input`;
  - the widget handlers that advance the steps typed text leaves alone:
    the date picker, the time-slot buttons, the confirm and edit buttons,
    the new-date picker, the modify-time buttons and the two quick-action
    buttons.
- `streamlit_app.dfy` (module `StreamlitBot`) holds the streamlit
  controller as class `Session`. It covers:
  - the session state and `reset_chat`;
  - every branch of `process_input` that can be reached;
  - the sidebar's "Use date/time" button;
  - the two quick-action buttons.

The assistant's replies are tags (`Reply`), not the literal Markdown text.
A tag carries the data a reply shows: an id, the row it displays, or the
draft it summarises.

Calls into the table go to an in-memory `Table` object that each
controller holds. SQLite's `ORDER BY date, time` is modelled by a result
that is sorted by (date, time) and is a permutation of the rows. The order
among rows with equal keys is left open, as SQL leaves it.

Three properties are kept by every step of the colab controller, as the
preserved invariant `Valid()`:
- the cached listing `reservations` is a permutation of the table's rows,
  and the cached `reservation_id` is above every id in use;
- a managing step always has a selected entry in range;
- every booking step already has the draft keys its screen and the steps
  after it read.

The streamlit copy has no cache. Its matching invariant is `Covers`: a step
has the keys the steps before it wrote. The model proves that `Covers` is
kept by every step except the `update` action of a managed reservation. It
also proves that the two places where the source would raise `KeyError`
(the summary at `special`, and the save at `confirm`) cannot be reached
while `Covers` holds. The model's `raised` result stands for the
exception.

## Model

| member | source | states |
|---|---|---|
| Text.LowerChar | streamlit_app.py:219 | definition of `str.lower` on one character: upper-case ASCII letters move down by 32 code points, every other character is unchanged |
| Text.Lower | streamlit_app.py:219 | definition of `str.lower` on a string: the same length, with `LowerChar` applied at every index |
| Text.LowerIdempotent | colab_app.py:226 | lowering twice is lowering once, and a lowered string has no upper-case letter |
| Text.LowerConcat | streamlit_app.py:219 | lowering distributes over concatenation |
| Text.LowerOfNoUpper | streamlit_app.py:219 | a string without upper-case letters is its own lower-case form |
| Text.Contains | colab_app.py:226 | the `in` substring test holds exactly when the keyword occurs at some index |
| Text.OccursInMiddle | colab_app.py:226 | a keyword occurs in `p + k + q` at index `|p|` |
| Text.NotContainsWithoutFirstChar | colab_app.py:226 | a keyword whose first character is absent from the text does not occur in it |
| Text.LeadingSpaces | streamlit_app.py:212 | the count of leading whitespace characters: all before it are spaces, the next one is not |
| Text.TrailingSpaces | streamlit_app.py:212 | the count of trailing whitespace characters, with the same two-sided bound |
| Text.Strip | streamlit_app.py:212-214 | `str.strip` returns a contiguous slice that neither starts nor ends with whitespace, and is empty exactly when the input is all whitespace |
| Text.StripNoSpace | streamlit_app.py:212 | stripping a string with no outer whitespace leaves it unchanged |
| Text.Title | streamlit_app.py:282 | `str.title` keeps the length: a letter after a letter is lowered and any other letter is raised |
| Text.TitleScanAt | streamlit_app.py:282 | the left-to-right scan that computes `title` yields, at each index, the character the rule prescribes |
| Text.TitleIdempotent | streamlit_app.py:282 | title-casing a title-cased name changes nothing |
| Text.DigitChar | colab_app.py:808 | each value below ten has a digit character of that value |
| Text.NatToDigits | colab_app.py:814 | `str(n)` of a natural number is a non-empty digit string with no leading zero |
| Text.NatToDigitsRoundTrip | colab_app.py:814 | reading back `str(n)` gives `n` |
| Text.PyIntMeaning | colab_app.py:247 | `int(s)` succeeds exactly when the stripped input is an optionally signed string of 1 to 4300 digits, and it then returns that string's value |
| Text.PyIntRoundTrip | colab_app.py:339 | `int(str(n)) == n` for every integer whose decimal form `str` can write (at most 4300 digits) |
| Text.PyIntOfDigits | streamlit_app.py:268 | `int` of a non-empty digit string is its value when it has at most 4300 digits, and fails otherwise |
| Text.PyIntOfNatural | colab_app.py:339 | `int` of a natural number's decimal form is that number, and it fails when the form has more than 4300 digits |
| Text.PyIntOfNegative | colab_app.py:247 | `int` of `-` followed by a positive number's digits is the negative number, and it fails past 4300 digits |
| Text.NegativeLiteral | colab_app.py:247 | a stripped `-` and digit string reads as the negative of its value, up to 4300 digits |
| Text.PyInt | colab_app.py:247 | definition of `int(s)`: strip, an optional sign, then 1 to 4300 digits; anything else fails |
| Text.IntToString | colab_app.py:814 | definition of `str(n)`: a minus sign for negative numbers, then the digits; it fails past 4300 digits |
| Text.Pad2 | colab_app.py:808 | `f"{n:02d}"` is two characters long |
| Text.Pad2Digits | colab_app.py:808 | the two characters are digits whose value is `n` |
| Text.Pad2Injective | colab_app.py:808 | every two-digit string is the padded form of its own value |
| Text.Pad4 | streamlit_app.py:259 | the four-digit year field is four characters long |
| Text.Pad4Digits | streamlit_app.py:259 | the four characters are digits whose value is `n` |
| Text.Pad4Injective | streamlit_app.py:259 | every four-digit string is the padded form of its own value |
| Text.DigitsValueBound | colab_app.py:247 | a string of `k` digits has a value below `10^k` |
| Text.LastDigit | colab_app.py:247 | appending a digit multiplies by ten and adds it, and this can be undone |
| Text.DigitsValueInjective | colab_app.py:247 | two digit strings of the same length with the same value are equal |
| Text.TakeDigits | streamlit_app.py:249 | the longest prefix made of digits, followed by a non-digit or the end |
| Text.FirstDigitRun | streamlit_app.py:249 | `re.findall(r"\d+", s)[0]` fails exactly when there is no digit, and otherwise returns a maximal run of digits with no digit before it |
| Text.FirstRunInt | streamlit_app.py:249 | `int(re.findall(r"\d+", s)[0])` succeeds exactly when there is a digit and the first run has at most 4300 digits, and then gives that run's value |
| Text.FirstRunIsDigits | streamlit_app.py:249 | a first run of digits is a non-empty digit string |
| Text.LexLeTotal | colab_app.py:149 | the string order is total |
| Text.LexLeAntisymmetric | colab_app.py:149 | the string order is antisymmetric |
| Text.LexLeTransitive | colab_app.py:149 | the string order is transitive |
| Text.LexLeCommonPrefix | colab_app.py:149 | a shared prefix does not change how two strings compare |
| Text.LexLeDifferentPrefix | colab_app.py:149 | prefixes of equal length that differ decide the comparison |
| Text.Pad2Order | colab_app.py:808 | zero-padded two-digit fields compare as their values do |
| Validators.IndexOf | colab_app.py:198-200 | the first position of a character, or none exactly when it is absent |
| Validators.LastIndexOf | colab_app.py:198-200 | the last position of a character, or none exactly when it is absent |
| Validators.FirstIndexIsUnique | colab_app.py:198-200 | a position with no earlier occurrence is the first position |
| Validators.LastIndexIsUnique | colab_app.py:198-200 | a position with no later occurrence is the last position |
| Validators.EmailOkMatchesPattern | colab_app.py:198-200 | the email decision procedure accepts exactly the strings the regular expression matches, for both the lower-case and the any-case top-level domain |
| Validators.EmailOkIsSound | colab_app.py:198-200 | an accepted address has a split into a local part, `@`, a host, `.` and a top-level domain of at least two letters |
| Validators.EmailOkIsComplete | streamlit_app.py:175-176 | every such split is accepted, including addresses whose host itself contains dots |
| Validators.ValidateEmail | colab_app.py:198-200 | definition: the colab email rule, whose top-level domain must be lower case |
| Validators.IsValidEmail | streamlit_app.py:175-176 | definition: the streamlit email rule, whose top-level domain may be of either case |
| Validators.HostOkOf | streamlit_app.py:175-176 | a host of email characters followed by `.` and a domain of two or more letters passes the host check |
| Validators.ValidateEmailImpliesIsValidEmail | streamlit_app.py:175-176 | every address the colab copy accepts is also accepted by the streamlit copy |
| Validators.ValidatePhoneImpliesIsValidPhone | streamlit_app.py:179-180 | every phone number the colab copy accepts (`+` optional, then 10 to 15 digits) is also accepted by the streamlit copy |
| Validators.ValidatePhone | colab_app.py:202-204 | definition: an optional `+`, then 10 to 15 digits |
| Validators.IsValidPhone | streamlit_app.py:179-180 | definition: a `+` or digit, then six or more digits, whitespace, parentheses or hyphens |
| Validators.ValidatePhoneMatchesPattern | colab_app.py:202-204 | the colab phone check accepts exactly the strings `^\+?\d{10,15}$` matches, read as an optional plus followed by 10 to 15 digits |
| Validators.IsValidPhoneMatchesPattern | streamlit_app.py:179-180 | the streamlit phone check accepts exactly the strings `^[+\d][\d\s()-]{6,}$` matches, read as one lead character followed by six or more tail characters |
| Validators.GuestCountOk | colab_app.py:248 | definition: a party of 1 to 20 guests |
| Validators.ClampGuests | streamlit_app.py:250 | `max(1, min(20, n))` always lies in 1..20, keeps counts already in range, and sends larger counts to 20 and smaller ones to 1 |
| Validators.FormatIsoDate | streamlit_app.py:492 | `date.isoformat()` is ten characters long |
| Validators.ParseIsoDate | streamlit_app.py:259 | `fromisoformat` accepts only real calendar dates, and only their canonical `YYYY-MM-DD` text |
| Validators.IsoDateCanonical | streamlit_app.py:259 | a ten-character `YYYY-MM-DD` text of a real date is that date's canonical form |
| Validators.IsoDateRoundTrip | streamlit_app.py:259 | parsing the ISO form of a real date gives that date back |
| Validators.ShortField | colab_app.py:442 | a `%m`/`%d`/`%H`/`%M` field of one or two digits whose value lies in the allowed range |
| Validators.StrptimeDate | colab_app.py:442 | `strptime('%Y-%m-%d')` yields only real calendar dates |
| Validators.StrptimeDateAcceptsIsoForm | colab_app.py:442 | `strptime('%Y-%m-%d')` reads back the ISO form of every real date |
| Validators.StrptimeClock | colab_app.py:454 | `strptime('%H:%M')` yields only valid clock times |
| Validators.StrptimeClockAcceptsPaddedForm | colab_app.py:454 | `strptime('%H:%M')` reads back the `HH:MM` form of every clock time |
| Validators.TypedClock | streamlit_app.py:268-269 | splitting on `:` gives exactly two parts whose `int` values form a valid clock time; a successful result comes from such a split |
| Validators.TypedClockAcceptsPaddedForm | streamlit_app.py:268-269 | the typed-time reader accepts the `HH:MM` form of every clock time |
| Validators.OpeningHoursAreClosed | streamlit_app.py:271-272 | both 11:00 and 22:00 are inside opening hours; 10:59 and 22:01 are not; inside means 11:00 to 22:00 inclusive |
| Validators.WithinOpeningHours | streamlit_app.py:271-272 | definition: a time from 11:00 to 22:00, both ends included |
| Validators.FormatClock | streamlit_app.py:275 | definition of `f"{hh:02d}:{mm:02d}"` |
| Slots.TwelveHourRoundTrip | colab_app.py:786-790 | the 12-hour clock gives 1..12, PM from noon, 12 for midnight, and converts back to the same 24-hour hour |
| Slots.Hour12 | colab_app.py:788-789 | definition: hours after noon lose twelve, and hour 0 reads 12 |
| Slots.To24 | colab_app.py:786-790 | definition: the inverse reading of a 12-hour clock with its AM or PM |
| Slots.TwelveHourTextShape | colab_app.py:811-814 | a 12-hour label is the hour, `:`, two minute digits, a space and AM or PM |
| Slots.TwelveHourText | colab_app.py:811-814 | definition of the 12-hour label `f"{hour_12}:{minute:02d} {ampm}"` |
| Slots.SlotClock | colab_app.py:800-822 | the `k`-th slot is `30k` minutes after opening |
| Slots.SlotClockValid | colab_app.py:800-822 | every one of the 23 slots is a valid time within opening hours |
| Slots.SlotsUpTo | colab_app.py:800-822 | the first `n` slots form a list of length `n` |
| Slots.SlotsUpToAt | colab_app.py:800-822 | the `k`-th generated slot is the slot of the `k`-th half hour |
| Slots.TimeSlots | colab_app.py:800-822 | the generating loop produces exactly the 23 half-hour slots from 11:00 to 22:00, in order |
| Slots.AppendSlot | colab_app.py:815-822 | one iteration appends the current slot, and the half-hour step reaches the next slot's time |
| Slots.SlotsUpToSnoc | colab_app.py:815-822 | the first `k + 1` slots are the first `k` followed by the `k`-th |
| Slots.PastClosing | colab_app.py:803 | the loop stops exactly after the last slot |
| Slots.NextHalfHour | colab_app.py:819-822 | adding thirty minutes either moves to the next hour or to half past |
| Slots.AllSlotsAt | colab_app.py:800-822 | the `k`-th slot's value is the `HH:MM` of its time, and `strptime` reads that value back |
| Slots.AllSlotsEnds | colab_app.py:802-803 | the first slot is `11:00` and the last is `22:00` |
| Slots.OpeningAndClosingText | colab_app.py:749-750 | opening and closing time print as `11:00` and `22:00` |
| Slots.AllSlotsCoverOpeningHours | colab_app.py:800-822 | every whole or half hour within opening hours is one of the slots |
| Slots.AllSlotsIncreasing | colab_app.py:800-822 | the slots are strictly increasing in time and in their stored text, so their text order matches time order |
| Slots.FormatClockOrder | colab_app.py:149 | stored `HH:MM` values compare as the times they denote |
| Slots.FilterLunch | colab_app.py:825 | the lunch tab shows exactly the slots whose hour is in 11..14 |
| Slots.FilterLunchCounts | colab_app.py:825 | the lunch tab holds each such slot as often as the input does, and no other slot |
| Slots.FilterLunchAppend | colab_app.py:825 | the lunch filter keeps the input's order: filtering a concatenation concatenates the filtered parts |
| Slots.FilterDinner | colab_app.py:828 | the dinner tab shows exactly the slots whose hour is in 17..22 |
| Slots.FilterDinnerCounts | colab_app.py:828 | the dinner tab holds each such slot as often as the input does, and no other slot |
| Slots.FilterDinnerAppend | colab_app.py:828 | the dinner filter keeps the input's order in the same way |
| Slots.SlotHour | colab_app.py:825 | definition: the hour read back from a slot's stored `HH:MM` value |
| Slots.IsLunch | colab_app.py:825 | definition: the hour lies in 11..14 |
| Slots.IsDinner | colab_app.py:828 | definition: the hour lies in 17..22 |
| Slots.BookingSlots | colab_app.py:824-839 | definition: the lunch tab's slots followed by the dinner tab's |
| Slots.Offered | colab_app.py:781-783 | definition: a generated slot whose hour is outside 15..16, the reference against which the screens are checked |
| Slots.BookingSlotsMembers | colab_app.py:824-828 | the booking screen shows exactly the generated slots that are lunch or dinner |
| Slots.BookingSlotsSkipAfternoon | colab_app.py:824-828 | a generated slot is shown exactly when its hour is outside 15..16 |
| Slots.BookingSlotIsOffered | colab_app.py:781-783 | a shown slot is offered |
| Slots.OfferedIsShown | colab_app.py:781-783 | an offered slot is shown |
| Slots.OfferedIsBookingSlot | colab_app.py:781-783 | a slot is offered exactly when it is shown on the booking screen |
| Slots.OfferedSlotIsOpen | colab_app.py:781-783 | every slot either screen offers parses as a time within opening hours |
| Slots.BookingSlotsAreGenerated | colab_app.py:824-828 | the booking screen shows only generated slots |
| Slots.SlotIndex | colab_app.py:800-822 | a generated slot has a position among the 23 |
| Reservations.UniqueIdsCons | colab_app.py:99 | a list with a head has unique ids exactly when its tail does and the head's id is new |
| Reservations.MaxId | colab_app.py:121 | `MAX(id)` is an id of some row and bounds every row's id |
| Reservations.NextIdOf | colab_app.py:118-124 | the next id is 1 for an empty table, and otherwise the largest id plus one |
| Reservations.IsNextIdUnique | colab_app.py:118-124 | the next id is determined by the rows |
| Reservations.NextIdIsFresh | colab_app.py:118-124 | the next id is not in use |
| Reservations.NextIdSkipsGaps | streamlit_app.py:103-109 | the next id after ids 1 and 3 is 4, not the freed 2 |
| Reservations.NextIdAfterInsert | colab_app.py:118-143 | inserting a row under the next id raises the next id by one |
| Reservations.NextIdAfterDeletingNewest | colab_app.py:173-178 | deleting the newest row makes its id available again |
| Reservations.KeyLeTotal | colab_app.py:149 | any two rows compare by (date, time) |
| Reservations.KeyLeTransitive | colab_app.py:149 | the (date, time) order is transitive |
| Reservations.SortedCons | colab_app.py:149 | a row no later than every row of a sorted list can go in front |
| Reservations.InsertSorted | colab_app.py:149 | inserting into the listing adds exactly that row |
| Reservations.InsertSortedKeepsSorted | colab_app.py:149 | inserting into a sorted listing keeps it sorted |
| Reservations.SortByKey | colab_app.py:145-152 | the listing is sorted by (date, time) and holds exactly the table's rows |
| Reservations.Remove | colab_app.py:173-178 | deleting by id keeps exactly the rows with other ids, and deleting a missing id changes nothing |
| Reservations.RemoveKeepsUniqueIds | colab_app.py:173-178 | deleting keeps the ids unique |
| Reservations.UpdateRows | colab_app.py:154-171 | an update by id keeps the number of rows |
| Reservations.UpdateRowsKeepsIds | streamlit_app.py:145-162 | an update keeps every id and their uniqueness, and an update for a missing id changes nothing |
| Reservations.UpdateRowsAt | streamlit_app.py:145-162 | an update for an existing id replaces that row's columns and nothing else |
| Reservations.UpdateRowsAddsNoId | colab_app.py:154-171 | an update creates no new id |
| Reservations.MirrorAfterUpdate | colab_app.py:939-942 | editing an entry of a cached listing and updating the table by its id keep the two holding the same rows |
| Reservations.Find | streamlit_app.py:428-429 | the lookup by id fails exactly when no row has that id, and otherwise returns a row with that id |
| Reservations.FindUnique | streamlit_app.py:428-429 | with unique ids the lookup returns the one row with that id |
| Reservations.Table.constructor | colab_app.py:88-112 | a new table is empty |
| Reservations.Table.NextId | colab_app.py:118-124 | `get_next_reservation_id` returns the next id of the current rows |
| Reservations.Table.ListAll | streamlit_app.py:135-142 | `get_all_reservations` returns the rows sorted by (date, time) |
| Reservations.Table.Insert | streamlit_app.py:112-132 | the INSERT adds the row at the end exactly when its id is free, keeps the ids unique, and otherwise leaves the table unchanged |
| Reservations.Table.UpdateDetails | colab_app.py:154-171 | the colab update sets name, guests, date, time, email and phone of the row with that id, and keeps special requests |
| Reservations.Table.Update | streamlit_app.py:145-162 | the streamlit update sets the same six columns and special requests |
| Reservations.Table.Delete | streamlit_app.py:165-170 | the DELETE removes the row with that id |
| Reservations.Without | streamlit_app.py:360 | `pop(key)` removes exactly that key from the draft |
| Reservations.WithoutKeepsOthers | streamlit_app.py:360 | `pop(key)` keeps every other key's value |
| Reservations.ToReservation | colab_app.py:126-143 | the saved row takes every column from the draft, the given id, and an empty special request when none was given |
| Reservations.Complete | streamlit_app.py:308-330 | definition: the draft holds guests, date, time, name, email and phone, the keys the save reads |
| ColabBot.GreetingIntent | colab_app.py:225-243 | manage, cancel or modify wins over book or table; book or table without any of them starts a booking; the test is on the lower-cased input |
| ColabBot.YesWordsAreConfirmWords | colab_app.py:292 | every yes-word also confirms a booking, while "correct" and "right" confirm a booking but are not yes-words |
| ColabBot.FieldWord | colab_app.py:314-335 | only guests, date, time, name, email and phone can be corrected (never special requests) |
| ColabBot.ApplyEdit | colab_app.py:410-506 | a field modification never changes the reservation's id or its special requests |
| ColabBot.EditChangesOnlyThatField | colab_app.py:410-506 | a successful modification changes only the chosen field and stores the value the step validated |
| ColabBot.EditDateFromToday | colab_app.py:440-450 | a typed ISO date is accepted exactly when it is not before today |
| ColabBot.EditTimeWithinHours | colab_app.py:452-463 | a typed `HH:MM` is accepted exactly when it is within opening hours |
| ColabBot.BookIntentOf | colab_app.py:226-229 | an input with "book" and neither `m` nor `c` starts a booking |
| ColabBot.ManageIntentOf | colab_app.py:230-240 | an input with "manage" always asks for management |
| ColabBot.BookTextLower | colab_app.py:959 | the "Book a Table" button's text lower-cases to "i want to book a table" |
| ColabBot.BookWordInBookText | colab_app.py:959 | that text holds "book" and neither `m` nor `c` |
| Chat.ManageWordInManageText | colab_app.py:964 | the "Manage Reservations" button's text, shared by both copies, holds "manage" |
| ColabBot.BookTextIntent | colab_app.py:958-961 | the "Book a Table" button's text starts a booking |
| ColabBot.ManageTextIntent | colab_app.py:963-966 | the "Manage Reservations" button's text asks for management |
| ColabBot.Controller.constructor | colab_app.py:181-195 | a new session holds the welcome message, the greeting step, an empty draft, the sorted listing and the next id |
| ColabBot.Controller.AddMessage | colab_app.py:206-207 | appends one message and changes nothing else |
| ColabBot.Controller.ResetChat | colab_app.py:209-218 | back to the welcome message, the greeting step and an empty draft, with the listing and next id reloaded; the selected index and the field being modified are kept |
| ColabBot.Controller.ProcessInput | colab_app.py:220-537 | keeps the invariant and appends the user's line exactly as typed; the date and time steps (of a booking or a modification) add nothing more and change nothing, every other step adds at least one reply; and changes the table only at confirmation, cancel confirmation and field modification |
| ColabBot.Controller.RespondBooking | colab_app.py:225-355 | the booking branches keep the invariant, only append to the chat, and write the table only at confirmation |
| ColabBot.Controller.RespondManaging | colab_app.py:357-514 | the managing branches keep the invariant, only append to the chat, and write the table only at cancel confirmation and field modification |
| ColabBot.Controller.OnGreeting | colab_app.py:225-243 | a booking intent moves to the guests step; a manage intent shows the listing and moves to selection, or reports that there are no bookings; anything else offers help |
| ColabBot.Controller.OnGuests | colab_app.py:245-255 | `int(input)` in 1..20 is stored and moves to the date step; out of range or not a number stays with the matching reply |
| ColabBot.Controller.OnName | colab_app.py:265-271 | a name of two or more characters after stripping is stored as typed and moves to email; otherwise it stays |
| ColabBot.Controller.OnEmail | colab_app.py:273-279 | a valid address is stored and moves to phone; otherwise it stays |
| ColabBot.Controller.OnPhone | colab_app.py:281-289 | a valid phone number is stored and moves to confirmation with a summary; otherwise it stays |
| ColabBot.Controller.SaveDraft | colab_app.py:294-309 | the draft is stored under the cached next id, the listing is reloaded, the next id increases by one, and the draft is emptied |
| ColabBot.Controller.OnConfirmation | colab_app.py:291-312 | a confirm word saves the draft as above; any other answer asks what to correct and leaves the table alone |
| ColabBot.Controller.OnCorrection | colab_app.py:314-335 | a known field word moves back to that field's step with its prompt, keeping the draft; anything else stays |
| ColabBot.Controller.OnSelectReservation | colab_app.py:337-355 | an entry number from 1 to the listing's length selects that entry; any other number or text stays |
| ColabBot.Controller.OnManageReservation | colab_app.py:357-365 | "cancel" asks for confirmation before the modify words are tested; a modify, change or edit word asks which field; anything else asks again |
| ColabBot.Controller.OnConfirmCancel | colab_app.py:367-381 | a yes-word deletes the selected booking and reloads the listing; any other answer keeps it; both end at the greeting |
| ColabBot.Controller.OnSelectModification | colab_app.py:383-408 | the lower-cased word is remembered; a field word moves to the step that edits it; anything else stays |
| ColabBot.Controller.StoreEdit | colab_app.py:486-504 | an edited entry replaces the selected one in the listing and in the table, and moves to the further-changes question |
| ColabBot.Controller.OnModifyField | colab_app.py:410-506 | a value that passes the field's check is written to the cache and the table; otherwise the reply names the error and nothing changes |
| ColabBot.Controller.OnPostConfirmation | colab_app.py:516-525 | after a booking, whatever the answer, two replies are given and the dialogue returns to the greeting |
| ColabBot.Controller.OnAdditionalChanges | colab_app.py:527-537 | a yes-word asks which field to change next; anything else re-reads the listing and returns to the greeting |
| ColabBot.Controller.ConfirmDate | colab_app.py:720-737 | the picked date is stored as its ISO text, which parses back to the date, and moves to the time step |
| ColabBot.Controller.SelectTime | colab_app.py:781-798 | an offered slot's value is stored and moves to the name step |
| ColabBot.Controller.ConfirmBooking | colab_app.py:615-639 | the confirm button saves as the typed confirm word does: the row is appended under the cached id, the listing is reloaded, the id goes up by one, the draft is emptied, and the selected index and the field being modified are unchanged |
| ColabBot.Controller.EditDetails | colab_app.py:641-644 | the edit button moves to the correction step and keeps the draft |
| ColabBot.Controller.ConfirmNewDate | colab_app.py:873-895 | the selected entry gets the picked ISO date in the cache and the table |
| ColabBot.Controller.ModifyTimeSlot | colab_app.py:929-949 | the selected entry gets the pressed slot's time in the cache and the table |
| ColabBot.Controller.PressBooking | colab_app.py:958-961 | a text with a booking intent sent at the greeting moves to the guests step with the user line and two replies; the draft, the listing, the next id, the selected index and the field being modified are unchanged |
| ColabBot.Controller.BookButton | colab_app.py:958-961 | "Book a Table" at the greeting starts a booking and changes nothing else |
| ColabBot.Controller.ManageButton | colab_app.py:963-966 | "Manage Reservations" at the greeting appends the user line and then the numbered listing when there are bookings (moving to selection), or the no-bookings reply (staying at the greeting); the draft, the listing, the next id, the selected index and the field being modified are unchanged |
| ColabBot.Covers | colab_app.py:240-303 | definition: each step's draft holds the values that the steps before it write |
| ColabBot.Mirrors | colab_app.py:190-195 | definition: the cached listing holds the table's rows, and the next id exceeds every row's id |
| ColabBot.StepReady | colab_app.py:336-345 | definition: the management steps have a selected index inside the listing, and `Covers` holds |
| ColabBot.ReloadMirrors | colab_app.py:145-152 | re-reading the table keeps the cache equal to the table's rows |
| ColabBot.FreshMirrors | colab_app.py:190-195 | a fresh listing with the next id satisfies the cache invariant |
| ColabBot.CachedIdIsFree | colab_app.py:295-297 | the cached next id is never taken, so the booking insert cannot clash |
| ColabBot.InsertMirrors | colab_app.py:294-303 | after a booking with the largest id, the next id is that id plus one and the cache invariant holds again |
| ColabBot.RemoveMirrors | colab_app.py:369-375 | after a deletion, the reloaded listing satisfies the cache invariant |
| ColabBot.EditMirrors | colab_app.py:486-491 | editing the selected entry and updating the table keep the cache invariant |
| StreamlitBot.IntentOf | streamlit_app.py:219-244 | a booking keyword wins; a manage keyword without one asks for an id; the test is on the lower-cased input |
| StreamlitBot.FieldKey | streamlit_app.py:340-363 | the 13 correction words map to draft keys; special requests are reached exactly by "special" and "requests" |
| StreamlitBot.EveryKeyHasAWord | streamlit_app.py:342-356 | every draft key can be corrected by some word |
| StreamlitBot.SpecialValue | streamlit_app.py:302-306 | definition of the stored request: "no", "none" and "n/a" (in any case) give an empty request, anything else is kept as typed |
| StreamlitBot.Prefix10 | streamlit_app.py:259 | `s[:10]` is the first ten characters, or all of a shorter string |
| StreamlitBot.CoversComplete | streamlit_app.py:302-338 | from the special-requests step on, `Covers` means the draft has every key |
| StreamlitBot.Covers | streamlit_app.py:226-338 | definition: each step's draft holds the keys that the steps before it write |
| StreamlitBot.KeyStep | streamlit_app.py:358-363 | definition: the step named after each draft key, where a correction resumes |
| StreamlitBot.Declines | streamlit_app.py:303 | definition: the lowered input is "no", "none" or "n/a" |
| StreamlitBot.CorrectionCovers | streamlit_app.py:358-363 | removing a key from a complete draft gives a draft that lacks exactly that key and is ready for the step that asks for it |
| StreamlitBot.PickedDateAccepted | streamlit_app.py:491-492 | the sidebar date's ISO text fits the ten-character prefix and parses back to the date |
| StreamlitBot.BookKeywordBooks | streamlit_app.py:221 | an input containing "book" has a booking intent |
| StreamlitBot.ReservationKeywordBooks | streamlit_app.py:221 | an input containing "reservation" has a booking intent |
| StreamlitBot.BookTextIntent | streamlit_app.py:514-515 | the "Book a Table" text has a booking intent |
| StreamlitBot.ManageKeywordCounts | streamlit_app.py:222 | an input containing "manage" has a manage keyword |
| StreamlitBot.ReservationInManageText | streamlit_app.py:518 | "reservation" occurs in the "Manage Reservations" text |
| StreamlitBot.ManageTextIntent | streamlit_app.py:221-222 | the "Manage Reservations" text has a manage keyword, but its "reservations" makes it a booking intent |
| StreamlitBot.ButtonTextsStripped | streamlit_app.py:212 | both button texts pass `strip` unchanged |
| StreamlitBot.Session.constructor | streamlit_app.py:185-195 | a new session has no messages, an empty draft, the greeting step and no id being edited |
| StreamlitBot.Session.AddMessage | streamlit_app.py:200-201 | appends one message and changes nothing else |
| StreamlitBot.Session.ResetChat | streamlit_app.py:204-208 | no messages, an empty draft, the greeting step and no id being edited |
| StreamlitBot.Session.ProcessInput | streamlit_app.py:211-471 | blank input changes nothing; otherwise the stripped line and at most one reply are appended; the greeting step always answers one way; the `KeyError` can only arise at special requests or confirmation with an incomplete draft, and never while `Covers` holds; `Covers` is kept outside the manage action; the table changes only at confirmation and manage action; after a booking only the user line is added |
| StreamlitBot.Session.RespondBooking | streamlit_app.py:226-363 | the booking branches add at most one reply, keep `Covers`, never raise while it holds, and write the table only at confirmation |
| StreamlitBot.Session.RespondDetails | streamlit_app.py:247-300 | the six detail steps add exactly one reply and keep `Covers` |
| StreamlitBot.Session.RespondClosing | streamlit_app.py:302-363 | special requests, confirmation, correction and request re-entry add at most one reply and raise only with an incomplete draft |
| StreamlitBot.Session.RespondManaging | streamlit_app.py:425-471 | the managing branches add one reply and end at the id step, the action step, the greeting or a correction; the id step does not touch the table |
| StreamlitBot.Session.OnGreeting | streamlit_app.py:226-232 | every input at the greeting gets the hello reply and moves to the intent step |
| StreamlitBot.Session.OnAwaitIntent | streamlit_app.py:234-244 | a booking intent clears the draft and asks for guests; a manage intent asks for an id; anything else asks again |
| StreamlitBot.Session.OnGuests | streamlit_app.py:247-254 | `int` of the first run of digits, clamped to 1..20, is stored and moves to the date step; input without digits, or whose first run is longer than 4300 digits, gets the invalid-guests reply and stays |
| StreamlitBot.Session.OnDate | streamlit_app.py:256-264 | when the first ten characters are an ISO date, those ten characters are stored and the step moves to time; otherwise it stays |
| StreamlitBot.Session.OnTime | streamlit_app.py:266-279 | a well-formed time within opening hours is stored and moves to name; one outside the hours or malformed stays with its own reply |
| StreamlitBot.Session.ApplyTime | streamlit_app.py:268-279 | applies a parse result with the same three outcomes |
| StreamlitBot.Session.OnName | streamlit_app.py:281-284 | any name is stored title-cased and moves to email |
| StreamlitBot.Session.OnEmail | streamlit_app.py:286-292 | a valid address is stored and moves to phone; otherwise it stays |
| StreamlitBot.Session.OnPhone | streamlit_app.py:294-300 | a valid phone number is stored and moves to special requests; otherwise it stays |
| StreamlitBot.Session.OnSpecial | streamlit_app.py:302-324 | the request is stored first; then the summary raises exactly when an earlier key is missing; otherwise the summary is shown and moves to confirmation |
| StreamlitBot.Session.OnConfirm | streamlit_app.py:326-338 | "confirm" (after lower and strip) saves the complete draft under the next id and moves on; "edit" asks what to change; anything else asks again |
| StreamlitBot.Session.ApplyConfirm | streamlit_app.py:326-338 | the same three outcomes for the already normalised command |
| StreamlitBot.Session.Save | streamlit_app.py:327-333 | the row is appended under the table's next id, or `KeyError` is raised with nothing written when the draft is incomplete |
| StreamlitBot.Session.OnCorrection | streamlit_app.py:340-363 | a known word removes its key and moves to the step for that key; anything else stays |
| StreamlitBot.Session.OnReenterSpecial | streamlit_app.py:419-422 | the request is stored, the step returns to confirmation and the reply is the continue-or-edit prompt |
| StreamlitBot.Session.OnManageId | streamlit_app.py:425-446 | `int` of the first run of digits becomes the edited id; an existing id moves to the action step, a missing one stays; input without digits, or whose first run is longer than 4300 digits, gets the numeric-id reply and keeps the edited id |
| StreamlitBot.Session.OnManageAction | streamlit_app.py:448-471 | "cancel" deletes the edited id and returns to the greeting; "show" displays that row or reports it gone; "update" moves to correction; anything else asks again; only cancel writes |
| StreamlitBot.Session.BookButton | streamlit_app.py:514-516 | at the greeting it gives the hello reply and keeps the draft; at the intent step it starts a booking; at both it never raises, leaves the table alone and keeps the edited id |
| StreamlitBot.Session.ManageButton | streamlit_app.py:517-519 | the same as the booking button, because its text has a booking intent: the hello reply with the draft kept at the greeting, a new booking at the intent step, and at both no raise, no table change and the edited id kept |
| StreamlitBot.Session.PressAtStart | streamlit_app.py:512-519 | a stripped text with a booking intent, sent at the greeting, gives the hello reply and keeps the draft; at the intent step it starts a booking; at both it never raises, does not touch the table and keeps the edited id |
| StreamlitBot.Session.UsePicks | streamlit_app.py:488-495 | at the date step the picked date is accepted and moves to time; at the time step the picked time is accepted within opening hours; at any other step nothing happens; the picked texts need no stripping (`PickedTextsStripped`) |
| StreamlitBot.Session.SendDate | streamlit_app.py:491-492 | sending a canonical ISO date stores it and moves to time |
| StreamlitBot.Session.SendTime | streamlit_app.py:493-494 | within hours the picked time is stored as `HH:MM` and the step moves to name, otherwise it stays; this is the typed-time step's outcome, because `Validators.TypedClockAcceptsPaddedForm` proves that its parse of the `HH:MM` text is the picked time |
| StreamlitBot.PickedTextsStripped | streamlit_app.py:491-494 | the sidebar's date and time texts are non-empty and pass `strip` unchanged |
| StreamlitBot.NextIdIsFree | streamlit_app.py:329-331 | the id chosen for a booking is not in use |
| StreamlitBot.ListingHasSameIds | streamlit_app.py:429 | the listing holds an id exactly when the table does |
| StreamlitBot.ShownRowIsTheRow | streamlit_app.py:453-455 | the first row of the listing with that id is the table's row with that id |

## Left out

- Rendering (`st.markdown`, columns, tabs, styling), `st.rerun`, the
  "All Reservations" viewer, the database download, the footer and the
  `init_db`/`ensure_db` schema calls are user-interface or I/O work with
  no dialogue logic. The table is an in-memory store, and each SQLite call
  is one method of `Reservations.Table`.
- The `created_at` column has a default timestamp that no code reads, so
  it is not modelled.
- colab_app.py creates the column `special_requests` (line 106) but its
  INSERT names `special_request` (line 130). Its `update_reservation`
  passes eight values for seven placeholders (lines 158-167): `id` is in
  the WHERE position, and special requests is an extra eighth value.
  SQLite would reject both statements.
  The model gives both operations their evident meaning: the insert
  stores special requests, and the update sets six columns by id.
- The replies are tags, not the text shown. The friendly date and time
  wording (`strftime('%A, %B %d, %Y')`) is not modelled.
- The dependence on today's date is a parameter `today`, and the pickers
  are parameters of the widget methods. The picker bounds (minimum date
  today, maximum date 90 days ahead) are not modelled.
- Text handling is ASCII only:
  - `lower`, `title`, `\w`, `\d` and `\s` ignore non-ASCII letters, digits
    and spaces;
  - `int()` of a string with `_` separators or non-ASCII digits is
    treated as a failure;
  - `int()` and `str()` fail past 4300 decimal digits, CPython's default
    limit since 3.11 (and 3.10.7). A limit changed through
    `sys.set_int_max_str_digits` or `PYTHONINTMAXSTRDIGITS`, and older
    versions without a limit, are not modelled;
  - `fromisoformat` is restricted to `YYYY-MM-DD`; the other forms that
    newer Python versions accept are not modelled;
  - `strptime` with a space-padded field and a `$` matching before a final
    newline are not modelled.
- `ColabBot.ApplyEdit`: the date and time branches of `modify_field`
  (colab_app.py:440-463) are modelled. The dialogue cannot reach them,
  because the modify-date and modify-time steps are taken by widgets.
- The "help" intent of streamlit_app.py:223 is computed but never tested,
  so it is not modelled.
- The draft's `id` key is not modelled. streamlit_app.py:330 stores it
  before the save, but nothing reads it afterwards except the INSERT,
  which receives the id directly in the model.
- The re-entry branches at streamlit_app.py:366-417 (`guests` through
  `phone` after a correction) duplicate the earlier `elif` tests for the
  same step names. They can never be reached, so they are not modelled.
  The `special_requests` branch (419-422) is reachable and is modelled.
- `Reservations.Table.Update` (streamlit_app.py:145-162) is modelled, but
  the streamlit controller never calls it.
- `StreamlitBot.Session.ManageButton`: the streamlit button sends "I want
  to manage my reservations". "reservation" is a booking keyword, so the
  button starts a booking. The contract states that.
- `ColabBot.Controller.ProcessInput`: its ensures do not repeat each
  step's exact outcome, which the per-step methods (`OnGreeting` through
  `OnAdditionalChanges`) state; it only appends the user line and
  dispatches to them.
- `StreamlitBot.Session.ProcessInput`: its ensures do not repeat each
  step's exact outcome, which the per-step methods state.
- `StreamlitBot.Session.PressAtStart`: at steps other than the greeting
  and intent steps, the ensures state only the invariant. The
  quick-action buttons there behave as typed text does.
- Exceptions other than the two `KeyError`s are caught in the source
  (`try`/`except`). They are modelled as the error branch of an `Option`.

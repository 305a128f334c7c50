/**
  * The dialogue controller of colab_app.py: `process_input`, the chat and
  * reset helpers, and the widget handlers that advance the steps the text
  * path leaves alone (date, time, the confirmation screen, the date and time
  * of a modification).
  */
module ColabBot {
  import opened Wrappers
  import opened Text
  import opened Validators
  import opened Slots
  import opened Reservations
  import opened Chat

  /** `st.session_state.current_step` */
  datatype Step =
    | Greeting | AskGuests | AskDate | AskTime | AskName | AskEmail | AskPhone
    | Confirmation | Correction
    | SelectReservation | ManageReservation | ConfirmCancel | SelectModification
    | ModifyField | ModifyDate | ModifyTime | AdditionalChanges
    | PostConfirmation

  /** The steps that work on `reservations[selected_res_index]`. */
  predicate Managing(s: Step) {
    s.ManageReservation? || s.ConfirmCancel? || s.SelectModification? || s.ModifyField?
    || s.ModifyDate? || s.ModifyTime? || s.AdditionalChanges?
  }

  /** The assistant's replies, as tags; an id in the text is kept. */
  datatype Reply =
    | Welcome | BookingStarted | PromptGuests | ReservationList(rows: seq<Reservation>) | NoReservations | OfferHelp
    | GuestsAccepted(count: int) | GuestsOutOfRange | NotANumber
    | PromptEmailAddress | InvalidName | PromptPhoneNumber | InvalidEmail | ReviewDetails | InvalidPhone
    | Confirmed(id: int) | AskCorrection
    | PromptNewDate | PromptNewTime | PromptName | PromptEmail | PromptPhone | UnknownCorrection
    | Selected(id: int) | InvalidSelection | AskCancelConfirm | AskModification | AskCancelOrModify
    | Cancelled(id: int) | KeptReservation | UnknownModification
    | PastDate | BadDateFormat | OutOfHours | BadTimeFormat | EmptyError | UpdateSummary
    | AnotherBooking | Farewell | AnythingElse | AskOtherChange | ChangesSaved
    | DateChosen | TimeChosen | DateUpdated | TimeUpdated

  // ---------------------------------------------------------------------
  // Decisions on the input

  datatype Intent = BookTable | ManageBookings | Unclear

  predicate HasBookWord(t: string) { Contains(t, "book") || Contains(t, "table") }

  predicate HasManageWord(t: string) { Contains(t, "manage") || Contains(t, "cancel") || Contains(t, "modify") }

  /**
    * The greeting step's reading of the input: a manage word wins over a
    * booking word, and neither gives `Unclear`.
    */
  function GreetingIntent(input: string): (i: Intent)
    ensures i == ManageBookings <==> HasManageWord(Lower(input))
    ensures i == BookTable <==> HasBookWord(Lower(input)) && !HasManageWord(Lower(input))
  {
    var t := Lower(input);
    if HasBookWord(t) && !HasManageWord(t) then BookTable
    else if HasManageWord(t) then ManageBookings
    else Unclear
  }

  /** The words that confirm a new booking. */
  predicate IsConfirmWord(w: string) { w in ["yes", "y", "correct", "right", "yeah"] }

  /** The words that confirm a cancellation, end the post-booking chat or ask for more changes. */
  predicate IsYesWord(w: string) { w in ["yes", "y", "yeah"] }

  /** Every yes-word confirms a booking, but "correct" and "right" do not confirm a cancellation. */
  lemma YesWordsAreConfirmWords(w: string)
    ensures IsYesWord(w) ==> IsConfirmWord(w)
    ensures IsConfirmWord("correct") && !IsYesWord("correct")
    ensures IsConfirmWord("right") && !IsYesWord("right")
  {
  }

  /** The field a correction or modification word names (`field_mapping`). */
  function FieldWord(w: string): (f: Option<Field>)
    ensures f != Some(SpecialRequestsField)
  {
    if w in ["guests", "people", "party size", "party"] then Some(GuestsField)
    else if w in ["date", "day"] then Some(DateField)
    else if w in ["time", "hour"] then Some(TimeField)
    else if w == "name" then Some(NameField)
    else if w == "email" then Some(EmailField)
    else if w in ["phone", "number", "telephone", "contact"] then Some(PhoneField)
    else None
  }

  /** The booking step a correction of `f` returns to. */
  function CorrectionStep(f: Field): Step {
    match f
    case GuestsField => AskGuests
    case DateField => AskDate
    case TimeField => AskTime
    case NameField => AskName
    case EmailField => AskEmail
    case PhoneField => AskPhone
    case SpecialRequestsField => Correction
  }

  /** The step a modification of `f` goes to: date and time have their own widgets. */
  function ModificationStep(f: Field): Step {
    match f
    case DateField => ModifyDate
    case TimeField => ModifyTime
    case _ => ModifyField
  }

  /** The prompt for a new value of `f`. */
  function FieldPrompt(f: Field): Reply {
    match f
    case GuestsField => PromptGuests
    case DateField => PromptNewDate
    case TimeField => PromptNewTime
    case NameField => PromptName
    case EmailField => PromptEmail
    case PhoneField => PromptPhone
    case SpecialRequestsField => UnknownModification
  }

  /**
    * The keys a booking step relies on: each step comes after the steps
    * that filled the keys before it, and the review and correction steps
    * have them all.
    */
  predicate Covers(s: Step, d: Draft) {
    var afterTime := s.AskName? || s.AskEmail? || s.AskPhone? || s.Confirmation? || s.Correction?;
    && (s.AskDate? || s.AskTime? || afterTime ==> d.guests.Some?)
    && (s.AskTime? || afterTime ==> d.date.Some?)
    && (afterTime ==> d.time.Some?)
    && (s.AskEmail? || s.AskPhone? || s.Confirmation? || s.Correction? ==> d.name.Some?)
    && (s.AskPhone? || s.Confirmation? || s.Correction? ==> d.email.Some?)
    && (s.Confirmation? || s.Correction? ==> d.phone.Some?)
  }

  /** What `modify_field` does to the selected reservation: the edited row, or the error it reports. */
  datatype EditOutcome = Edited(row: Reservation) | Rejected(error: Reply)

  function ApplyEdit(r: Reservation, field: Option<Field>, input: string, today: Date): (e: EditOutcome)
    ensures e.Edited? ==> e.row.id == r.id && e.row.specialRequests == r.specialRequests
  {
    match field
    case Some(GuestsField) =>
      (match PyInt(input)
       case Some(n) => if GuestCountOk(n) then Edited(r.(guests := n)) else Rejected(GuestsOutOfRange)
       case None => Rejected(NotANumber))
    case Some(DateField) =>
      (match StrptimeDate(input)
       case Some(d) => if DateLe(today, d) then Edited(r.(date := input)) else Rejected(PastDate)
       case None => Rejected(BadDateFormat))
    case Some(TimeField) =>
      (match StrptimeClock(input)
       case Some(c) => if WithinOpeningHours(c) then Edited(r.(time := input)) else Rejected(OutOfHours)
       case None => Rejected(BadTimeFormat))
    case Some(NameField) => if |Strip(input)| >= 2 then Edited(r.(name := input)) else Rejected(InvalidName)
    case Some(EmailField) => if ValidateEmail(input) then Edited(r.(email := input)) else Rejected(InvalidEmail)
    case Some(PhoneField) => if ValidatePhone(input) then Edited(r.(phone := input)) else Rejected(InvalidPhone)
    case _ => Rejected(EmptyError)
  }

  /** An accepted edit changes only the field that was chosen, to the value typed (or parsed). */
  lemma EditChangesOnlyThatField(r: Reservation, f: Field, input: string, today: Date)
    requires ApplyEdit(r, Some(f), input, today).Edited?
    ensures var x := ApplyEdit(r, Some(f), input, today).row;
      match f
      case GuestsField => x == r.(guests := x.guests) && PyInt(input) == Some(x.guests) && GuestCountOk(x.guests)
      case DateField => x == r.(date := input)
      case TimeField => x == r.(time := input)
      case NameField => x == r.(name := input) && |Strip(input)| >= 2
      case EmailField => x == r.(email := input) && ValidateEmail(input)
      case PhoneField => x == r.(phone := input) && ValidatePhone(input)
      case SpecialRequestsField => false
  {
  }

  /** A date typed in ISO form is accepted exactly when it is today or later. */
  lemma EditDateFromToday(r: Reservation, d: Date, today: Date)
    requires ValidDate(d)
    ensures ApplyEdit(r, Some(DateField), FormatIsoDate(d), today).Edited? <==> DateLe(today, d)
  {
    StrptimeDateAcceptsIsoForm(d);
  }

  /** A time typed as `HH:MM` is accepted exactly when it lies in 11:00-22:00, both ends included. */
  lemma EditTimeWithinHours(r: Reservation, c: Clock, today: Date)
    requires ValidClock(c)
    ensures ApplyEdit(r, Some(TimeField), FormatClock(c), today).Edited? <==> WithinOpeningHours(c)
  {
    StrptimeClockAcceptsPaddedForm(c);
  }

  /** A text whose lower-cased form holds "book" and neither an `m` nor a `c` is a booking. */
  lemma BookIntentOf(input: string, i: int)
    requires OccursAt(Lower(input), "book", i)
    requires 'm' !in Lower(input) && 'c' !in Lower(input)
    ensures GreetingIntent(input) == BookTable
  {
    var t := Lower(input);
    NotContainsWithoutFirstChar(t, "manage");
    NotContainsWithoutFirstChar(t, "cancel");
    NotContainsWithoutFirstChar(t, "modify");
  }

  /** A text whose lower-cased form holds "manage" is a managing request, whatever else it holds. */
  lemma ManageIntentOf(input: string, i: int)
    requires OccursAt(Lower(input), "manage", i)
    ensures GreetingIntent(input) == ManageBookings
  {
  }

  lemma BookTextLower()
    ensures Lower(BookText) == "i want to book a table"
  {
  }

  lemma BookWordInBookText()
    ensures OccursAt("i want to book a table", "book", 10)
    ensures 'm' !in "i want to book a table" && 'c' !in "i want to book a table"
  {
  }

  /** The "Book a Table" text is read as a booking. */
  lemma BookTextIntent()
    ensures GreetingIntent(BookText) == BookTable
  {
    BookTextLower();
    BookWordInBookText();
    BookIntentOf(BookText, 10);
  }

  /** The "Manage Reservations" text is read as managing. */
  lemma ManageTextIntent()
    ensures GreetingIntent(ManageText) == ManageBookings
  {
    ManageWordInManageText();
    ManageIntentOf(ManageText, 10);
  }

  // ---------------------------------------------------------------------
  // The session

  class Controller {
    /** `chat_history` */
    var chatHistory: seq<Message<Reply>>
    /** `current_step` */
    var step: Step
    /** `reservation_data` */
    var draft: Draft
    /** `reservations`: the cached listing, edited in place by the modify steps */
    var reservations: seq<Reservation>
    /** `reservation_id`: the id the next booking gets */
    var reservationId: int
    /** `selected_res_index` */
    var selectedIndex: int
    /** `modification_field`: the lower-cased word the user typed */
    var modificationField: string
    /** the reservations table */
    const db: Table

    /**
      * The cache holds exactly the table's rows, the cached next id is above
      * every id in use, a managing step has a selected entry, and every
      * booking step has the keys of the steps before it.
      */
    ghost predicate Valid()
      reads this, db
    {
      && db.Valid()
      && Mirrors(reservations, db.rows, reservationId)
      && StepReady(step, draft, reservations, selectedIndex)
    }

    /** A new session (colab_app.py:181-195 and 540-541). */
    constructor(db: Table)
      requires db.Valid()
      ensures Valid() && this.db == db
      ensures chatHistory == [Assistant(Welcome)] && step == Greeting && draft == EmptyDraft
      ensures Listing(reservations, db.rows) && IsNextId(db.rows, reservationId)
    {
      var listing := db.ListAll();
      var next := db.NextId();
      FreshMirrors(listing, db.rows, next);
      this.db := db;
      chatHistory := [Assistant(Welcome)];
      step := Greeting;
      draft := EmptyDraft;
      reservations := listing;
      reservationId := next;
      selectedIndex := 0;
      modificationField := "";
    }

    /** `add_message` */
    method AddMessage(m: Message<Reply>)
      modifies this
      ensures chatHistory == old(chatHistory) + [m]
      ensures step == old(step) && draft == old(draft) && reservations == old(reservations)
      ensures reservationId == old(reservationId) && selectedIndex == old(selectedIndex)
      ensures modificationField == old(modificationField)
    {
      chatHistory := chatHistory + [m];
    }

    /** `reset_chat`: a fresh transcript, a re-read of the table and of the next id. */
    method ResetChat()
      requires Valid()
      modifies this
      ensures Valid()
      ensures chatHistory == [Assistant(Welcome)] && step == Greeting && draft == EmptyDraft
      ensures Listing(reservations, db.rows) && IsNextId(db.rows, reservationId)
      ensures selectedIndex == old(selectedIndex) && modificationField == old(modificationField)
    {
      var listing := db.ListAll();
      var next := db.NextId();
      FreshMirrors(listing, db.rows, next);
      chatHistory := [Assistant(Welcome)];
      step := Greeting;
      draft := EmptyDraft;
      reservations := listing;
      reservationId := next;
    }

    /**
      * `process_input`: the user's message goes into the transcript first,
      * exactly as typed, and the current step decides the rest. The date and
      * time steps, of a booking or of a modification, do nothing more: their
      * widgets move them on.
      */
    method ProcessInput(userInput: string, today: Date)
      requires Valid()
      modifies this, db
      ensures Valid()
      ensures |chatHistory| > |old(chatHistory)| && chatHistory[..|old(chatHistory)| + 1] == old(chatHistory) + [User(userInput)]
      ensures old(step) in {AskDate, AskTime, ModifyDate, ModifyTime} ==>
        chatHistory == old(chatHistory) + [User(userInput)] && step == old(step) && draft == old(draft)
        && reservations == old(reservations) && db.rows == old(db.rows)
      ensures old(step) !in {AskDate, AskTime, ModifyDate, ModifyTime} ==> |chatHistory| >= |old(chatHistory)| + 2
      ensures old(step) !in {Confirmation, ConfirmCancel, ModifyField} ==> db.rows == old(db.rows)
    {
      AddMessage(User(userInput));
      if Managing(step) {
        RespondManaging(userInput, today);
      } else {
        RespondBooking(userInput);
      }
    }

    /** The reply of a booking step, of the listing step or of the closing step, after the message is recorded. */
    method RespondBooking(input: string)
      requires Valid() && !Managing(step)
      modifies this, db
      ensures Valid()
      ensures |chatHistory| >= |old(chatHistory)| && chatHistory[..|old(chatHistory)|] == old(chatHistory)
      ensures old(step) in {AskDate, AskTime} ==>
        chatHistory == old(chatHistory) && step == old(step) && draft == old(draft)
        && reservations == old(reservations) && db.rows == old(db.rows)
      ensures old(step) !in {AskDate, AskTime} ==> |chatHistory| > |old(chatHistory)|
      ensures old(step) != Confirmation ==> db.rows == old(db.rows)
    {
      ghost var before := chatHistory;
      match step {
      case Greeting => OnGreeting(input);
      case AskGuests => OnGuests(input);
      case AskDate =>
      case AskTime =>
      case AskName => OnName(input);
      case AskEmail => OnEmail(input);
      case AskPhone => OnPhone(input);
      case Confirmation => OnConfirmation(input);
      case Correction => OnCorrection(input);
      case SelectReservation => OnSelectReservation(input);
      case PostConfirmation => OnPostConfirmation(input);
      }
      assert chatHistory[..|before|] == before;
    }

    /** The reply of a step about a selected reservation, after the message is recorded. */
    method RespondManaging(input: string, today: Date)
      requires Valid() && Managing(step)
      modifies this, db
      ensures Valid()
      ensures |chatHistory| >= |old(chatHistory)| && chatHistory[..|old(chatHistory)|] == old(chatHistory)
      ensures old(step) in {ModifyDate, ModifyTime} ==>
        chatHistory == old(chatHistory) && step == old(step) && draft == old(draft)
        && reservations == old(reservations) && db.rows == old(db.rows)
      ensures old(step) !in {ModifyDate, ModifyTime} ==> |chatHistory| > |old(chatHistory)|
      ensures old(step) !in {ConfirmCancel, ModifyField} ==> db.rows == old(db.rows)
    {
      ghost var before := chatHistory;
      match step {
      case ManageReservation => OnManageReservation(input);
      case ConfirmCancel => OnConfirmCancel(input);
      case SelectModification => OnSelectModification(input);
      case ModifyField => OnModifyField(input, today);
      case ModifyDate =>
      case ModifyTime =>
      case AdditionalChanges => OnAdditionalChanges(input);
      }
      assert chatHistory[..|before|] == before;
    }

    /** The greeting step (colab_app.py:225-243). */
    method OnGreeting(input: string)
      requires Valid() && step == Greeting
      modifies this
      ensures Valid()
      ensures draft == old(draft) && reservations == old(reservations) && reservationId == old(reservationId)
      ensures selectedIndex == old(selectedIndex) && modificationField == old(modificationField)
      ensures match GreetingIntent(input)
        case BookTable => step == AskGuests && chatHistory == old(chatHistory) + [Assistant(BookingStarted), Assistant(PromptGuests)]
        case ManageBookings =>
          if |reservations| > 0 then step == SelectReservation && chatHistory == old(chatHistory) + [Assistant(ReservationList(reservations))]
          else step == Greeting && chatHistory == old(chatHistory) + [Assistant(NoReservations)]
        case Unclear => step == Greeting && chatHistory == old(chatHistory) + [Assistant(OfferHelp)]
    {
      match GreetingIntent(input)
      case BookTable =>
        AddMessage(Assistant(BookingStarted));
        AddMessage(Assistant(PromptGuests));
        step := AskGuests;
      case ManageBookings =>
        if |reservations| > 0 {
          AddMessage(Assistant(ReservationList(reservations)));
          step := SelectReservation;
        } else {
          AddMessage(Assistant(NoReservations));
          step := Greeting;
        }
      case Unclear =>
        AddMessage(Assistant(OfferHelp));
    }

    /** The guests step (colab_app.py:245-255): `int(input)` from 1 to 20 is kept. */
    method OnGuests(input: string)
      requires Valid() && step == AskGuests
      modifies this
      ensures Valid()
      ensures reservations == old(reservations) && reservationId == old(reservationId)
      ensures selectedIndex == old(selectedIndex) && modificationField == old(modificationField)
      ensures match PyInt(input)
        case Some(n) =>
          if GuestCountOk(n) then
            draft == old(draft).(guests := Some(n)) && step == AskDate && chatHistory == old(chatHistory) + [Assistant(GuestsAccepted(n))]
          else draft == old(draft) && step == AskGuests && chatHistory == old(chatHistory) + [Assistant(GuestsOutOfRange)]
        case None => draft == old(draft) && step == AskGuests && chatHistory == old(chatHistory) + [Assistant(NotANumber)]
    {
      match PyInt(input)
      case Some(n) =>
        if GuestCountOk(n) {
          draft := draft.(guests := Some(n));
          AddMessage(Assistant(GuestsAccepted(n)));
          step := AskDate;
        } else {
          AddMessage(Assistant(GuestsOutOfRange));
        }
      case None =>
        AddMessage(Assistant(NotANumber));
    }

    /** The name step (colab_app.py:265-271): at least two characters once stripped; kept as typed. */
    method OnName(input: string)
      requires Valid() && step == AskName
      modifies this
      ensures Valid()
      ensures reservations == old(reservations) && reservationId == old(reservationId)
      ensures selectedIndex == old(selectedIndex) && modificationField == old(modificationField)
      ensures if |Strip(input)| >= 2 then
          draft == old(draft).(name := Some(input)) && step == AskEmail && chatHistory == old(chatHistory) + [Assistant(PromptEmailAddress)]
        else draft == old(draft) && step == AskName && chatHistory == old(chatHistory) + [Assistant(InvalidName)]
    {
      if |Strip(input)| >= 2 {
        draft := draft.(name := Some(input));
        AddMessage(Assistant(PromptEmailAddress));
        step := AskEmail;
      } else {
        AddMessage(Assistant(InvalidName));
      }
    }

    /** The email step (colab_app.py:273-279): lower-case top-level domain only. */
    method OnEmail(input: string)
      requires Valid() && step == AskEmail
      modifies this
      ensures Valid()
      ensures reservations == old(reservations) && reservationId == old(reservationId)
      ensures selectedIndex == old(selectedIndex) && modificationField == old(modificationField)
      ensures if ValidateEmail(input) then
          draft == old(draft).(email := Some(input)) && step == AskPhone && chatHistory == old(chatHistory) + [Assistant(PromptPhoneNumber)]
        else draft == old(draft) && step == AskEmail && chatHistory == old(chatHistory) + [Assistant(InvalidEmail)]
    {
      if ValidateEmail(input) {
        draft := draft.(email := Some(input));
        AddMessage(Assistant(PromptPhoneNumber));
        step := AskPhone;
      } else {
        AddMessage(Assistant(InvalidEmail));
      }
    }

    /** The phone step (colab_app.py:281-289): an optional `+` and 10 to 15 digits. */
    method OnPhone(input: string)
      requires Valid() && step == AskPhone
      modifies this
      ensures Valid()
      ensures reservations == old(reservations) && reservationId == old(reservationId)
      ensures selectedIndex == old(selectedIndex) && modificationField == old(modificationField)
      ensures if ValidatePhone(input) then
          draft == old(draft).(phone := Some(input)) && step == Confirmation && chatHistory == old(chatHistory) + [Assistant(ReviewDetails)]
        else draft == old(draft) && step == AskPhone && chatHistory == old(chatHistory) + [Assistant(InvalidPhone)]
    {
      if ValidatePhone(input) {
        draft := draft.(phone := Some(input));
        AddMessage(Assistant(ReviewDetails));
        step := Confirmation;
      } else {
        AddMessage(Assistant(InvalidPhone));
      }
    }

    /**
      * Saving the draft (colab_app.py:294-309, and the confirm button at
      * 617-638): the insert under the cached id always succeeds, the cache and
      * the next id are re-read, and the draft is emptied.
      */
    method SaveDraft()
      requires Valid() && step == Confirmation
      modifies this, db
      ensures Valid()
      ensures db.rows == old(db.rows) + [ToReservation(old(draft), old(reservationId))]
      ensures Listing(reservations, db.rows) && IsNextId(db.rows, reservationId) && reservationId == old(reservationId) + 1
      ensures draft == EmptyDraft && step == PostConfirmation
      ensures chatHistory == old(chatHistory) + [Assistant(Confirmed(old(reservationId)))]
      ensures selectedIndex == old(selectedIndex) && modificationField == old(modificationField)
    {
      var reservation := ToReservation(draft, reservationId);
      CachedIdIsFree(reservations, db.rows, reservationId);
      var ok := db.Insert(reservation);
      assert ok;
      var listing := db.ListAll();
      var next := db.NextId();
      InsertMirrors(old(db.rows), reservation, listing, next);
      reservations := listing;
      reservationId := next;
      AddMessage(Assistant(Confirmed(reservation.id)));
      draft := EmptyDraft;
      step := PostConfirmation;
    }

    /** The confirmation step (colab_app.py:291-312): a confirm word saves, anything else asks for a correction. */
    method OnConfirmation(input: string)
      requires Valid() && step == Confirmation
      modifies this, db
      ensures Valid()
      ensures selectedIndex == old(selectedIndex) && modificationField == old(modificationField)
      ensures IsConfirmWord(Lower(input)) ==>
        db.rows == old(db.rows) + [ToReservation(old(draft), old(reservationId))]
        && Listing(reservations, db.rows) && IsNextId(db.rows, reservationId)
        && draft == EmptyDraft && step == PostConfirmation
        && chatHistory == old(chatHistory) + [Assistant(Confirmed(old(reservationId)))]
      ensures !IsConfirmWord(Lower(input)) ==>
        db.rows == old(db.rows) && reservations == old(reservations) && reservationId == old(reservationId)
        && draft == old(draft) && step == Correction && chatHistory == old(chatHistory) + [Assistant(AskCorrection)]
    {
      if IsConfirmWord(Lower(input)) {
        SaveDraft();
      } else {
        AddMessage(Assistant(AskCorrection));
        step := Correction;
      }
    }

    /** The correction step (colab_app.py:314-335): a field word goes back to that field's step. */
    method OnCorrection(input: string)
      requires Valid() && step == Correction
      modifies this
      ensures Valid()
      ensures draft == old(draft) && reservations == old(reservations) && reservationId == old(reservationId)
      ensures selectedIndex == old(selectedIndex) && modificationField == old(modificationField)
      ensures match FieldWord(Lower(input))
        case Some(f) => step == CorrectionStep(f) && chatHistory == old(chatHistory) + [Assistant(FieldPrompt(f))]
        case None => step == Correction && chatHistory == old(chatHistory) + [Assistant(UnknownCorrection)]
    {
      match FieldWord(Lower(input))
      case Some(f) =>
        AddMessage(Assistant(FieldPrompt(f)));
        step := CorrectionStep(f);
      case None =>
        AddMessage(Assistant(UnknownCorrection));
    }

    /** The selection step (colab_app.py:337-355): an entry number from 1 to the length of the cache. */
    method OnSelectReservation(input: string)
      requires Valid() && step == SelectReservation
      modifies this
      ensures Valid()
      ensures draft == old(draft) && reservations == old(reservations) && reservationId == old(reservationId)
      ensures modificationField == old(modificationField)
      ensures match PyInt(input)
        case Some(k) =>
          if 1 <= k <= |reservations| then
            selectedIndex == k - 1 && step == ManageReservation && chatHistory == old(chatHistory) + [Assistant(Selected(reservations[k - 1].id))]
          else selectedIndex == old(selectedIndex) && step == SelectReservation && chatHistory == old(chatHistory) + [Assistant(InvalidSelection)]
        case None => selectedIndex == old(selectedIndex) && step == SelectReservation && chatHistory == old(chatHistory) + [Assistant(InvalidSelection)]
    {
      match PyInt(input)
      case Some(k) =>
        if 1 <= k <= |reservations| {
          var selected := reservations[k - 1];
          selectedIndex := k - 1;
          AddMessage(Assistant(Selected(selected.id)));
          step := ManageReservation;
        } else {
          AddMessage(Assistant(InvalidSelection));
        }
      case None =>
        AddMessage(Assistant(InvalidSelection));
    }

    /** The manage step (colab_app.py:357-365): "cancel" is tested before the modify words. */
    method OnManageReservation(input: string)
      requires Valid() && step == ManageReservation
      modifies this
      ensures Valid()
      ensures draft == old(draft) && reservations == old(reservations) && reservationId == old(reservationId)
      ensures selectedIndex == old(selectedIndex) && modificationField == old(modificationField)
      ensures var t := Lower(input);
        if Contains(t, "cancel") then step == ConfirmCancel && chatHistory == old(chatHistory) + [Assistant(AskCancelConfirm)]
        else if Contains(t, "modify") || Contains(t, "change") || Contains(t, "edit") then
          step == SelectModification && chatHistory == old(chatHistory) + [Assistant(AskModification)]
        else step == ManageReservation && chatHistory == old(chatHistory) + [Assistant(AskCancelOrModify)]
    {
      var t := Lower(input);
      if Contains(t, "cancel") {
        AddMessage(Assistant(AskCancelConfirm));
        step := ConfirmCancel;
      } else if Contains(t, "modify") || Contains(t, "change") || Contains(t, "edit") {
        AddMessage(Assistant(AskModification));
        step := SelectModification;
      } else {
        AddMessage(Assistant(AskCancelOrModify));
      }
    }

    /** The cancel confirmation (colab_app.py:367-381): only a yes-word deletes; both answers end at the greeting. */
    method OnConfirmCancel(input: string)
      requires Valid() && step == ConfirmCancel
      modifies this, db
      ensures Valid()
      ensures step == Greeting && draft == old(draft) && reservationId == old(reservationId)
      ensures selectedIndex == old(selectedIndex) && modificationField == old(modificationField)
      ensures IsYesWord(Lower(input)) ==>
        var id := old(reservations)[old(selectedIndex)].id;
        db.rows == Remove(old(db.rows), id) && !HasId(db.rows, id) && Listing(reservations, db.rows)
        && chatHistory == old(chatHistory) + [Assistant(Cancelled(id))]
      ensures !IsYesWord(Lower(input)) ==>
        db.rows == old(db.rows) && reservations == old(reservations) && chatHistory == old(chatHistory) + [Assistant(KeptReservation)]
    {
      if IsYesWord(Lower(input)) {
        var canceled := reservations[selectedIndex];
        db.Delete(canceled.id);
        var listing := db.ListAll();
        RemoveMirrors(reservations, old(db.rows), canceled.id, reservationId, listing);
        reservations := listing;
        AddMessage(Assistant(Cancelled(canceled.id)));
        step := Greeting;
      } else {
        AddMessage(Assistant(KeptReservation));
        step := Greeting;
      }
    }

    /**
      * The modification choice (colab_app.py:383-408): the word is remembered
      * even when it names no field; date and time go to their widgets.
      */
    method OnSelectModification(input: string)
      requires Valid() && step == SelectModification
      modifies this
      ensures Valid()
      ensures draft == old(draft) && reservations == old(reservations) && reservationId == old(reservationId)
      ensures selectedIndex == old(selectedIndex) && modificationField == Lower(input)
      ensures match FieldWord(Lower(input))
        case Some(f) => step == ModificationStep(f) && chatHistory == old(chatHistory) + [Assistant(FieldPrompt(f))]
        case None => step == SelectModification && chatHistory == old(chatHistory) + [Assistant(UnknownModification)]
    {
      var field := Lower(input);
      modificationField := field;
      match FieldWord(field)
      case Some(f) =>
        AddMessage(Assistant(FieldPrompt(f)));
        step := ModificationStep(f);
      case None =>
        AddMessage(Assistant(UnknownModification));
    }

    /**
      * Writing an edit of the selected entry: the cached entry is replaced in
      * place and the same row is written to the table by id.
      */
    method StoreEdit(updated: Reservation, reply: Reply)
      requires Valid() && Managing(step)
      requires updated.id == reservations[selectedIndex].id && updated.specialRequests == reservations[selectedIndex].specialRequests
      modifies this, db
      ensures Valid()
      ensures reservations == old(reservations)[old(selectedIndex) := updated]
      ensures db.rows == UpdateRows(old(db.rows), updated, false)
      ensures step == AdditionalChanges && chatHistory == old(chatHistory) + [Assistant(reply)]
      ensures draft == old(draft) && reservationId == old(reservationId)
      ensures selectedIndex == old(selectedIndex) && modificationField == old(modificationField)
    {
      EditMirrors(reservations, db.rows, reservationId, selectedIndex, updated);
      reservations := reservations[selectedIndex := updated];
      db.UpdateDetails(reservations[selectedIndex]);
      AddMessage(Assistant(reply));
      step := AdditionalChanges;
    }

    /** The field modification (colab_app.py:410-506): a valid value is written, anything else is reported. */
    method OnModifyField(input: string, today: Date)
      requires Valid() && step == ModifyField
      modifies this, db
      ensures Valid()
      ensures draft == old(draft) && reservationId == old(reservationId)
      ensures selectedIndex == old(selectedIndex) && modificationField == old(modificationField)
      ensures match ApplyEdit(old(reservations)[old(selectedIndex)], FieldWord(modificationField), input, today)
        case Edited(x) =>
          reservations == old(reservations)[old(selectedIndex) := x] && db.rows == UpdateRows(old(db.rows), x, false)
          && step == AdditionalChanges && chatHistory == old(chatHistory) + [Assistant(UpdateSummary)]
        case Rejected(e) =>
          reservations == old(reservations) && db.rows == old(db.rows)
          && step == ModifyField && chatHistory == old(chatHistory) + [Assistant(e)]
    {
      match ApplyEdit(reservations[selectedIndex], FieldWord(modificationField), input, today)
      case Edited(x) =>
        StoreEdit(x, UpdateSummary);
      case Rejected(e) =>
        AddMessage(Assistant(e));
    }

    /** After a booking (colab_app.py:516-525): two replies and back to the greeting, whatever the answer. */
    method OnPostConfirmation(input: string)
      requires Valid() && step == PostConfirmation
      modifies this
      ensures Valid()
      ensures step == Greeting && draft == old(draft) && reservations == old(reservations) && reservationId == old(reservationId)
      ensures selectedIndex == old(selectedIndex) && modificationField == old(modificationField)
      ensures chatHistory == old(chatHistory) +
        if IsYesWord(Lower(input)) then [Assistant(AnotherBooking), Assistant(OfferHelp)] else [Assistant(Farewell), Assistant(AnythingElse)]
    {
      if IsYesWord(Lower(input)) {
        AddMessage(Assistant(AnotherBooking));
        AddMessage(Assistant(OfferHelp));
        step := Greeting;
      } else {
        AddMessage(Assistant(Farewell));
        AddMessage(Assistant(AnythingElse));
        step := Greeting;
      }
    }

    /** After a modification (colab_app.py:527-537): yes asks for another field, anything else re-reads the cache. */
    method OnAdditionalChanges(input: string)
      requires Valid() && step == AdditionalChanges
      modifies this
      ensures Valid()
      ensures draft == old(draft) && reservationId == old(reservationId)
      ensures selectedIndex == old(selectedIndex) && modificationField == old(modificationField)
      ensures IsYesWord(Lower(input)) ==>
        step == SelectModification && reservations == old(reservations) && chatHistory == old(chatHistory) + [Assistant(AskOtherChange)]
      ensures !IsYesWord(Lower(input)) ==>
        step == Greeting && Listing(reservations, db.rows) && chatHistory == old(chatHistory) + [Assistant(ChangesSaved), Assistant(AnythingElse)]
    {
      if IsYesWord(Lower(input)) {
        AddMessage(Assistant(AskOtherChange));
        step := SelectModification;
      } else {
        var listing := db.ListAll();
        ReloadMirrors(reservations, db.rows, reservationId, listing);
        reservations := listing;
        AddMessage(Assistant(ChangesSaved));
        AddMessage(Assistant(AnythingElse));
        step := Greeting;
      }
    }

    // -------------------------------------------------------------------
    // Widget handlers

    /** "Confirm Date" (colab_app.py:720-737): the picked date is kept as `YYYY-MM-DD`. */
    method ConfirmDate(picked: Date)
      requires Valid() && step == AskDate && ValidDate(picked)
      modifies this
      ensures Valid()
      ensures draft == old(draft).(date := Some(FormatIsoDate(picked))) && ParseIsoDate(draft.date.value) == Some(picked)
      ensures step == AskTime && chatHistory == old(chatHistory) + [Assistant(DateChosen)]
      ensures reservations == old(reservations) && reservationId == old(reservationId)
      ensures selectedIndex == old(selectedIndex) && modificationField == old(modificationField)
    {
      var formatted := FormatIsoDate(picked);
      IsoDateRoundTrip(picked);
      draft := draft.(date := Some(formatted));
      AddMessage(Assistant(DateChosen));
      step := AskTime;
    }

    /** `select_time` (colab_app.py:781-798): a button of the lunch or dinner tab. */
    method SelectTime(slot: Slot)
      requires Valid() && step == AskTime && Offered(slot)
      modifies this
      ensures Valid()
      ensures draft == old(draft).(time := Some(slot.value))
      ensures step == AskName && chatHistory == old(chatHistory) + [Assistant(TimeChosen)]
      ensures reservations == old(reservations) && reservationId == old(reservationId)
      ensures selectedIndex == old(selectedIndex) && modificationField == old(modificationField)
    {
      draft := draft.(time := Some(slot.value));
      AddMessage(Assistant(TimeChosen));
      step := AskName;
    }

    /** "Confirm Reservation" (colab_app.py:615-639): the same save as a typed confirm word. */
    method ConfirmBooking()
      requires Valid() && step == Confirmation
      modifies this, db
      ensures Valid()
      ensures db.rows == old(db.rows) + [ToReservation(old(draft), old(reservationId))]
      ensures Listing(reservations, db.rows) && IsNextId(db.rows, reservationId)
      ensures draft == EmptyDraft && step == PostConfirmation
      ensures chatHistory == old(chatHistory) + [Assistant(Confirmed(old(reservationId)))]
      ensures reservationId == old(reservationId) + 1
      ensures selectedIndex == old(selectedIndex) && modificationField == old(modificationField)
    {
      SaveDraft();
    }

    /** "Edit Details" (colab_app.py:641-644) */
    method EditDetails()
      requires Valid() && step == Confirmation
      modifies this
      ensures Valid()
      ensures step == Correction && chatHistory == old(chatHistory) + [Assistant(AskCorrection)]
      ensures draft == old(draft) && reservations == old(reservations) && reservationId == old(reservationId)
      ensures selectedIndex == old(selectedIndex) && modificationField == old(modificationField)
    {
      AddMessage(Assistant(AskCorrection));
      step := Correction;
    }

    /** "Confirm New Date" (colab_app.py:873-895): the selected entry gets the picked date, in the cache and the table. */
    method ConfirmNewDate(picked: Date)
      requires Valid() && step == ModifyDate && ValidDate(picked)
      modifies this, db
      ensures Valid()
      ensures var x := old(reservations)[old(selectedIndex)].(date := FormatIsoDate(picked));
        reservations == old(reservations)[old(selectedIndex) := x] && db.rows == UpdateRows(old(db.rows), x, false)
      ensures step == AdditionalChanges && chatHistory == old(chatHistory) + [Assistant(DateUpdated)]
      ensures draft == old(draft) && reservationId == old(reservationId)
      ensures selectedIndex == old(selectedIndex) && modificationField == old(modificationField)
    {
      var formatted := FormatIsoDate(picked);
      StoreEdit(reservations[selectedIndex].(date := formatted), DateUpdated);
    }

    /** A modify-time button (colab_app.py:929-949): any of the 23 generated slots. */
    method ModifyTimeSlot(slot: Slot)
      requires Valid() && step == ModifyTime && slot in AllSlots(TwentyFourHour)
      modifies this, db
      ensures Valid()
      ensures var x := old(reservations)[old(selectedIndex)].(time := slot.value);
        reservations == old(reservations)[old(selectedIndex) := x] && db.rows == UpdateRows(old(db.rows), x, false)
      ensures step == AdditionalChanges && chatHistory == old(chatHistory) + [Assistant(TimeUpdated)]
      ensures draft == old(draft) && reservationId == old(reservationId)
      ensures selectedIndex == old(selectedIndex) && modificationField == old(modificationField)
    {
      StoreEdit(reservations[selectedIndex].(time := slot.value), TimeUpdated);
    }

    /** A greeting-step input read as a booking, as the first button sends it. */
    method PressBooking(text: string)
      requires Valid() && step == Greeting && GreetingIntent(text) == BookTable
      modifies this
      ensures Valid()
      ensures step == AskGuests
      ensures chatHistory == old(chatHistory) + [User(text), Assistant(BookingStarted), Assistant(PromptGuests)]
      ensures draft == old(draft) && reservations == old(reservations) && reservationId == old(reservationId)
      ensures selectedIndex == old(selectedIndex) && modificationField == old(modificationField)
    {
      AddMessage(User(text));
      OnGreeting(text);
    }

    /** "Book a Table" (colab_app.py:958-961) */
    method BookButton()
      requires Valid() && step == Greeting
      modifies this
      ensures Valid()
      ensures step == AskGuests
      ensures chatHistory == old(chatHistory) + [User(BookText), Assistant(BookingStarted), Assistant(PromptGuests)]
      ensures draft == old(draft) && reservations == old(reservations) && reservationId == old(reservationId)
      ensures selectedIndex == old(selectedIndex) && modificationField == old(modificationField)
    {
      BookTextIntent();
      PressBooking(BookText);
    }

    /** "Manage Reservations" (colab_app.py:963-966): the listing when there is one. */
    method ManageButton()
      requires Valid() && step == Greeting
      modifies this
      ensures Valid()
      ensures step == if |old(reservations)| > 0 then SelectReservation else Greeting
      ensures chatHistory == old(chatHistory) + [User(ManageText)] +
        if |old(reservations)| > 0 then [Assistant(ReservationList(old(reservations)))] else [Assistant(NoReservations)]
      ensures draft == old(draft) && reservations == old(reservations) && reservationId == old(reservationId)
      ensures selectedIndex == old(selectedIndex) && modificationField == old(modificationField)
    {
      ManageTextIntent();
      AddMessage(User(ManageText));
      OnGreeting(ManageText);
    }
  }

  // ---------------------------------------------------------------------
  // The session's view of the table

  /** The cached listing holds exactly the table's rows, and the cached next id is above every id in use. */
  predicate Mirrors(cache: seq<Reservation>, rows: seq<Reservation>, nextId: int) {
    multiset(cache) == multiset(rows) && forall r :: r in rows ==> r.id < nextId
  }

  /** A managing step has a selected entry, and a booking step has the keys of the steps before it. */
  predicate StepReady(s: Step, d: Draft, cache: seq<Reservation>, selected: int) {
    (Managing(s) ==> 0 <= selected < |cache|) && Covers(s, d)
  }

  /** Re-reading the table gives a cache that mirrors it under the same next id. */
  lemma ReloadMirrors(cache: seq<Reservation>, rows: seq<Reservation>, nextId: int, listing: seq<Reservation>)
    requires Mirrors(cache, rows, nextId) && Listing(listing, rows)
    ensures Mirrors(listing, rows, nextId)
  {
  }

  /** Re-reading the table and its next id gives a cache that mirrors it. */
  lemma FreshMirrors(listing: seq<Reservation>, rows: seq<Reservation>, nextId: int)
    requires Listing(listing, rows) && IsNextId(rows, nextId)
    ensures Mirrors(listing, rows, nextId)
  {
  }

  /** The cached id is free, because every id in use is below it. */
  lemma CachedIdIsFree(cache: seq<Reservation>, rows: seq<Reservation>, nextId: int)
    requires Mirrors(cache, rows, nextId)
    ensures !HasId(rows, nextId)
  {
  }

  /**
    * After a row is inserted under the cached id, the next id the table
    * reports is one more, and the re-read cache mirrors the new table.
    */
  lemma InsertMirrors(rows: seq<Reservation>, r: Reservation, listing: seq<Reservation>, n: int)
    requires forall x :: x in rows ==> x.id < r.id
    requires Listing(listing, rows + [r]) && IsNextId(rows + [r], n)
    ensures n == r.id + 1 && Mirrors(listing, rows + [r], n)
  {
    assert r in rows + [r];
    assert forall x :: x in rows + [r] ==> x in rows || x == r;
  }

  /** Deleting a row and re-reading keeps the mirror under the same next id. */
  lemma RemoveMirrors(cache: seq<Reservation>, rows: seq<Reservation>, id: int, nextId: int, listing: seq<Reservation>)
    requires Mirrors(cache, rows, nextId) && Listing(listing, Remove(rows, id))
    ensures Mirrors(listing, Remove(rows, id), nextId)
  {
  }

  /** Editing the cached entry and writing it back by id keeps the mirror. */
  lemma EditMirrors(cache: seq<Reservation>, rows: seq<Reservation>, nextId: int, i: int, r: Reservation)
    requires UniqueIds(rows) && Mirrors(cache, rows, nextId) && 0 <= i < |cache|
    requires r.id == cache[i].id && r.specialRequests == cache[i].specialRequests
    ensures Mirrors(cache[i := r], UpdateRows(rows, r, false), nextId)
  {
    MirrorAfterUpdate(cache, rows, i, r);
    UpdateRowsAddsNoId(rows, r, false);
  }
}

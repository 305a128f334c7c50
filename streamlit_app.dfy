/**
  * The dialogue controller of streamlit_app.py: `process_input` with its
  * chain of steps, the chat and reset helpers, and the buttons that feed
  * fixed texts or the sidebar's date and time into it.
  */
module StreamlitBot {
  import opened Wrappers
  import opened Text
  import opened Validators
  import opened Reservations
  import opened Chat

  /**
    * `st.session_state.current_step`: 'greeting', 'await_intent', the
    * booking steps 'guests' to 'special', 'confirm', 'correction',
    * 'special_requests' (where a corrected special request is typed again),
    * 'manage_id', 'manage_action' and 'post_confirmation'.
    */
  datatype Step =
    | Greeting | AwaitIntent
    | AskGuests | AskDate | AskTime | AskName | AskEmail | AskPhone | AskSpecial
    | Confirm | Correction | ReenterSpecial
    | ManageId | ManageAction
    | PostConfirmation

  /** The assistant's replies, as tags; the values a reply shows are kept. */
  datatype Reply =
    | Hello | HowMany | AskId | BookOrManage
    | PickDate | InvalidGuests | PickTime | InvalidDate | ClosedThen | InvalidTime
    | WhatName | WhatEmail | InvalidEmail | WhatPhone | InvalidPhone | AnySpecial
    | Summary(shown: Draft) | Saved(id: int) | WhatToChange | ConfirmOrEdit
    | SpecifyField | NewValueFor(key: Field) | ContinueOrEdit
    | NotFound(id: int) | FoundIt | BadId
    | Cancelled | Details(row: Reservation) | NotFoundAnymore | WhichField | UpdateCancelShow

  // ---------------------------------------------------------------------
  // Decisions on the input

  datatype Intent = Book | Manage | Neither

  predicate HasBookKeyword(t: string) {
    Contains(t, "book") || Contains(t, "reserve") || Contains(t, "reservation") || Contains(t, "table")
  }

  predicate HasManageKeyword(t: string) {
    Contains(t, "manage") || Contains(t, "update") || Contains(t, "change") || Contains(t, "edit") || Contains(t, "cancel")
  }

  /**
    * The `await_intent` step's reading of the lower-cased input: a booking
    * keyword is tested first, so it wins over a manage keyword.
    */
  function IntentOf(input: string): (i: Intent)
    ensures i == Book <==> HasBookKeyword(Lower(input))
    ensures i == Manage <==> HasManageKeyword(Lower(input)) && !HasBookKeyword(Lower(input))
  {
    var t := Lower(input);
    if HasBookKeyword(t) then Book
    else if HasManageKeyword(t) then Manage
    else Neither
  }

  /** The correction step's `mapping.get(field)` on the lower-cased word. */
  function FieldKey(w: string): (f: Option<Field>)
    ensures f == Some(SpecialRequestsField) <==> w == "special" || w == "requests"
  {
    if w == "guests" || w == "people" || w == "party" then Some(GuestsField)
    else if w == "date" || w == "day" then Some(DateField)
    else if w == "time" || w == "hour" then Some(TimeField)
    else if w == "name" then Some(NameField)
    else if w == "email" then Some(EmailField)
    else if w == "phone" || w == "number" then Some(PhoneField)
    else if w == "special" || w == "requests" then Some(SpecialRequestsField)
    else None
  }

  /** Every key of the draft has a word that names it. */
  lemma EveryKeyHasAWord(f: Field)
    ensures exists w :: FieldKey(w) == Some(f)
  {
    match f
    case GuestsField => assert FieldKey("guests") == Some(f);
    case DateField => assert FieldKey("date") == Some(f);
    case TimeField => assert FieldKey("time") == Some(f);
    case NameField => assert FieldKey("name") == Some(f);
    case EmailField => assert FieldKey("email") == Some(f);
    case PhoneField => assert FieldKey("phone") == Some(f);
    case SpecialRequestsField => assert FieldKey("special") == Some(f);
  }

  /** `current_step = key`: the step a corrected key is asked for again. */
  function KeyStep(f: Field): Step {
    match f
    case GuestsField => AskGuests
    case DateField => AskDate
    case TimeField => AskTime
    case NameField => AskName
    case EmailField => AskEmail
    case PhoneField => AskPhone
    case SpecialRequestsField => ReenterSpecial
  }

  /** "no", "none" and "n/a", in any case, mean no special request. */
  predicate Declines(input: string) {
    var t := Lower(input);
    t == "no" || t == "none" || t == "n/a"
  }

  /** The special request the 'special' step stores. */
  function SpecialValue(input: string): (v: string)
    ensures Declines(input) ==> v == ""
    ensures !Declines(input) ==> v == input
  {
    if Declines(input) then "" else input
  }

  /** `user_input[:10]` */
  function Prefix10(s: string): (p: string)
    ensures |p| == if |s| < 10 then |s| else 10
    ensures p == s[..|p|]
  {
    if |s| < 10 then s else s[..10]
  }

  /**
    * The keys a step relies on: each booking step comes after the steps that
    * filled the keys before it, and the steps from the special request on
    * have all six keys `save_reservation` reads.
    */
  predicate Covers(s: Step, d: Draft) {
    var complete := s.AskSpecial? || s.Confirm? || s.Correction? || s.ReenterSpecial?;
    && (s.AskDate? || s.AskTime? || s.AskName? || s.AskEmail? || s.AskPhone? || complete ==> d.guests.Some?)
    && (s.AskTime? || s.AskName? || s.AskEmail? || s.AskPhone? || complete ==> d.date.Some?)
    && (s.AskName? || s.AskEmail? || s.AskPhone? || complete ==> d.time.Some?)
    && (s.AskEmail? || s.AskPhone? || complete ==> d.name.Some?)
    && (s.AskPhone? || complete ==> d.email.Some?)
    && (complete ==> d.phone.Some?)
  }

  /** From the special request on, a step that covers its draft has every key the summary and the save read. */
  lemma CoversComplete(s: Step, d: Draft)
    requires Covers(s, d) && (s == AskSpecial || s == Confirm || s == Correction || s == ReenterSpecial)
    ensures Complete(d)
  {
  }

  /**
    * A correction of a complete draft removes one key and goes to the step
    * that asks for it, which has every key before it.
    */
  lemma CorrectionCovers(d: Draft, f: Field)
    requires Complete(d)
    ensures Covers(KeyStep(f), Without(d, f))
    ensures !Has(Without(d, f), f)
  {
    WithoutKeepsOthers(d, f);
  }

  /** The picked date, as `isoformat()` writes it, is read back as that date and kept whole. */
  lemma PickedDateAccepted(d: Date)
    requires ValidDate(d)
    ensures Prefix10(FormatIsoDate(d)) == FormatIsoDate(d)
    ensures ParseIsoDate(Prefix10(FormatIsoDate(d))) == Some(d)
  {
    IsoDateRoundTrip(d);
  }

  // ---------------------------------------------------------------------
  // The button texts

  /** A text whose lower-cased form holds "book" is read as a booking. */
  lemma BookKeywordBooks(input: string, i: int)
    requires OccursAt(Lower(input), "book", i)
    ensures IntentOf(input) == Book
  {
  }

  /** A text whose lower-cased form holds "reservation" is read as a booking. */
  lemma ReservationKeywordBooks(input: string, i: int)
    requires OccursAt(Lower(input), "reservation", i)
    ensures IntentOf(input) == Book
  {
  }

  /** "Book a Table" asks for a booking. */
  lemma BookTextIntent()
    ensures IntentOf(BookText) == Book
  {
    var p, k, q := "I want to ", "book", " a table";
    assert BookText == p + k + q;
    LowerConcat(p + k, q);
    LowerConcat(p, k);
    LowerOfNoUpper(k);
    OccursInMiddle(Lower(p), k, Lower(q));
    BookKeywordBooks(BookText, 10);
  }

  /** A text whose lower-cased form holds "manage" has a manage keyword. */
  lemma ManageKeywordCounts(input: string, i: int)
    requires OccursAt(Lower(input), "manage", i)
    ensures HasManageKeyword(Lower(input))
  {
  }

  lemma ReservationInManageText()
    ensures OccursAt(Lower(ManageText), "reservation", 20)
  {
    var p, k, q := "I want to manage my ", "reservation", "s";
    assert ManageText == p + k + q;
    LowerConcat(p + k, q);
    LowerConcat(p, k);
    LowerOfNoUpper(k);
    OccursInMiddle(Lower(p), k, Lower(q));
  }

  /**
    * "Manage Reservations" also asks for a booking: its text holds
    * "reservation", a booking keyword, and booking keywords are tested before
    * its "manage".
    */
  lemma ManageTextIntent()
    ensures IntentOf(ManageText) == Book
    ensures HasManageKeyword(Lower(ManageText))
  {
    ReservationInManageText();
    ReservationKeywordBooks(ManageText, 20);
    ManageWordInManageText();
    ManageKeywordCounts(ManageText, 10);
  }

  /** Both texts are already stripped, so `process_input` records them as sent. */
  lemma ButtonTextsStripped()
    ensures Strip(BookText) == BookText && Strip(ManageText) == ManageText
  {
    StripNoSpace(BookText);
    StripNoSpace(ManageText);
  }

  // ---------------------------------------------------------------------
  // The session

  class Session {
    /** `messages` */
    var messages: seq<Message<Reply>>
    /** `reservation_data` */
    var draft: Draft
    /** `current_step` */
    var step: Step
    /** `editing_id` */
    var editingId: Option<int>
    /** the reservations table */
    const db: Table

    /** The table keeps unique ids, and the action step has an id to act on. */
    ghost predicate Valid()
      reads this, db
    {
      db.Valid() && (step == ManageAction ==> editingId.Some?)
    }

    /** A new session (streamlit_app.py:185-195). */
    constructor(db: Table)
      requires db.Valid()
      ensures Valid() && this.db == db
      ensures messages == [] && draft == EmptyDraft && step == Greeting && editingId == None
    {
      this.db := db;
      messages := [];
      draft := EmptyDraft;
      step := Greeting;
      editingId := None;
    }

    /** `add_message` */
    method AddMessage(m: Message<Reply>)
      modifies this
      ensures messages == old(messages) + [m]
      ensures draft == old(draft) && step == old(step) && editingId == old(editingId)
    {
      messages := messages + [m];
    }

    /** `reset_chat`: an empty transcript and draft, back at the greeting; the table is kept. */
    method ResetChat()
      requires Valid()
      modifies this
      ensures Valid()
      ensures messages == [] && draft == EmptyDraft && step == Greeting && editingId == None
    {
      messages := [];
      draft := EmptyDraft;
      step := Greeting;
      editingId := None;
    }

    /**
      * `process_input`: the input is stripped and an empty one ignored;
      * otherwise it is recorded and the step decides the rest. `raised` is
      * the `KeyError` the summary or the save raises on a draft that lacks a
      * key; it leaves the step where it was, with no reply. A step that
      * covers its draft never raises, and keeps covering it, except that the
      * action step's "update" starts a correction of whatever the draft
      * holds.
      */
    method ProcessInput(raw: string) returns (raised: bool)
      requires Valid()
      modifies this, db
      ensures Valid()
      ensures Strip(raw) == [] ==>
        !raised && messages == old(messages) && draft == old(draft) && step == old(step)
        && editingId == old(editingId) && db.rows == old(db.rows)
      ensures Strip(raw) != [] ==>
        |old(messages)| < |messages| <= |old(messages)| + 2
        && messages[..|old(messages)| + 1] == old(messages) + [User(Strip(raw))]
      ensures old(step) == Greeting && Strip(raw) != [] ==>
        step == AwaitIntent && messages == old(messages) + [User(Strip(raw)), Assistant(Hello)]
      ensures raised ==> old(step) in {AskSpecial, Confirm} && step == old(step) && !Complete(old(draft))
      ensures old(Covers(step, draft)) ==> !raised
      ensures old(Covers(step, draft)) && old(step) != ManageAction ==> Covers(step, draft)
      ensures old(step) !in {Confirm, ManageAction} ==> db.rows == old(db.rows)
      ensures old(step) == PostConfirmation && Strip(raw) != [] ==>
        messages == old(messages) + [User(Strip(raw))] && step == PostConfirmation && draft == old(draft)
    {
      var input := Strip(raw);
      if input == [] {
        return false;
      }
      AddMessage(User(input));
      if step in {ManageId, ManageAction} {
        RespondManaging(input);
        raised := false;
      } else {
        raised := RespondBooking(input);
      }
    }

    /** The reply of a step before the manage path, after the message is recorded. */
    method RespondBooking(input: string) returns (raised: bool)
      requires Valid() && step !in {ManageId, ManageAction}
      modifies this, db
      ensures Valid()
      ensures |old(messages)| <= |messages| <= |old(messages)| + 1 && messages[..|old(messages)|] == old(messages)
      ensures old(step) == Greeting ==> step == AwaitIntent && messages == old(messages) + [Assistant(Hello)]
      ensures raised ==> old(step) in {AskSpecial, Confirm} && step == old(step) && !Complete(old(draft))
      ensures old(Covers(step, draft)) ==> !raised && Covers(step, draft)
      ensures old(step) != Confirm ==> db.rows == old(db.rows)
      ensures old(step) == PostConfirmation ==> messages == old(messages) && step == PostConfirmation && draft == old(draft)
    {
      raised := false;
      if step == Greeting {
        OnGreeting();
      } else if step == AwaitIntent {
        OnAwaitIntent(input);
      } else if step in {AskGuests, AskDate, AskTime, AskName, AskEmail, AskPhone} {
        RespondDetails(input);
      } else if step in {AskSpecial, Confirm, Correction, ReenterSpecial} {
        raised := RespondClosing(input);
      }
    }

    /** The reply of a step that collects one key of the draft. */
    method RespondDetails(input: string)
      requires Valid() && step in {AskGuests, AskDate, AskTime, AskName, AskEmail, AskPhone}
      modifies this
      ensures Valid()
      ensures |messages| == |old(messages)| + 1 && messages[..|old(messages)|] == old(messages)
      ensures old(Covers(step, draft)) ==> Covers(step, draft)
    {
      ghost var before := messages;
      match step {
      case AskGuests => OnGuests(input);
      case AskDate => OnDate(input);
      case AskTime => OnTime(input);
      case AskName => OnName(input);
      case AskEmail => OnEmail(input);
      case AskPhone => OnPhone(input);
      }
      assert messages[..|before|] == before;
    }

    /** The reply of a step from the special request on. */
    method RespondClosing(input: string) returns (raised: bool)
      requires Valid() && step in {AskSpecial, Confirm, Correction, ReenterSpecial}
      modifies this, db
      ensures Valid()
      ensures |old(messages)| <= |messages| <= |old(messages)| + 1 && messages[..|old(messages)|] == old(messages)
      ensures raised ==> old(step) in {AskSpecial, Confirm} && step == old(step) && !Complete(old(draft))
      ensures old(Covers(step, draft)) ==> !raised && Covers(step, draft)
      ensures old(step) != Confirm ==> db.rows == old(db.rows)
    {
      ghost var before := messages;
      raised := false;
      match step {
      case AskSpecial => raised := OnSpecial(input);
      case Confirm => raised := OnConfirm(input);
      case Correction => OnCorrection(input);
      case ReenterSpecial => OnReenterSpecial(input);
      }
      assert messages[..|before|] == before;
    }

    /** The reply of a manage step, after the message is recorded. */
    method RespondManaging(input: string)
      requires Valid() && step in {ManageId, ManageAction}
      modifies this, db
      ensures Valid()
      ensures |messages| == |old(messages)| + 1 && messages[..|old(messages)|] == old(messages)
      ensures step in {ManageId, ManageAction, Greeting, Correction}
      ensures old(step) == ManageId ==> step in {ManageId, ManageAction} && db.rows == old(db.rows)
    {
      ghost var before := messages;
      if step == ManageId {
        OnManageId(input);
      } else {
        OnManageAction(input);
      }
      assert messages[..|before|] == before;
    }

    /** 'greeting' (streamlit_app.py:226-232): any input is greeted. */
    method OnGreeting()
      requires Valid() && step == Greeting
      modifies this
      ensures Valid()
      ensures step == AwaitIntent && messages == old(messages) + [Assistant(Hello)]
      ensures draft == old(draft) && editingId == old(editingId)
    {
      AddMessage(Assistant(Hello));
      step := AwaitIntent;
    }

    /** 'await_intent' (streamlit_app.py:219-224 and 234-244): booking keywords first, then manage keywords. */
    method OnAwaitIntent(input: string)
      requires Valid() && step == AwaitIntent
      modifies this
      ensures Valid()
      ensures editingId == old(editingId)
      ensures match IntentOf(input)
        case Book => draft == EmptyDraft && step == AskGuests && messages == old(messages) + [Assistant(HowMany)]
        case Manage => draft == old(draft) && step == ManageId && messages == old(messages) + [Assistant(AskId)]
        case Neither => draft == old(draft) && step == AwaitIntent && messages == old(messages) + [Assistant(BookOrManage)]
    {
      match IntentOf(input)
      case Book =>
        draft := EmptyDraft;
        AddMessage(Assistant(HowMany));
        step := AskGuests;
      case Manage =>
        AddMessage(Assistant(AskId));
        step := ManageId;
      case Neither =>
        AddMessage(Assistant(BookOrManage));
    }

    /** 'guests' (streamlit_app.py:247-254): `int` of the first run of digits, clamped to 1..20. */
    method OnGuests(input: string)
      requires Valid() && step == AskGuests
      modifies this
      ensures Valid()
      ensures editingId == old(editingId)
      ensures match FirstRunInt(input)
        case Some(n) =>
          draft == old(draft).(guests := Some(ClampGuests(n)))
          && step == AskDate && messages == old(messages) + [Assistant(PickDate)]
        case None => draft == old(draft) && step == AskGuests && messages == old(messages) + [Assistant(InvalidGuests)]
    {
      match FirstRunInt(input)
      case Some(n) =>
        draft := draft.(guests := Some(ClampGuests(n)));
        AddMessage(Assistant(PickDate));
        step := AskDate;
      case None =>
        AddMessage(Assistant(InvalidGuests));
    }

    /** 'date' (streamlit_app.py:256-264): the first ten characters, kept as typed when they are an ISO date. */
    method OnDate(input: string)
      requires Valid() && step == AskDate
      modifies this
      ensures Valid()
      ensures editingId == old(editingId)
      ensures ParseIsoDate(Prefix10(input)).Some? ==>
        draft == old(draft).(date := Some(Prefix10(input))) && step == AskTime && messages == old(messages) + [Assistant(PickTime)]
      ensures ParseIsoDate(Prefix10(input)).None? ==>
        draft == old(draft) && step == AskDate && messages == old(messages) + [Assistant(InvalidDate)]
    {
      var p := Prefix10(input);
      if ParseIsoDate(p).Some? {
        draft := draft.(date := Some(p));
        AddMessage(Assistant(PickTime));
        step := AskTime;
      } else {
        AddMessage(Assistant(InvalidDate));
      }
    }

    /**
      * 'time' (streamlit_app.py:266-279): `HH:MM` read as a clock time; one
      * outside 11:00-22:00 is refused with the step kept, one inside is
      * stored zero-padded.
      */
    method OnTime(input: string)
      requires Valid() && step == AskTime
      modifies this
      ensures Valid()
      ensures editingId == old(editingId)
      ensures TypedClock(input).None? ==>
        draft == old(draft) && step == AskTime && messages == old(messages) + [Assistant(InvalidTime)]
      ensures TypedClock(input).Some? && !WithinOpeningHours(TypedClock(input).value) ==>
        draft == old(draft) && step == AskTime && messages == old(messages) + [Assistant(ClosedThen)]
      ensures TypedClock(input).Some? && WithinOpeningHours(TypedClock(input).value) ==>
        draft == old(draft).(time := Some(FormatClock(TypedClock(input).value))) && step == AskName
        && messages == old(messages) + [Assistant(WhatName)]
    {
      ApplyTime(TypedClock(input));
    }

    /** The 'time' step on the outcome of reading the input as a clock time. */
    method ApplyTime(parsed: Option<Clock>)
      requires Valid() && step == AskTime && (parsed.Some? ==> ValidClock(parsed.value))
      modifies this
      ensures Valid()
      ensures editingId == old(editingId)
      ensures parsed.None? ==>
        draft == old(draft) && step == AskTime && messages == old(messages) + [Assistant(InvalidTime)]
      ensures parsed.Some? && !WithinOpeningHours(parsed.value) ==>
        draft == old(draft) && step == AskTime && messages == old(messages) + [Assistant(ClosedThen)]
      ensures parsed.Some? && WithinOpeningHours(parsed.value) ==>
        draft == old(draft).(time := Some(FormatClock(parsed.value))) && step == AskName
        && messages == old(messages) + [Assistant(WhatName)]
    {
      if parsed.None? {
        AddMessage(Assistant(InvalidTime));
      } else if !WithinOpeningHours(parsed.value) {
        AddMessage(Assistant(ClosedThen));
      } else {
        draft := draft.(time := Some(FormatClock(parsed.value)));
        AddMessage(Assistant(WhatName));
        step := AskName;
      }
    }

    /** 'name' (streamlit_app.py:281-284): any name, title-cased. */
    method OnName(input: string)
      requires Valid() && step == AskName
      modifies this
      ensures Valid()
      ensures editingId == old(editingId)
      ensures draft == old(draft).(name := Some(Title(input))) && step == AskEmail && messages == old(messages) + [Assistant(WhatEmail)]
    {
      draft := draft.(name := Some(Title(input)));
      AddMessage(Assistant(WhatEmail));
      step := AskEmail;
    }

    /** 'email' (streamlit_app.py:286-292) */
    method OnEmail(input: string)
      requires Valid() && step == AskEmail
      modifies this
      ensures Valid()
      ensures editingId == old(editingId)
      ensures IsValidEmail(input) ==>
        draft == old(draft).(email := Some(input)) && step == AskPhone && messages == old(messages) + [Assistant(WhatPhone)]
      ensures !IsValidEmail(input) ==>
        draft == old(draft) && step == AskEmail && messages == old(messages) + [Assistant(InvalidEmail)]
    {
      if IsValidEmail(input) {
        draft := draft.(email := Some(input));
        AddMessage(Assistant(WhatPhone));
        step := AskPhone;
      } else {
        AddMessage(Assistant(InvalidEmail));
      }
    }

    /** 'phone' (streamlit_app.py:294-300) */
    method OnPhone(input: string)
      requires Valid() && step == AskPhone
      modifies this
      ensures Valid()
      ensures editingId == old(editingId)
      ensures IsValidPhone(input) ==>
        draft == old(draft).(phone := Some(input)) && step == AskSpecial && messages == old(messages) + [Assistant(AnySpecial)]
      ensures !IsValidPhone(input) ==>
        draft == old(draft) && step == AskPhone && messages == old(messages) + [Assistant(InvalidPhone)]
    {
      if IsValidPhone(input) {
        draft := draft.(phone := Some(input));
        AddMessage(Assistant(AnySpecial));
        step := AskSpecial;
      } else {
        AddMessage(Assistant(InvalidPhone));
      }
    }

    /**
      * 'special' (streamlit_app.py:302-324): the request is stored first
      * ("" for no, none or n/a); the summary then reads every key, and raises
      * on a missing one before any reply.
      */
    method OnSpecial(input: string) returns (raised: bool)
      requires Valid() && step == AskSpecial
      modifies this
      ensures Valid()
      ensures old(Covers(step, draft)) ==> Covers(step, draft)
      ensures editingId == old(editingId)
      ensures draft == old(draft).(specialRequests := Some(SpecialValue(input)))
      ensures raised <==> !Complete(old(draft))
      ensures !raised ==> step == Confirm && messages == old(messages) + [Assistant(Summary(draft))]
      ensures raised ==> step == AskSpecial && messages == old(messages)
    {
      draft := draft.(specialRequests := Some(SpecialValue(input)));
      if !Complete(draft) {
        return true;
      }
      AddMessage(Assistant(Summary(draft)));
      step := Confirm;
      raised := false;
    }

    /**
      * 'confirm' (streamlit_app.py:326-338): the input, lower-cased and
      * stripped, is the command.
      */
    method OnConfirm(input: string) returns (raised: bool)
      requires Valid() && step == Confirm
      modifies this, db
      ensures Valid()
      ensures old(Covers(step, draft)) ==> Covers(step, draft)
      ensures draft == old(draft) && editingId == old(editingId)
      ensures raised <==> Strip(Lower(input)) == "confirm" && !Complete(draft)
      ensures raised ==> step == Confirm && messages == old(messages) && db.rows == old(db.rows)
      ensures Strip(Lower(input)) == "confirm" && Complete(draft) ==>
        exists n :: IsNextId(old(db.rows), n)
          && db.rows == old(db.rows) + [ToReservation(draft, n)]
          && step == PostConfirmation && messages == old(messages) + [Assistant(Saved(n))]
      ensures Strip(Lower(input)) != "confirm" ==> db.rows == old(db.rows)
      ensures Strip(Lower(input)) == "edit" ==> step == Correction && messages == old(messages) + [Assistant(WhatToChange)]
      ensures Strip(Lower(input)) !in {"confirm", "edit"} ==> step == Confirm && messages == old(messages) + [Assistant(ConfirmOrEdit)]
    {
      raised := ApplyConfirm(Strip(Lower(input)));
    }

    /** "confirm" saves the draft, "edit" starts a correction, anything else asks again. */
    method ApplyConfirm(command: string) returns (raised: bool)
      requires Valid() && step == Confirm
      modifies this, db
      ensures Valid()
      ensures old(Covers(step, draft)) ==> Covers(step, draft)
      ensures draft == old(draft) && editingId == old(editingId)
      ensures raised <==> command == "confirm" && !Complete(draft)
      ensures raised ==> step == Confirm && messages == old(messages) && db.rows == old(db.rows)
      ensures command == "confirm" && Complete(draft) ==>
        exists n :: IsNextId(old(db.rows), n)
          && db.rows == old(db.rows) + [ToReservation(draft, n)]
          && step == PostConfirmation && messages == old(messages) + [Assistant(Saved(n))]
      ensures command != "confirm" ==> db.rows == old(db.rows)
      ensures command == "edit" ==> step == Correction && messages == old(messages) + [Assistant(WhatToChange)]
      ensures command !in {"confirm", "edit"} ==> step == Confirm && messages == old(messages) + [Assistant(ConfirmOrEdit)]
    {
      raised := false;
      if command == "confirm" {
        raised := Save();
      } else if command == "edit" {
        AddMessage(Assistant(WhatToChange));
        step := Correction;
      } else {
        AddMessage(Assistant(ConfirmOrEdit));
      }
    }

    /**
      * The save: the next id is taken, then the row is written, which raises
      * on a missing key before the insert. The draft is kept after the save.
      */
    method Save() returns (raised: bool)
      requires Valid() && step == Confirm
      modifies this, db
      ensures Valid()
      ensures draft == old(draft) && editingId == old(editingId)
      ensures raised <==> !Complete(draft)
      ensures raised ==> step == Confirm && messages == old(messages) && db.rows == old(db.rows)
      ensures !raised ==>
        exists n :: IsNextId(old(db.rows), n)
          && db.rows == old(db.rows) + [ToReservation(draft, n)]
          && step == PostConfirmation && messages == old(messages) + [Assistant(Saved(n))]
    {
      var n := db.NextId();
      if !Complete(draft) {
        return true;
      }
      NextIdIsFree(db.rows, n);
      var ok := db.Insert(ToReservation(draft, n));
      assert ok;
      AddMessage(Assistant(Saved(n)));
      step := PostConfirmation;
      raised := false;
    }

    /** 'correction' (streamlit_app.py:340-363): a known word removes its key and asks for it again. */
    method OnCorrection(input: string)
      requires Valid() && step == Correction
      modifies this
      ensures Valid()
      ensures old(Covers(step, draft)) ==> Covers(step, draft)
      ensures editingId == old(editingId)
      ensures match FieldKey(Lower(input))
        case Some(f) => draft == Without(old(draft), f) && step == KeyStep(f) && messages == old(messages) + [Assistant(NewValueFor(f))]
        case None => draft == old(draft) && step == Correction && messages == old(messages) + [Assistant(SpecifyField)]
    {
      match FieldKey(Lower(input))
      case Some(f) =>
        if Covers(step, draft) {
          CorrectionCovers(draft, f);
        }
        draft := Without(draft, f);
        AddMessage(Assistant(NewValueFor(f)));
        step := KeyStep(f);
      case None =>
        AddMessage(Assistant(SpecifyField));
    }

    /**
      * 'special_requests' (streamlit_app.py:419-422): the corrected request
      * is stored as typed. The step's branch only runs while the key is
      * missing; otherwise no branch of the chain applies.
      */
    method OnReenterSpecial(input: string)
      requires Valid() && step == ReenterSpecial
      modifies this
      ensures Valid()
      ensures old(Covers(step, draft)) ==> Covers(step, draft)
      ensures editingId == old(editingId)
      ensures !Has(old(draft), SpecialRequestsField) ==>
        draft == old(draft).(specialRequests := Some(input)) && step == Confirm && messages == old(messages) + [Assistant(ContinueOrEdit)]
      ensures Has(old(draft), SpecialRequestsField) ==>
        draft == old(draft) && step == ReenterSpecial && messages == old(messages)
    {
      if !Has(draft, SpecialRequestsField) {
        draft := draft.(specialRequests := Some(input));
        AddMessage(Assistant(ContinueOrEdit));
        step := Confirm;
      }
    }

    /**
      * 'manage_id' (streamlit_app.py:425-446): the first run of digits is
      * the id, remembered even when no row has it; a found row opens the
      * action step.
      */
    method OnManageId(input: string)
      requires Valid() && step == ManageId
      modifies this
      ensures Valid()
      ensures draft == old(draft)
      ensures match FirstRunInt(input)
        case Some(id) =>
          editingId == Some(id)
          && (HasId(db.rows, id) ==> step == ManageAction && messages == old(messages) + [Assistant(FoundIt)])
          && (!HasId(db.rows, id) ==> step == ManageId && messages == old(messages) + [Assistant(NotFound(id))])
        case None => editingId == old(editingId) && step == ManageId && messages == old(messages) + [Assistant(BadId)]
    {
      match FirstRunInt(input)
      case Some(id) =>
        editingId := Some(id);
        var listing := db.ListAll();
        ListingHasSameIds(listing, db.rows, id);
        if Find(listing, id).None? {
          AddMessage(Assistant(NotFound(id)));
        } else {
          AddMessage(Assistant(FoundIt));
          step := ManageAction;
        }
      case None =>
        AddMessage(Assistant(BadId));
    }

    /**
      * 'manage_action' (streamlit_app.py:448-471): "cancel" deletes the
      * remembered id, "show" shows its row, "update" starts a correction of
      * the draft as it stands; the store is never updated on this path.
      */
    method OnManageAction(input: string)
      requires Valid() && step == ManageAction
      modifies this, db
      ensures Valid()
      ensures draft == old(draft) && editingId == old(editingId)
      ensures Lower(input) == "cancel" ==>
        db.rows == Remove(old(db.rows), old(editingId).value) && !HasId(db.rows, old(editingId).value)
        && step == Greeting && messages == old(messages) + [Assistant(Cancelled)]
      ensures Lower(input) != "cancel" ==> db.rows == old(db.rows)
      ensures Lower(input) == "show" ==> step == ManageAction
      ensures Lower(input) == "show" ==>
        match Find(db.rows, editingId.value)
        case Some(r) => messages == old(messages) + [Assistant(Details(r))]
        case None => messages == old(messages) + [Assistant(NotFoundAnymore)]
      ensures Lower(input) == "update" ==> step == Correction && messages == old(messages) + [Assistant(WhichField)]
      ensures Lower(input) !in {"cancel", "show", "update"} ==> step == ManageAction && messages == old(messages) + [Assistant(UpdateCancelShow)]
    {
      var act := Lower(input);
      var id := editingId.value;
      if act == "cancel" {
        db.Delete(id);
        AddMessage(Assistant(Cancelled));
        step := Greeting;
      } else if act == "show" {
        var listing := db.ListAll();
        var found := Find(listing, id);
        ShownRowIsTheRow(listing, db.rows, id);
        if found.Some? {
          AddMessage(Assistant(Details(found.value)));
        } else {
          AddMessage(Assistant(NotFoundAnymore));
        }
      } else if act == "update" {
        AddMessage(Assistant(WhichField));
        step := Correction;
      } else {
        AddMessage(Assistant(UpdateCancelShow));
      }
    }

    // -------------------------------------------------------------------
    // Buttons

    /** "Book a Table" (streamlit_app.py:514-516). */
    method BookButton() returns (raised: bool)
      requires Valid()
      modifies this, db
      ensures Valid()
      ensures old(step) in {Greeting, AwaitIntent} ==> !raised && db.rows == old(db.rows) && editingId == old(editingId)
      ensures old(step) == Greeting ==> draft == old(draft)
      ensures old(step) == Greeting ==> step == AwaitIntent && messages == old(messages) + [User(BookText), Assistant(Hello)]
      ensures old(step) == AwaitIntent ==>
        draft == EmptyDraft && step == AskGuests && messages == old(messages) + [User(BookText), Assistant(HowMany)]
    {
      BookTextIntent();
      ButtonTextsStripped();
      raised := PressAtStart(BookText);
    }

    /** "Manage Reservations" (streamlit_app.py:517-519): at the intent step it starts a booking. */
    method ManageButton() returns (raised: bool)
      requires Valid()
      modifies this, db
      ensures Valid()
      ensures old(step) in {Greeting, AwaitIntent} ==> !raised && db.rows == old(db.rows) && editingId == old(editingId)
      ensures old(step) == Greeting ==> draft == old(draft)
      ensures old(step) == Greeting ==> step == AwaitIntent && messages == old(messages) + [User(ManageText), Assistant(Hello)]
      ensures old(step) == AwaitIntent ==>
        draft == EmptyDraft && step == AskGuests && messages == old(messages) + [User(ManageText), Assistant(HowMany)]
    {
      ManageTextIntent();
      ButtonTextsStripped();
      raised := PressAtStart(ManageText);
    }

    /**
      * `process_input` on a stripped text read as a booking: at the greeting
      * and the intent step its effect is fixed; at a later step it is
      * whatever that step makes of it.
      */
    method PressAtStart(text: string) returns (raised: bool)
      requires Valid() && text != [] && Strip(text) == text && IntentOf(text) == Book
      modifies this, db
      ensures Valid()
      ensures old(step) in {Greeting, AwaitIntent} ==> !raised && db.rows == old(db.rows) && editingId == old(editingId)
      ensures old(step) == Greeting ==> draft == old(draft)
      ensures old(step) == Greeting ==> step == AwaitIntent && messages == old(messages) + [User(text), Assistant(Hello)]
      ensures old(step) == AwaitIntent ==>
        draft == EmptyDraft && step == AskGuests && messages == old(messages) + [User(text), Assistant(HowMany)]
    {
      if step == Greeting {
        AddMessage(User(text));
        OnGreeting();
        raised := false;
      } else if step == AwaitIntent {
        AddMessage(User(text));
        OnAwaitIntent(text);
        raised := false;
      } else {
        raised := ProcessInput(text);
      }
    }

    /**
      * "Use date/time" (streamlit_app.py:488-495): at the date step the
      * picked date is sent in ISO form, at the time step the picked time as
      * `HH:MM`; at any other step nothing happens.
      */
    method UsePicks(d: Date, c: Clock)
      requires Valid() && ValidDate(d) && ValidClock(c)
      modifies this
      ensures Valid()
      ensures editingId == old(editingId)
      ensures old(step) == AskDate ==>
        draft == old(draft).(date := Some(FormatIsoDate(d))) && step == AskTime
        && messages == old(messages) + [User(FormatIsoDate(d)), Assistant(PickTime)]
      ensures old(step) == AskTime && WithinOpeningHours(c) ==>
        draft == old(draft).(time := Some(FormatClock(c))) && step == AskName
        && messages == old(messages) + [User(FormatClock(c)), Assistant(WhatName)]
      ensures old(step) == AskTime && !WithinOpeningHours(c) ==>
        draft == old(draft) && step == AskTime
        && messages == old(messages) + [User(FormatClock(c)), Assistant(ClosedThen)]
      ensures old(step) !in {AskDate, AskTime} ==>
        draft == old(draft) && step == old(step) && messages == old(messages)
    {
      PickedTextsStripped(d, c);
      if step == AskDate {
        PickedDateAccepted(d);
        SendDate(FormatIsoDate(d));
      } else if step == AskTime {
        SendTime(c);
      }
    }

    /** `process_input` of an ISO date at the date step. */
    method SendDate(text: string)
      requires Valid() && step == AskDate && Prefix10(text) == text && ParseIsoDate(text).Some?
      modifies this
      ensures Valid()
      ensures editingId == old(editingId)
      ensures draft == old(draft).(date := Some(text)) && step == AskTime
      ensures messages == old(messages) + [User(text), Assistant(PickTime)]
    {
      AddMessage(User(text));
      OnDate(text);
    }

    /**
      * `process_input` of the picked time at the time step. It applies the
      * picked time itself; `TypedClockAcceptsPaddedForm` shows that this is
      * the parse `OnTime` would apply to its `HH:MM` text.
      */
    method SendTime(c: Clock)
      requires Valid() && step == AskTime && ValidClock(c)
      modifies this
      ensures Valid()
      ensures editingId == old(editingId)
      ensures WithinOpeningHours(c) ==>
        draft == old(draft).(time := Some(FormatClock(c))) && step == AskName
        && messages == old(messages) + [User(FormatClock(c)), Assistant(WhatName)]
      ensures !WithinOpeningHours(c) ==>
        draft == old(draft) && step == AskTime && messages == old(messages) + [User(FormatClock(c)), Assistant(ClosedThen)]
    {
      AddMessage(User(FormatClock(c)));
      ApplyTime(Some(c));
    }
  }

  /** The picked date and time carry no edge white space, so `process_input` sends them as they are. */
  lemma PickedTextsStripped(d: Date, c: Clock)
    requires ValidDate(d) && ValidClock(c)
    ensures Strip(FormatIsoDate(d)) == FormatIsoDate(d) != []
    ensures Strip(FormatClock(c)) == FormatClock(c) != []
  {
    var s, t := FormatIsoDate(d), FormatClock(c);
    assert s[0] == Pad4(d.year)[0] == Pad2(d.year / 100)[0];
    assert s[9] == Pad2(d.day)[1];
    assert t[0] == Pad2(c.hour)[0] && t[4] == Pad2(c.minute)[1];
    StripNoSpace(s);
    StripNoSpace(t);
  }

  /** The next id the table reports is not in use. */
  lemma NextIdIsFree(rows: seq<Reservation>, n: int)
    requires IsNextId(rows, n)
    ensures !HasId(rows, n)
  {
  }

  /** A listing has the same ids as the table it lists. */
  lemma ListingHasSameIds(listing: seq<Reservation>, rows: seq<Reservation>, id: int)
    requires Listing(listing, rows)
    ensures HasId(listing, id) <==> HasId(rows, id)
  {
    if HasId(listing, id) {
      var r :| r in listing && r.id == id;
      assert r in multiset(rows);
    }
    if HasId(rows, id) {
      var r :| r in rows && r.id == id;
      assert r in multiset(listing);
    }
  }

  /** Under unique ids, the row found in the listing is the row the table has under that id. */
  lemma ShownRowIsTheRow(listing: seq<Reservation>, rows: seq<Reservation>, id: int)
    requires Listing(listing, rows) && UniqueIds(rows)
    ensures Find(listing, id) == Find(rows, id)
  {
    ListingHasSameIds(listing, rows, id);
    match Find(listing, id)
    case Some(r) =>
      assert r in multiset(rows);
      FindUnique(rows, id, r);
    case None =>
  }
}

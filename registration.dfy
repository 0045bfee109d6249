/**
 * The registration dialogue of main.py: one chat's FSM context (the current
 * state and the scratchpad written by `state.update_data`) together with the
 * `users` table, one method per handler, and the dispatcher that picks the
 * handler for each update.
 */
module Registration {
  import opened Wrappers
  import opened FsmClasses
  import opened Filters
  import opened UserTable
  import opened Replies

  /** The scratchpad keys the three data steps write. */
  const FullNameKey: string := "full_name"
  const PhoneNumberKey: string := "phone_number"
  const WorkplaceKey: string := "workplace"

  /** The chat's FSM state: none set, or a member of `RegistrationStates`. */
  datatype Phase = Idle | At(step: RegistrationState)

  /** An update from the chat's user. */
  datatype Update =
    | TextMessage(text: string, username: Option<string>)
    | OtherMessage                  // a photo, a sticker, ...: no text
    | CallbackQuery(data: string)

  /** The handlers of main.py. */
  datatype Handler =
    | WelcomeHandler               // send_welcome
    | StartRegistrationHandler     // start_registration
    | FullNameHandler              // get_full_name
    | PhoneNumberHandler           // get_phone_number
    | WorkplaceHandler             // get_workplace
    | ConfirmHandler               // confirm_registration

  /** The handlers in the order main.py registers them. */
  const HandlerOrder: seq<Handler> := [
    WelcomeHandler, StartRegistrationHandler, FullNameHandler,
    PhoneNumberHandler, WorkplaceHandler, ConfirmHandler
  ]

  /**
   * The filters each handler is registered with. A handler registered without
   * `state=` runs only while no state is set; message handlers take text
   * messages only.
   */
  predicate Accepts(h: Handler, phase: Phase, u: Update, botUsername: string)
    ensures Accepts(h, phase, u, botUsername) ==>
      (phase == Idle <==> h == WelcomeHandler || h == StartRegistrationHandler)
    ensures Accepts(h, phase, u, botUsername) && phase.At? ==>
      h == HandlerOf(phase.step) && u.TextMessage?
    ensures Accepts(h, phase, u, botUsername) ==> (u.CallbackQuery? <==> h == StartRegistrationHandler)
    ensures Accepts(h, phase, u, botUsername) ==> !u.OtherMessage?
  {
    match h
    case WelcomeHandler =>
      phase == Idle && u.TextMessage? && IsCommand(u.text, "start", botUsername)
    case StartRegistrationHandler =>
      phase == Idle && u.CallbackQuery? && u.data == RegisterCallbackData
    case FullNameHandler =>
      phase == At(RegistrationState.WaitingForFullName) && u.TextMessage?
    case PhoneNumberHandler =>
      phase == At(RegistrationState.WaitingForPhoneNumber) && u.TextMessage?
    case WorkplaceHandler =>
      phase == At(RegistrationState.WaitingForWorkplace) && u.TextMessage?
    case ConfirmHandler =>
      phase == At(RegistrationState.ConfirmationApplication) && u.TextMessage? && IsConfirm(u.text)
  }

  /** The handler registered with `state=step`. */
  function HandlerOf(step: RegistrationState): Handler
  {
    match step
    case WaitingForFullName => FullNameHandler
    case WaitingForPhoneNumber => PhoneNumberHandler
    case WaitingForWorkplace => WorkplaceHandler
    case ConfirmationApplication => ConfirmHandler
  }

  /** The dispatcher's search: the first handler in `hs` whose filters accept the update. */
  function FirstAccepting(hs: seq<Handler>, phase: Phase, u: Update, botUsername: string): (r: Option<Handler>)
    ensures r.Some? ==> r.value in hs && Accepts(r.value, phase, u, botUsername)
    ensures r.Some? ==> exists i :: 0 <= i < |hs| && hs[i] == r.value &&
                                    (forall j :: 0 <= j < i ==> !Accepts(hs[j], phase, u, botUsername))
    ensures r.None? ==> forall h :: h in hs ==> !Accepts(h, phase, u, botUsername)
  {
    if hs == [] then None
    else if Accepts(hs[0], phase, u, botUsername) then Some(hs[0])
    else
      var r := FirstAccepting(hs[1..], phase, u, botUsername);
      assert r.Some? ==> exists i :: 0 <= i < |hs| && hs[i] == r.value &&
                                     (forall j :: 0 <= j < i ==> !Accepts(hs[j], phase, u, botUsername)) by {
        if r.Some? {
          var i :| 0 <= i < |hs[1..]| && hs[1..][i] == r.value &&
                   (forall j :: 0 <= j < i ==> !Accepts(hs[1..][j], phase, u, botUsername));
          assert hs[i + 1] == r.value;
          assert forall j :: 0 <= j < i + 1 ==> !Accepts(hs[j], phase, u, botUsername) by {
            forall j | 0 <= j < i + 1
              ensures !Accepts(hs[j], phase, u, botUsername)
            {
              if j > 0 {
                assert hs[j] == hs[1..][j - 1];
              }
            }
          }
        }
      }
      r
  }

  /** No update is accepted by two handlers' filters, so registration order never decides. */
  lemma FiltersExclusive(h: Handler, k: Handler, phase: Phase, u: Update, botUsername: string)
    requires Accepts(h, phase, u, botUsername) && Accepts(k, phase, u, botUsername)
    ensures h == k
  {
  }

  /**
   * The handler that runs for an update: exactly the one whose filters accept
   * it, or none.
   */
  function Route(phase: Phase, u: Update, botUsername: string): (r: Option<Handler>)
    ensures forall h :: r == Some(h) <==> Accepts(h, phase, u, botUsername)
  {
    HandlerOrderComplete();
    FirstAccepting(HandlerOrder, phase, u, botUsername)
  }

  /** Every handler of main.py is registered. */
  lemma HandlerOrderComplete()
    ensures forall h :: h in HandlerOrder
  {
    forall h ensures h in HandlerOrder {
      match h
      case WelcomeHandler => assert HandlerOrder[0] == h;
      case StartRegistrationHandler => assert HandlerOrder[1] == h;
      case FullNameHandler => assert HandlerOrder[2] == h;
      case PhoneNumberHandler => assert HandlerOrder[3] == h;
      case WorkplaceHandler => assert HandlerOrder[4] == h;
      case ConfirmHandler => assert HandlerOrder[5] == h;
    }
  }

  /** The scratchpad keys written before the dialogue reaches `step`. */
  function Collected(step: RegistrationState): set<string>
  {
    match step
    case WaitingForFullName => {}
    case WaitingForPhoneNumber => {FullNameKey}
    case WaitingForWorkplace => {FullNameKey, PhoneNumberKey}
    case ConfirmationApplication => {FullNameKey, PhoneNumberKey, WorkplaceKey}
  }

  /** One chat's dialogue with the bot, and the users table it writes to. */
  class Dialogue {
    /** `message.from_user.id` of the chat's user. */
    const userId: int
    /** The bot's own username, which a command's @mention has to name. */
    const botUsername: string
    /** The FSM state of the chat. */
    var phase: Phase
    /** The FSM data of the chat: what `state.update_data` has stored. */
    var data: map<string, string>
    /** The `users` table. */
    var users: Table

    /**
     * While no state is set the scratchpad is empty; in a registration state
     * it holds exactly the fields of the earlier steps, so the lookups of
     * `get_workplace` and `confirm_registration` always find their keys.
     */
    ghost predicate Valid()
      reads this
    {
      match phase
      case Idle => data == map[]
      case At(step) => data.Keys == Collected(step)
    }

    /** A chat with no FSM state and no data, facing the current table. */
    constructor (userId: int, botUsername: string, users: Table)
      ensures Valid()
      ensures this.userId == userId && this.botUsername == botUsername
      ensures phase == Idle && data == map[] && this.users == users
    {
      this.userId := userId;
      this.botUsername := botUsername;
      phase := Idle;
      data := map[];
      this.users := users;
    }

    /**
     * `send_welcome`: says "already registered" exactly when the user has a
     * row, and otherwise offers the registration button; changes nothing.
     */
    method SendWelcome() returns (reply: Reply)
      ensures reply == AlreadyRegistered <==> userId in users
      ensures reply != AlreadyRegistered ==> reply == OfferRegistration(RegisterButton)
    {
      if IsUserRegistered(users, userId) {
        reply := AlreadyRegistered;
      } else {
        reply := OfferRegistration(RegisterButton);
      }
    }

    /** `start_registration`: asks for the full name and enters the first registration state. */
    method StartRegistration() returns (reply: Reply)
      requires Valid() && phase == Idle
      modifies this
      ensures Valid()
      ensures phase == At(RegistrationState.WaitingForFullName)
      ensures data == old(data) == map[] && users == old(users)
      ensures reply == AskFullName
    {
      reply := AskFullName;
      phase := At(RegistrationState.WaitingForFullName);
    }

    /** `get_full_name`: stores any text verbatim as the full name and asks for the phone number. */
    method GetFullName(text: string) returns (reply: Reply)
      requires Valid() && phase == At(RegistrationState.WaitingForFullName)
      modifies this
      ensures Valid()
      ensures phase == At(RegistrationState.WaitingForPhoneNumber)
      ensures data == old(data)[FullNameKey := text] && users == old(users)
      ensures reply == AskPhoneNumber
    {
      data := data[FullNameKey := text];
      reply := AskPhoneNumber;
      phase := At(RegistrationState.WaitingForPhoneNumber);
    }

    /** `get_phone_number`: stores the text verbatim as the phone number and asks for the workplace. */
    method GetPhoneNumber(text: string) returns (reply: Reply)
      requires Valid() && phase == At(RegistrationState.WaitingForPhoneNumber)
      modifies this
      ensures Valid()
      ensures phase == At(RegistrationState.WaitingForWorkplace)
      ensures data == old(data)[PhoneNumberKey := text] && users == old(users)
      ensures reply == AskWorkplace
    {
      data := data[PhoneNumberKey := text];
      reply := AskWorkplace;
      phase := At(RegistrationState.WaitingForWorkplace);
    }

    /**
     * `get_workplace`: stores the text as the workplace, echoes the three
     * stored fields for review and moves on with `RegistrationStates.next()`.
     */
    method GetWorkplace(text: string) returns (reply: Reply)
      requires Valid() && phase == At(RegistrationState.WaitingForWorkplace)
      modifies this
      ensures Valid()
      ensures phase == At(RegistrationState.ConfirmationApplication)
      ensures data == old(data)[WorkplaceKey := text] && users == old(users)
      ensures reply == Review(old(data)[FullNameKey], old(data)[PhoneNumberKey], text)
    {
      data := data[WorkplaceKey := text];
      reply := Review(data[FullNameKey], data[PhoneNumberKey], data[WorkplaceKey]);
      var next := RegistrationNext(phase.step);
      phase := if next.Some? then At(next.value) else Idle;
    }

    /**
     * `confirm_registration`: inserts the collected fields and the sender's
     * username under the user's id. A failing insert (the id already has a
     * row) leaves the table as it was and is only reported as `failure`; the
     * user is told they are registered either way, and state and data are
     * cleared.
     */
    method ConfirmRegistration(username: Option<string>) returns (reply: Reply, failure: Option<DbError>)
      requires Valid() && phase == At(RegistrationState.ConfirmationApplication)
      modifies this
      ensures Valid()
      ensures phase == Idle && data == map[]
      ensures reply == Registered
      ensures var record := UserRecord(old(data)[FullNameKey], old(data)[PhoneNumberKey], old(data)[WorkplaceKey], username);
        if userId in old(users) then users == old(users) && failure == Some(UniqueConstraintFailed(userId))
        else users == old(users)[userId := record] && failure == None
    {
      var record := UserRecord(data[FullNameKey], data[PhoneNumberKey], data[WorkplaceKey], username);
      var result := RegisterUser(users, userId, record);
      match result {
        case Ok(table) =>
          users := table;
          failure := None;
        case Err(e) =>
          failure := Some(e);
      }
      reply := Registered;
      phase, data := Idle, map[];
    }

    /**
     * The dispatcher: runs the handler whose filters accept the update, or
     * does nothing when none does. Only a confirmation can change the table,
     * and then only by adding this user's row.
     */
    method Handle(u: Update) returns (reply: Reply, failure: Option<DbError>)
      requires Valid()
      modifies this
      ensures Valid()
      ensures Route(old(phase), u, botUsername).None? ==>
        phase == old(phase) && data == old(data) && users == old(users) && reply == NoReply && failure == None
      ensures Route(old(phase), u, botUsername) == Some(WelcomeHandler) ==>
        phase == old(phase) && data == old(data) && users == old(users) && failure == None &&
        reply == (if userId in users then AlreadyRegistered else OfferRegistration(RegisterButton))
      ensures Route(old(phase), u, botUsername) == Some(StartRegistrationHandler) ==>
        phase == At(RegistrationState.WaitingForFullName) && data == map[] && users == old(users) &&
        reply == AskFullName && failure == None
      ensures Route(old(phase), u, botUsername) == Some(FullNameHandler) ==>
        phase == At(RegistrationState.WaitingForPhoneNumber) && data == old(data)[FullNameKey := u.text] &&
        users == old(users) && reply == AskPhoneNumber && failure == None
      ensures Route(old(phase), u, botUsername) == Some(PhoneNumberHandler) ==>
        phase == At(RegistrationState.WaitingForWorkplace) && data == old(data)[PhoneNumberKey := u.text] &&
        users == old(users) && reply == AskWorkplace && failure == None
      ensures Route(old(phase), u, botUsername) == Some(WorkplaceHandler) ==>
        phase == At(RegistrationState.ConfirmationApplication) && data == old(data)[WorkplaceKey := u.text] &&
        users == old(users) && reply == Review(old(data)[FullNameKey], old(data)[PhoneNumberKey], u.text) &&
        failure == None
      ensures Route(old(phase), u, botUsername) == Some(ConfirmHandler) ==>
        phase == Idle && data == map[] && reply == Registered &&
        var record := UserRecord(old(data)[FullNameKey], old(data)[PhoneNumberKey], old(data)[WorkplaceKey], u.username);
        if userId in old(users) then users == old(users) && failure == Some(UniqueConstraintFailed(userId))
        else users == old(users)[userId := record] && failure == None
      ensures users != old(users) ==>
        Route(old(phase), u, botUsername) == Some(ConfirmHandler) && userId !in old(users)
      ensures old(phase) == Idle ==> users == old(users)
      ensures forall id :: id in old(users) ==> id in users && users[id] == old(users)[id]
      ensures users.Keys <= old(users).Keys + {userId}
    {
      failure := None;
      var handler := Route(phase, u, botUsername);
      match handler
      case None =>
        reply := NoReply;
      case Some(WelcomeHandler) =>
        reply := SendWelcome();
      case Some(StartRegistrationHandler) =>
        reply := StartRegistration();
      case Some(FullNameHandler) =>
        reply := GetFullName(u.text);
      case Some(PhoneNumberHandler) =>
        reply := GetPhoneNumber(u.text);
      case Some(WorkplaceHandler) =>
        reply := GetWorkplace(u.text);
      case Some(ConfirmHandler) =>
        reply, failure := ConfirmRegistration(u.username);
    }

    /**
     * The polling loop of `executor.start_polling`, simplified: each update
     * of a finite run is handled to completion before the next one is routed.
     * Rows already in the table are never changed or removed, and the only
     * row that can appear is this user's.
     */
    method Poll(updates: seq<Update>) returns (replies: seq<Reply>)
      requires Valid()
      modifies this
      ensures Valid()
      ensures |replies| == |updates|
      ensures forall id :: id in old(users) ==> id in users && users[id] == old(users)[id]
      ensures users.Keys <= old(users).Keys + {userId}
    {
      replies := [];
      var i := 0;
      while i < |updates|
        invariant 0 <= i <= |updates|
        invariant Valid()
        invariant |replies| == i
        invariant forall id :: id in old(users) ==> id in users && users[id] == old(users)[id]
        invariant users.Keys <= old(users).Keys + {userId}
      {
        var reply, _ := Handle(updates[i]);
        replies := replies + [reply];
        i := i + 1;
      }
    }
  }

  /** "/start" from a chat with no state reaches `send_welcome`. */
  lemma StartRoutesToWelcome(botUsername: string, username: Option<string>)
    ensures Route(Idle, TextMessage("/start", username), botUsername) == Some(WelcomeHandler)
  {
    StartIsCommand(botUsername, "");
    CommandRoutesToWelcome("/start", username, botUsername);
  }

  /** With no state set, any text that passes the `/start` filter reaches `send_welcome`. */
  lemma CommandRoutesToWelcome(text: string, username: Option<string>, botUsername: string)
    requires IsCommand(text, "start", botUsername)
    ensures Route(Idle, TextMessage(text, username), botUsername) == Some(WelcomeHandler)
  {
    assert Accepts(WelcomeHandler, Idle, TextMessage(text, username), botUsername);
  }

  /** With no state set, a text whose first character is neither whitespace nor '/' reaches no handler. */
  lemma NoSlashRoutesNowhere(text: string, username: Option<string>, botUsername: string)
    requires text != [] && !IsSpace(text[0]) && text[0] != '/'
    ensures Route(Idle, TextMessage(text, username), botUsername).None?
  {
    assert SkipSpaces(text) == text;
    assert FirstToken(text)[0] == text[0];
  }

  /** The word the review asks for reaches `confirm_registration`. */
  lemma PromptedWordRoutesToConfirm(botUsername: string, username: Option<string>)
    ensures Route(At(RegistrationState.ConfirmationApplication), TextMessage(PromptedWord, username), botUsername)
      == Some(ConfirmHandler)
  {
    PromptedWordConfirms();
    assert Accepts(ConfirmHandler, At(RegistrationState.ConfirmationApplication),
                   TextMessage(PromptedWord, username), botUsername);
  }

  /** Once the dialogue is over, the confirmation word reaches no handler. */
  lemma PromptedWordIgnoredWhenIdle(botUsername: string, username: Option<string>)
    ensures Route(Idle, TextMessage(PromptedWord, username), botUsername).None?
  {
    assert PromptedWord[0] == 'П';
    NoSlashRoutesNowhere(PromptedWord, username, botUsername);
  }

  /**
   * At the confirmation step a text that does not lower-case to the
   * confirmation word, and any update that is not text, reaches no handler,
   * so `Handle` leaves state, scratchpad and table as they were.
   */
  lemma OnlyConfirmWordLeavesConfirmation(u: Update, botUsername: string)
    requires !(u.TextMessage? && IsConfirm(u.text))
    ensures Route(At(RegistrationState.ConfirmationApplication), u, botUsername).None?
  {
  }

  /**
   * The button reaches `start_registration`, and in each data step any text
   * at all, a command included, reaches that step's handler.
   */
  lemma DataStepsRoute(botUsername: string, fullName: string, phoneNumber: string,
                       workplace: string, username: Option<string>)
    ensures Route(Idle, CallbackQuery(RegisterCallbackData), botUsername) == Some(StartRegistrationHandler)
    ensures Route(At(RegistrationState.WaitingForFullName), TextMessage(fullName, username), botUsername)
      == Some(FullNameHandler)
    ensures Route(At(RegistrationState.WaitingForPhoneNumber), TextMessage(phoneNumber, username), botUsername)
      == Some(PhoneNumberHandler)
    ensures Route(At(RegistrationState.WaitingForWorkplace), TextMessage(workplace, username), botUsername)
      == Some(WorkplaceHandler)
  {
  }

  /**
   * The whole registration from a fresh chat, one handler after the other:
   * /start, the button, three answers and the confirmation (the routing
   * lemmas above show that the dispatcher picks exactly these handlers). A
   * new user ends up with exactly the row of the three answers; a user who
   * already had a row keeps it, though the bot still reports success.
   */
  method RegistrationScenario(users: Table, userId: int, botUsername: string,
                              fullName: string, phoneNumber: string, workplace: string,
                              username: Option<string>)
    returns (replies: seq<Reply>, finalUsers: Table)
    ensures replies == [
      if userId in users then AlreadyRegistered else OfferRegistration(RegisterButton),
      AskFullName, AskPhoneNumber, AskWorkplace,
      Review(fullName, phoneNumber, workplace), Registered]
    ensures finalUsers ==
      if userId in users then users
      else users[userId := UserRecord(fullName, phoneNumber, workplace, username)]
  {
    var d := new Dialogue(userId, botUsername, users);
    var r0 := d.SendWelcome();
    var r1 := d.StartRegistration();
    var r2 := d.GetFullName(fullName);
    var r3 := d.GetPhoneNumber(phoneNumber);
    var r4 := d.GetWorkplace(workplace);
    var r5, _ := d.ConfirmRegistration(username);
    replies := [r0, r1, r2, r3, r4, r5];
    finalUsers := d.users;
  }
}

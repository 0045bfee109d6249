# Registration dialogue of the RT Service Telegram bot, in Dafny

The bot registers a Telegram user in four steps. `/start` tells a known user
they are already registered; an unknown user gets a "register" button. The
button starts the dialogue. The bot then asks for the full name, the phone
number and the workplace, each stored verbatim in the chat's FSM data. It
echoes the three fields for review and waits for the word "подтверждаю" in
any letter case. On that word it inserts the row into the SQLite `users`
table. It always answers that the registration succeeded, and it clears the
dialogue.

The project models:

- `fsm_classes.dfy` (module `FsmClasses`): the two aiogram state groups of
  `FSM_Classes.py`. Their members are kept in declaration order, with the
  successor that `StatesGroup.next()` follows. It also gives the
  "Group:member" names under which the FSM storage records states.
- `filters.dfy` (module `Filters`): the text tests the handlers are
  registered with. These are Python's `str.lower`, aiogram's
  `commands=['start']` filter and the confirmation comparison.
- `user_table.dfy` (module `UserTable`): the `users` table as a map from
  user id to row. Its PRIMARY KEY makes a second insert of the same id fail.
- `replies.dfy` (module `Replies`): the messages the handlers send, with
  their texts.
- `registration.dfy` (module `Registration`): the handlers of `main.py`.
  - Class `Dialogue` holds one chat's FSM state (`phase`), its scratchpad
    (`data`) and the users table (`users`). Each handler is one method.
  - `Route` is aiogram's dispatcher as a function: the handler whose
    filters accept an update.
  - `Handle` runs the chosen handler.
  - `Poll` is the polling loop over a run of updates.

The class invariant `Dialogue.Valid` says two things. With no state set, the
scratchpad is empty. In each registration state, the scratchpad holds exactly
the keys of the earlier steps. So the dictionary lookups in `get_workplace`
and `confirm_registration` never raise `KeyError`: the verifier checks each
of those map lookups.

The code does not do the following, so neither does the model:

- The code has no input validators and no cancel command.
- It has no catch-all fallback reply: an update that no handler accepts gets
  no reply.
- It has no pickup or complaint flow.
- A registration whose insert fails is still reported to the user as a
  success.

`Registration.Accepts` states which handler's filters accept an update. It
makes two choices about aiogram 2:

- A handler registered without `state=` fires only when the chat has no FSM
  state set. This applies to `send_welcome` and `start_registration`.
- The message handlers take text messages only. Any other message (a photo, a
  sticker) reaches no handler.

## Model

| member | source | states |
|---|---|---|
| `FsmClasses.RegistrationIndex` | FSM_Classes.py:17-22 | every registration state has a position in the declared order, and the order holds that state at that position |
| `FsmClasses.PickupIndex` | FSM_Classes.py:5-14 | the same for the eight pickup states |
| `FsmClasses.RegistrationNext` | FSM_Classes.py:17-22 | `next()` goes to the state declared directly after the current one; the last state has no successor |
| `FsmClasses.PickupNext` | FSM_Classes.py:5-14 | the same for the pickup group |
| `FsmClasses.RegistrationOrderIsEnumeration` | FSM_Classes.py:17-22 | there are exactly four registration states, all distinct, from full name to confirmation |
| `FsmClasses.PickupOrderIsEnumeration` | FSM_Classes.py:5-14 | there are exactly eight pickup states, all distinct, ending with `waiting_for_confirmation` |
| `FsmClasses.RegistrationEnds` | FSM_Classes.py:21-22 | `waiting_for_workplace` is followed by `confirmation_application`, which has no successor; no state leads back to the first |
| `FsmClasses.PickupPhotoPrecedesConfirmation` | FSM_Classes.py:12-14 | the photo step comes after the comment step and directly before the confirmation, which is last |
| `FsmClasses.StateNameInjective` | FSM_Classes.py:5-22 | both groups declare `waiting_for_full_name` and `waiting_for_phone_number`, yet no two states share a "Group:member" storage name, so no registration state equals a pickup state |
| `Filters.Lower` | main.py:88 | lower-casing keeps the length and maps each character separately |
| `Filters.IsConfirm` | main.py:88 | a text that passes the confirmation filter has exactly the length of "подтверждаю" |
| `Filters.IsConfirmIff` | main.py:88 | the confirmation filter accepts exactly the spellings of "подтверждаю" with each letter in either case |
| `Filters.IsCommand` | main.py:31 | the `commands=['start']` filter accepts a text only when its first non-whitespace character is '/', and its first word is '/' followed by the command in any letter case, then either nothing or '@' and a mention; so "/stop", "/sturt" and "/started" are refused. `StartIsCommand` shows that two families of texts are accepted |
| `Filters.StartIsCommand` | main.py:31 | "/start", alone or followed by a space and arguments, passes the `commands=['start']` filter |
| `UserTable.IsUserRegistered` | database_functions.py:81-90 | a user is registered exactly when the table holds a row under its id |
| `UserTable.RegisterUser` | database_functions.py:93-104 | the insert succeeds exactly when the id has no row; it then adds that one row and keeps all others; otherwise it raises a PRIMARY KEY violation (database_functions.py:32) and the table is unchanged |
| `UserTable.RegisterThenLookUp` | database_functions.py:81-104 | after a successful insert `is_user_registered` holds, and inserting the same id again fails |
| `Replies.ReplyText` | main.py:34-104 | every reply the handlers send has a text, and only "no handler matched" sends nothing; the texts are those of main.py:35, 42, 50, 58, 65, 79-83 and 104 |
| `Replies.ReviewShowsFields` | main.py:78-84 | the review message is exactly as long as its parts; it starts with its heading and the name label, and contains the full name, the phone number and the workplace, each right after its label, and ends by asking for "Подтверждаю" |
| `Replies.PromptedWordConfirms` | main.py:83-88 | the word the review asks the user to send passes the confirmation filter |
| `Registration.Accepts` | main.py:31-89 | only `send_welcome` and `start_registration` fire with no state set; in a registration state only that state's handler fires, and only on a text message; only `start_registration` takes a callback query; no handler takes a non-text message |
| `Registration.FirstAccepting` | main.py:31-89 | the dispatcher picks the first registered handler, in registration order, whose filters accept the update, or finds that none does |
| `Registration.FiltersExclusive` | main.py:31-89 | no update is accepted by two handlers, so registration order never decides which one runs |
| `Registration.Route` | main.py:31-89 | the handler that runs is exactly the one whose filters accept the update |
| `Registration.Dialogue.constructor` | main.py:24-25 | a new chat has no FSM state and no data |
| `Registration.Dialogue.SendWelcome` | main.py:31-44 | the reply is "already registered" exactly when the user id has a row; otherwise the register button is offered; nothing changes |
| `Registration.Dialogue.StartRegistration` | main.py:47-52 | from no state, asks for the full name and enters `waiting_for_full_name`; scratchpad and table stay as they were |
| `Registration.Dialogue.GetFullName` | main.py:55-59 | any text is stored verbatim under `full_name`, no other key changes, and the state becomes `waiting_for_phone_number` |
| `Registration.Dialogue.GetPhoneNumber` | main.py:62-66 | the text is stored verbatim under `phone_number`, no other key changes, and the state becomes `waiting_for_workplace` |
| `Registration.Dialogue.GetWorkplace` | main.py:69-85 | the text is stored under `workplace`; the review echoes the stored name and phone and this text; `next()` moves to `confirmation_application` |
| `Registration.Dialogue.ConfirmRegistration` | main.py:90-105 | inserts one row of the three fields and the sender's username under the sender's id; if the id already has a row, the table is unchanged and the error is only reported; either way the reply is success and state and data are cleared |
| `Registration.Dialogue.Handle` | main.py:31-105 | an update no handler accepts changes nothing; otherwise the state, data, table and reply are those of the chosen handler; only a confirmation changes the table, and then only by adding this user's row; nothing arriving in the idle state changes it |
| `Registration.Dialogue.Poll` | main.py:108-109 | over any run of updates, existing rows are never changed or removed, and the only row that can appear is this user's |
| `Registration.StartRoutesToWelcome` | main.py:31-32 | "/start" with no state set reaches `send_welcome` |
| `Registration.CommandRoutesToWelcome` | main.py:31-32 | with no state set, every text that passes the `/start` filter reaches `send_welcome` |
| `Registration.NoSlashRoutesNowhere` | main.py:31-89 | with no state set, a text that starts with neither whitespace nor '/' reaches no handler |
| `Registration.PromptedWordRoutesToConfirm` | main.py:88-90 | the word the review asks for reaches `confirm_registration` |
| `Registration.PromptedWordIgnoredWhenIdle` | main.py:88-89 | once the dialogue is finished, sending the confirmation word again reaches no handler, so it cannot register twice |
| `Registration.OnlyConfirmWordLeavesConfirmation` | main.py:88-89 | at the confirmation step, any text that does not lower-case to the word, and any non-text update, reaches no handler |
| `Registration.DataStepsRoute` | main.py:47-69 | the button reaches `start_registration`, and each data step takes any text at all, commands included |
| `Registration.RegistrationScenario` | main.py:31-105 | the whole dialogue gives the six expected replies; a new user ends with exactly the row of the three answers, and a user who already had a row keeps it while still being told they succeeded |

## Left out

- Telegram I/O is not modelled: sending replies, answering callback queries, the network and the Bot API. A reply is a value the handlers return.
- `async`/`await`, aiogram's middleware and handler errors are not modelled.
- Several users acting at the same moment are not modelled. `MemoryStorage` keys FSM data by chat and user, so one `Dialogue` is one private chat. The `users` table it holds does not change between that chat's updates.
- Logging is not modelled: `confirm_registration` only logs the insert error, and the model returns it as `failure`.
- `main.py` never calls `init_db`, so the model assumes the `users` table exists.
- SQLite errors other than the PRIMARY KEY violation are not modelled, such as a missing table or a locked database.
- `Filters.Lower` lower-cases only ASCII capitals and the Cyrillic capitals U+0400–U+042F. Other characters are kept, whereas Python lower-cases all of Unicode. The confirmation word is plain Cyrillic, so the confirm filter is unaffected.
- `Filters.IsCommand` splits words on the whitespace characters below U+0080 only (space, tab, line feed, carriage return, vertical tab, form feed, U+001C–U+001F). `str.split()` also splits on the Unicode whitespace above U+007F, such as U+0085, U+00A0 and U+2028.
- `Registration.Dialogue.Poll` handles each update to completion before it routes the next one. aiogram 2 may run the handlers of one polled batch concurrently, and the handlers set the next state only after awaiting their reply. So two quick texts in one state can both reach that state's handler, which the model does not capture. Dropping the updates that were pending at start-up (`skip_updates=True`, main.py:109) is not modelled either.
- aiogram raises inside the command filter for a whitespace-only text; the model treats that text as accepted by no handler.
- The user id is an unbounded integer, so the 64-bit width of SQLite's INTEGER key is not modelled.
- `KGMPickupStates` is declared but no handler uses it, so only its order is modelled. `save_kgm_request`, `save_quality_complaint` and `get_user_by_id` in database_functions.py are not part of this model.
- bots_func.py is not part of this model: it holds keyboard builders, e-mail sending and photo download.
- api_functions.py (cloud upload) and settings.py (client configuration) are not part of this model.
- `StatesGroup.next()` is aiogram code. The model covers only its step within the group: to the next declared state, and to no state after the last one.

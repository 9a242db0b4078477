# AsesorBot registry, modelled in Dafny

AsesorBot is a Telegram bot that sells coaching and support sessions. Users pick a service
and a session type from reply keyboards and are shown mobile-payment details. They then send
a proof of payment, as a photo or as a text reference. The administrator confirms the payment
with `/confirmar_pago`, which opens a conversation. Users ask questions in that conversation,
and the administrator answers with `/responder`, `/r` or `/r1`..`/r9`. A standard session ends
after the first answer. An extended session expires 20 minutes after its confirmation.

All of this runs over five module-level stores kept in process memory:

- `pagos_pendientes`: pending payments by chat;
- `conversaciones_usuarios`: conversations by chat;
- `preguntas_pendientes`: pending questions, a dict kept in insertion order;
- `ultimo_usuario_pregunta`: the last user who asked;
- `user_last_interaction`: the last interaction time per chat.

The model makes these stores the fields of one class, `Bot.Registry`. Every handler is a
method of that class. Its postcondition gives the whole new state as an update of the old
one: `Snapshot() == old(Snapshot()).(...)`. Every handler preserves the registry invariant
`Valid()`, which has two parts:

- each chat has at most one pending question;
- every pending payment carries a session code from the price table, that code's price and
  a user name.

The files, module by module:

- `config.dfy` (`Config`): the configuration tables, and the settings read from the
  environment, taken as a parameter.
- `text.dfy` (`Text`):
  - Python's `str.strip()`;
  - the payment-reference pattern `^[A-Za-z0-9\-_]{4,20}$`;
  - Python's `int()` on a command argument, and the decimal rendering of a chat id;
  - `' '.join`.
- `ordered_map.dfy` (`OrderedMap`): an insertion-ordered dict as a sequence of key/value
  pairs.
- `model.dfy` (`Model`): the record shapes of the stores.
- `utils.dfy` (`Utils`): the pure reads of `utils.py`.
- `services.dfy` (`Services`): the display helpers of `services.py`.
- `registry.dfy` (`Bot`): the class and the handlers.
- `scenarios.dfy` (`Scenarios`): whole conversations run through the handlers, each from a
  freshly started process.

Outbound Telegram sends are modelled as booleans. Each send whose failure changes what a
handler leaves behind is a parameter saying whether it went through. The clock is the
parameter `now`, in seconds.

## Model

| member | source | states |
|---|---|---|
| Text.StripLeftShape | handlers.py:552 | stripping on the left removes a prefix made only of whitespace and leaves no whitespace at the front |
| Text.StripRightShape | handlers.py:552 | stripping on the right removes a suffix made only of whitespace and leaves no whitespace at the end |
| Text.StripShape | handlers.py:552 | `strip()` returns the slice of the text between a whitespace-only prefix and a whitespace-only suffix, and the result has whitespace at neither end |
| Text.StripNoEdgeSpaces | handlers.py:552 | a text with no whitespace at either end is its own strip |
| Text.StripIdempotent | handlers.py:552-553 | stripping twice gives the same as stripping once, so the reference forwarded is already stripped |
| Text.NotReferenceWhenForeignChar | handlers.py:551-552 | a text with no edge whitespace and one character outside `[A-Za-z0-9-_]` never matches the payment-reference pattern |
| Text.ShowNatDigits | handlers.py:122 | the rendered chat id is a non-empty string of decimal digits whose value is the id |
| Text.ParseShowRoundTrip | handlers.py:212 | `int()` of a rendered chat id gives back the same id, negative ids included |
| OrderedMap.Get | handlers.py:353-354 | a lookup finds a value exactly when the key is present |
| OrderedMap.GetAt | handlers.py:410-411 | with distinct keys, looking up the key at position i gives the value at position i |
| OrderedMap.PutNew | services.py:19-23 | storing a question for a chat with none pending appends it at the end of the iteration order |
| OrderedMap.PutExisting | services.py:19-23 | storing a question for a chat that already has one replaces it in place: the position is kept |
| OrderedMap.PutKeepsDistinct | services.py:19-23 | storing keeps one entry per chat |
| OrderedMap.GetPut | services.py:19-23 | after storing under k, k maps to the new value and every other key to what it mapped to before |
| OrderedMap.RemoveAbsent | handlers.py:305-306 | deleting a key that is not present changes nothing |
| OrderedMap.RemoveAt | handlers.py:444-474 | with distinct keys, deleting the key found at position i cuts out exactly that entry and keeps the order of the rest |
| OrderedMap.CutKeepsDistinct | handlers.py:474 | cutting one entry out keeps one entry per chat |
| OrderedMap.RemoveKeepsDistinct | handlers.py:305-306 | deleting keeps one entry per chat |
| OrderedMap.GetRemove | handlers.py:353-355 | after deleting k, k is absent and every other key maps to what it mapped to before |
| Model.AfterReplyOnce | handlers.py:459-465 | ending a session on reply is idempotent; it touches no other chat and keeps the set of chats |
| Utils.ServiceKeyboardMatchesMenu | utils.py:78-95 | the service keyboard offers exactly the service-menu labels, each once, and the main-menu keyboard is the same keyboard |
| Utils.SessionKeyboardMatchesMenu | utils.py:82-88 | the session keyboard offers exactly the session-menu labels plus the way back to the main menu, each once |
| Utils.ReturningAfterRecord | utils.py:113-125 | once an interaction at t is recorded, the user is returning at `now` if and only if more than 120 seconds have passed |
| Utils.KeyboardForWellFormed | utils.py:147-164 | when every pending payment is well formed, the session keyboard is chosen if and only if the user's conversation has ended or expired; otherwise the service keyboard is chosen |
| Services.FormatServiceNameChangesOnlyCodes | services.py:49-56 | formatting changes a text if and only if it is one of the service codes the menu produces, and distinct codes get distinct names |
| Services.SessionNameLostAsWritten | services.py:58-63 | as written, even the standard session code does not get its display name |
| Services.FormatSessionNameNamesPricedTypes | services.py:58-63 | the corrected function changes a text if and only if it is a priced session code, and the two codes get distinct names |
| Bot.ConfirmCommandRoundTrip | handlers.py:122 | the `/confirmar_pago` command handed to the administrator has two arguments, which parse back to the user's chat id and session code |
| Bot.MenuLabelsReachTheirBranch | handlers.py:550-606 | after the welcome step, a menu label reaches its own branch and is never taken for a payment reference, even while a payment is pending |
| Bot.WelcomeRoute | utils.py:127-145 | a user with a pending payment that has both a session type and a service, or with an active conversation, is never welcomed back whenever they write; anyone else is welcomed exactly when they count as returning |
| Bot.ActiveSessionCount | handlers.py:511 | the active-session count of `/admin` never exceeds the number of conversations |
| Bot.ActivateCount | handlers.py:225-231 | confirming a payment raises the active-session count by one, unless it replaces a session of the same chat that was already active |
| Bot.AfterReplyCount | utils.py:43-44 | an answer lowers the active-session count by one exactly when it ends a standard active session, and otherwise leaves it unchanged |
| Bot.Registry.constructor | utils.py:12-16 | a started process has all stores empty, and the invariant holds |
| Bot.Registry.HandleReturningUser | utils.py:166-215 | the administrator changes nothing; anyone else has `now` recorded whatever the outcome; the message is handled if and only if the user was returning before the record and the welcome gate is open, and then gets the keyboard the chooser picks |
| Bot.Registry.FinishStandardSession | utils.py:18-47 | a chat with no conversation changes nothing; otherwise the conversation is marked finished only if the closing message went through |
| Bot.Registry.ExpireExtendedSession | utils.py:53-76 | the conversation is marked expired exactly when it exists, is an extended session and the notice went through; its state is not checked |
| Bot.Registry.FireTimer | utils.py:49-76 | a due timer is used up and runs the expiry for its chat; nothing else changes |
| Bot.Registry.NotifyAdminUserQuestion | services.py:7-47 | with an administrator configured, the asker becomes the last asker and their question is stored in order, replacing an earlier one in place; otherwise nothing changes |
| Bot.Registry.ShowPaymentInformation | handlers.py:48-84 | without complete payment data, or when the instructions fail to send, nothing is stored; otherwise the pending payment is replaced by one holding only the session type, price and name |
| Bot.Registry.ForwardPaymentProof | handlers.py:86-197 | the receipt paths refuse without notifications configured, ask the user to choose first without a pending payment, and otherwise forward the proof with a `/confirmar_pago` command for the pending session type; no store changes |
| Bot.Registry.SelectService | handlers.py:556-575 | a service label sets the service on an existing pending payment only; no payment is created |
| Bot.Registry.SelectSession | handlers.py:577-595 | a session label builds or updates the pending payment with the session type and its table price (coaching by default), then the outcome of showing the payment information decides the final entry |
| Bot.Registry.AskQuestion | handlers.py:608-626 | a text in an active session appends exactly one history entry and, with an administrator configured, stores the question and sets the last asker |
| Bot.Registry.HandleText | handlers.py:532-635 | for each branch of the dispatch order (administrator, welcome, payment reference, service, session, main menu, question, fallback), the reply and the whole new state |
| Bot.Registry.ConfirmPayment | handlers.py:199-265 | refusal, usage and invalid-id replies change nothing; an unknown chat creates nothing; otherwise the payment is removed and the session activated with the pending name and service (coaching by default), an extended-session timer is armed only when the user was told, and the administrator's acknowledgement carries the session name as the source computes it, which is None |
| Bot.Registry.Reply | handlers.py:267-312 | after the send, a standard active session ends; the pending question is dropped only once the administrator was acknowledged; a failed send changes nothing |
| Bot.Registry.QuickReply | handlers.py:314-373 | needs a last asker and an argument; after the send, that user's pending question is dropped before the acknowledgement and a standard active session ends; the last asker stays set |
| Bot.Registry.NumberedReply | handlers.py:425-478 | `/rN` answers the N-th pending question in iteration order; after the acknowledgement exactly that entry is cut out, and the others keep their order |
| Bot.Registry.ListPending | handlers.py:375-395 | `/pendientes` lists every pending question in iteration order, numbered from 1, so item i is the question `/r<i>` answers |
| Bot.Registry.LastQuestion | handlers.py:397-423 | `/ultima` shows the last asker's pending question, or only their id once it has been answered |
| Bot.Registry.AdminStatus | handlers.py:500-530 | `/admin` reports the number of pending questions, active sessions and pending payments, and the last asker |
| Scenarios.OpenStandardSessionAndAsk | handlers.py:577-626 | choosing the standard session, confirmation and one question open an active standard session and append the question at the end of the pending list |
| Scenarios.ReplyToSecondOfThree | handlers.py:425-478 | with three questions pending, `/r2` answers the second asker and ends their standard session, and the list then numbers the other two as 1 and 2 |
| Scenarios.ConfirmWithoutPendingPayment | handlers.py:215-219 | a confirmation for a chat with no pending payment opens no session and arms no timer |
| Scenarios.StandardSessionWithoutPaymentData | handlers.py:577-595 | without payment data, the session label leaves the entry as built: the coaching service, the standard type and $2 |
| Scenarios.ServiceChoiceLost | handlers.py:79-83 | a service chosen before the session label is not recorded, so the confirmed session is a coaching session |
| Scenarios.ReferenceAfterIdleIsWelcomed | utils.py:132-137 | once the payment instructions were shown, a reference sent after more than two minutes gets the welcome menu instead of being forwarded |
| Scenarios.StaleTimerExpiresNewerSession | utils.py:53-73 | the timer armed by an earlier extended-session confirmation expires a later extended session of the same chat before its 20 minutes are up |

## Left out

- Message texts, Markdown formatting and reply-keyboard markup are not modelled. Outcomes
  name which reply was sent, and keyboards are modelled only where the welcome path chooses
  one.
- The service descriptions of `RESUMEN_SERVICIOS` are not modelled. The outcome carries the
  service code.
- Failed outbound sends are booleans. Other exceptions cannot occur under the registry
  invariant; the missing-key case of `nombre_usuario` is an example.
- `start_handler` and `respuesta_rapida_handler` are not modelled. They only send a greeting
  or a help text and touch no store.
- The photo download and the temporary files are not modelled (`save_temp_file` and
  `cleanup_temp_file`, and the download in `photo_handler`). They are file and network I/O;
  a failure there takes the same path as a failed forward.
- Floating point: prices are the whole dollar amounts 2 and 4. The bolívar amount
  (price × `TASA_BCV`) is not computed. The exchange rate counts only for whether it is
  truthy.
- Configuration loading from the environment (config.py:7-32) is not modelled. `Settings`
  is a parameter, and the administrator id is already converted to an integer or absent.
- Clocks: `datetime.now()` becomes the parameter `now`, in whole seconds. The `%H:%M`
  rendering of question timestamps is not modelled.
- Concurrency: each handler runs as one atomic step, and interleavings at its `await`
  points are not modelled. The 20-minute sleep of `iniciar_temporizador_extendida` is
  modelled as an armed `Timer` that `FireTimer` runs once it is due.
- The guards for updates without a message or user (`if not update.message: return`) are
  not modelled.
- A missing Telegram `first_name` is the empty string here, not None. `DisplayName` supplies
  "Usuario" where the source does.
- Command parsing by the chat library is not modelled. Arguments arrive already split on
  whitespace. `/r1`..`/r9` arrive with their number taken from the command name.
- Bot.Registry.NumberedReply: requires 1 <= n <= 9, because only the commands `/r1` to `/r9`
  are registered (main.py:69-70).
- Text.ParseInt: accepts an optional sign and ASCII digits with single underscores between
  them. Python's `int()` also accepts other Unicode decimal digits and surrounding
  whitespace; the chat library's splitting removes the whitespace anyway.
- Bot.Registry.ListPending: returns the numbered entries and not the formatted message.
- Bot.Registry.LastQuestion: returns the question record and not the formatted message.
- The model follows the code on two points a reader might expect to differ:
  - The extended-session expiry checks only that the chat's conversation is an extended
    session, not which confirmation armed the timer (see
    `Scenarios.StaleTimerExpiresNewerSession`).
  - A service chosen before a session label is never recorded, and showing the payment
    instructions replaces the pending entry without its service (see
    `Scenarios.ServiceChoiceLost`).

## Findings

| source | as written | input that shows it | evidently intended | confidence | as-written member | corrected member |
|---|---|---|---|---|---|---|
| services.py:58-63 | `format_session_name` builds its table of names and ends without a return statement, so it returns None for every code | `format_session_name("sesion_estandar")` gives None, so the administrator's confirmation reads "Se activó la None." | return the display name, and fall back to the code itself the way `format_service_name` does | high; not executed | Services.SessionNameLostAsWritten | Services.FormatSessionName |

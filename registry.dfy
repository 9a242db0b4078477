/**
 * The bot's in-memory registry and the handlers that drive it. The five module-level
 * stores of utils.py become the fields of one `Registry`; every handler is a method whose
 * postcondition gives the whole new state. Each outbound send whose failure changes what
 * the handler leaves behind is a boolean parameter saying whether it went through; the
 * clock is the parameter `now`, in seconds.
 */
module Bot {
  import opened Wrappers
  import opened Config
  import opened Text
  import opened OrderedMap
  import opened Model
  import opened Utils
  import opened Services

  /** Every store at once, to say what a handler changes and what it leaves alone. */
  datatype Stores = Stores(
    pagos: map<int, PendingPayment>,
    conversations: map<int, Conversation>,
    questions: seq<(int, Question)>,
    lastAsker: Option<int>,
    lastInteraction: map<int, int>,
    timers: seq<Timer>)

  /** The branch of `message_handler` a text takes; the first test that matches wins. */
  datatype TextRoute =
    | RouteIgnored | RouteWelcome | RouteReference | RouteService
    | RouteSession | RouteMainMenu | RouteQuestion | RouteFallback

  /** The proof of payment a user sends: a photo, or a text that looks like a reference. */
  datatype Proof = Photo | TextReference(reference: string)

  /** What the user is told after sending a proof of payment. */
  datatype ReceiptReply =
    | NotificationsNotConfigured
    | SelectFirst
    | Forwarded(proof: Proof, command: seq<string>)
    | ForwardFailed

  /** What `message_handler` answers a text with. */
  datatype TextOutcome =
    | Ignored
    | WelcomeBack(keyboard: Keyboard)
    | PaymentReference(reply: ReceiptReply)
    | ServiceDescribed(service: string)
    | PaymentInstructions(sessionType: string, priceUsd: nat)
    | PaymentDataMissing
    | InstructionsFailed
    | MainMenu
    | QuestionReceived
    | MenuPrompt

  /** One numbered line of `/pendientes`. */
  datatype ListItem = ListItem(number: nat, chat: int, question: Question)

  /** What an administrator command answers. */
  datatype AdminReply =
    | NoPermission
    | Usage
    | InvalidChatId
    | NoPendingPayment(chat: int)
    | PaymentConfirmed(chat: int, userName: string, sessionName: Option<string>)
    | ConfirmationFailed(chat: int)
    | NoRecentUser
    | NoPendingQuestions
    | NoSuchQuestion(number: nat)
    | Answered(chat: int, text: string)
    | AnswerFailed
    | PendingList(items: seq<ListItem>)
    | NoRecentQuestion
    | LastPending(chat: int, question: Question)
    | LastIdOnly(chat: int)
    | Status(pendingQuestions: nat, activeSessions: nat, pendingPayments: nat, lastAsker: Option<int>)

  /** `if utils.ultimo_usuario_pregunta:` — set and not the falsy id 0. */
  predicate HasRecentAsker(lastAsker: Option<int>) {
    lastAsker.Some? && lastAsker.value != 0
  }

  /**
   * The arguments of the `/confirmar_pago <chat_id> <tipo_sesion>` command embedded in a
   * forwarded proof of payment, as the chat library splits them.
   */
  function ConfirmCommand(chat: int, sessionType: string): seq<string> {
    [ShowInt(chat), sessionType]
  }

  /** The command the administrator is handed reads back as the same chat id and session code. */
  lemma ConfirmCommandRoundTrip(chat: int, sessionType: string)
    ensures |ConfirmCommand(chat, sessionType)| == 2
    ensures ParseInt(ConfirmCommand(chat, sessionType)[0]) == Some(chat)
    ensures ConfirmCommand(chat, sessionType)[1] == sessionType
  {
    ParseShowRoundTrip(chat);
  }

  /** The dispatch order of `message_handler` over the stores as they were when the text arrived. */
  function Route(settings: Settings, s: Stores, chat: int, text: string, now: int): TextRoute {
    if IsAdmin(settings, chat) then RouteIgnored
    else if WelcomeDue(s.lastInteraction, s.pagos, s.conversations, chat, now) then RouteWelcome
    else if LooksLikePaymentReference(text) && chat in s.pagos then RouteReference
    else if text in MenuServiciosATipo then RouteService
    else if text in MenuOpcionesATipo then RouteSession
    else if text == LabelVolver then RouteMainMenu
    else if chat in s.conversations && s.conversations[chat].state == Activa then RouteQuestion
    else RouteFallback
  }

  /**
   * No menu label is ever taken for a payment reference: once past the welcome step, a
   * service label, a session label or the way back reaches its own branch even while the
   * user has a pending payment.
   */
  lemma MenuLabelsReachTheirBranch(settings: Settings, s: Stores, chat: int, text: string, now: int)
    requires !IsAdmin(settings, chat) && !WelcomeDue(s.lastInteraction, s.pagos, s.conversations, chat, now)
    ensures text in MenuServiciosATipo ==> Route(settings, s, chat, text, now) == RouteService
    ensures text in MenuOpcionesATipo ==> Route(settings, s, chat, text, now) == RouteSession
    ensures text == LabelVolver ==> Route(settings, s, chat, text, now) == RouteMainMenu
  {
    if text in MenuServiciosATipo || text in MenuOpcionesATipo || text == LabelVolver {
      assert text[0] in {'\U{1F680}', '\U{1F499}', '\U{1F4DA}', '\U{2B50}', '\U{1F48E}', '\U{1F3E0}'};
      NotReferenceWhenForeignChar(text, 0);
    }
  }

  /**
   * The welcome step of the dispatch: a user in the middle of paying (session type and
   * service both chosen) or in an active session is never welcomed back, whenever they
   * write; for anyone else the welcome is taken exactly when they count as returning.
   */
  lemma WelcomeRoute(settings: Settings, s: Stores, chat: int, text: string, now: int)
    requires !IsAdmin(settings, chat)
    ensures (chat in s.pagos && s.pagos[chat].sessionType.Some? && s.pagos[chat].service.Some?)
            || (chat in s.conversations && s.conversations[chat].state == Activa)
            ==> Route(settings, s, chat, text, now) != RouteWelcome
    ensures !((chat in s.pagos && s.pagos[chat].sessionType.Some? && s.pagos[chat].service.Some?)
              || (chat in s.conversations && s.conversations[chat].state == Activa))
            ==> (Route(settings, s, chat, text, now) == RouteWelcome <==> IsReturningUser(s.lastInteraction, chat, now))
  {
  }

  /** The number of active sessions `/admin` reports. */
  function ActiveSessionCount(convs: map<int, Conversation>): (n: nat)
    ensures n <= |convs|
  {
    var active := set c | c in convs && convs[c].state == Activa;
    SubsetCardinality(active, convs.Keys);
    |active|
  }

  lemma SubsetCardinality(a: set<int>, b: set<int>)
    requires a <= b
    ensures |a| <= |b|
  {
    assert b == a + (b - a);
    assert a * (b - a) == {};
  }

  /**
   * Opening an active session raises the `/admin` count by one unless that chat already had
   * an active session, which the new one replaces.
   */
  lemma ActivateCount(convs: map<int, Conversation>, chat: int, c: Conversation)
    requires c.state == Activa
    ensures ActiveSessionCount(convs[chat := c]) ==
      ActiveSessionCount(convs) + (if chat in convs && convs[chat].state == Activa then 0 else 1)
  {
    var before := set k | k in convs && convs[k].state == Activa;
    var m := convs[chat := c];
    var after := set k | k in m && m[k].state == Activa;
    if chat in convs && convs[chat].state == Activa {
      assert after == before;
    } else {
      assert after == before + {chat};
    }
  }

  /** Ending a standard session on reply lowers the `/admin` count by exactly the session it ends. */
  lemma AfterReplyCount(convs: map<int, Conversation>, chat: int, endSent: bool)
    ensures ActiveSessionCount(AfterReply(convs, chat, endSent)) ==
      ActiveSessionCount(convs) - (if EndsOnReply(convs, chat) && endSent then 1 else 0)
  {
    var before := set k | k in convs && convs[k].state == Activa;
    var r := AfterReply(convs, chat, endSent);
    var after := set k | k in r && r[k].state == Activa;
    if EndsOnReply(convs, chat) && endSent {
      assert after == before - {chat};
    } else {
      assert after == before;
    }
  }

  class Registry {
    /** Configuration, read-only after start-up. */
    const settings: Settings

    /** `pagos_pendientes`. */
    var pagos: map<int, PendingPayment>
    /** `conversaciones_usuarios`. */
    var conversations: map<int, Conversation>
    /** `preguntas_pendientes`, in insertion order. */
    var questions: seq<(int, Question)>
    /** `ultimo_usuario_pregunta`. */
    var lastAsker: Option<int>
    /** `user_last_interaction`, in seconds. */
    var lastInteraction: map<int, int>
    /** Extended-session timers armed and not yet fired. */
    var timers: seq<Timer>

    ghost function Snapshot(): Stores
      reads this
    {
      Stores(pagos, conversations, questions, lastAsker, lastInteraction, timers)
    }

    /**
     * The registry invariant: one pending question per chat, and every pending payment has
     * a session type, its table price and a user name.
     */
    ghost predicate Valid()
      reads this
    {
      DistinctKeys(questions) && AllWellFormed(pagos)
    }

    /** The empty stores of a freshly started process. */
    constructor (settings: Settings)
      ensures this.settings == settings && Valid()
      ensures Snapshot() == Stores(map[], map[], [], None, map[], [])
    {
      this.settings := settings;
      pagos, conversations, questions := map[], map[], [];
      lastAsker, lastInteraction, timers := None, map[], [];
    }

    // ---- utils.py ---------------------------------------------------------------------

    /**
     * `handle_returning_user`: for anyone but the administrator, classify the user against
     * the previous interaction, then record `now` whatever the outcome; welcome them when
     * they are returning and the welcome gate is open.
     */
    method HandleReturningUser(chat: int, now: int) returns (handled: bool, keyboard: Keyboard)
      requires Valid()
      modifies this
      ensures Valid()
      ensures IsAdmin(settings, chat) ==> !handled && Snapshot() == old(Snapshot())
      ensures !IsAdmin(settings, chat) ==>
        Snapshot() == old(Snapshot()).(lastInteraction := old(lastInteraction)[chat := now])
        && handled == WelcomeDue(old(lastInteraction), pagos, conversations, chat, now)
      ensures handled ==> keyboard == KeyboardFor(pagos, conversations, chat)
    {
      keyboard := ServiceKeyboard();
      if IsAdmin(settings, chat) {
        return false, keyboard;
      }
      var returning := IsReturningUser(lastInteraction, chat, now);
      lastInteraction := lastInteraction[chat := now];
      if !returning {
        return false, keyboard;
      }
      if !ShouldShowWelcomeMenu(pagos, conversations, chat) {
        return false, keyboard;
      }
      keyboard := KeyboardFor(pagos, conversations, chat);
      handled := true;
    }

    /**
     * `finalizar_sesion_estandar`: nothing without a conversation; otherwise tell the user
     * and, only if that message went through, mark the session 'finalizada'.
     */
    method FinishStandardSession(chat: int, sendOk: bool)
      requires Valid()
      modifies this
      ensures Valid()
      ensures Snapshot() == old(Snapshot()).(conversations :=
        if chat in old(conversations) && sendOk
        then old(conversations)[chat := old(conversations)[chat].(state := Finalizada)]
        else old(conversations))
    {
      if chat !in conversations {
        return;
      }
      if sendOk {
        conversations := conversations[chat := conversations[chat].(state := Finalizada)];
      }
    }

    /**
     * `iniciar_temporizador_extendida` after its 20-minute wait: expire the conversation if
     * it exists, is an extended session and the notice went through. The state is not
     * checked, so an older timer also expires a newer extended session of the same chat.
     */
    method ExpireExtendedSession(chat: int, sendOk: bool)
      requires Valid()
      modifies this
      ensures Valid()
      ensures Snapshot() == old(Snapshot()).(conversations :=
        if chat in old(conversations) && old(conversations)[chat].sessionType == SesionExtendida && sendOk
        then old(conversations)[chat := old(conversations)[chat].(state := ExpiradaExtendida)]
        else old(conversations))
    {
      if chat in conversations && conversations[chat].sessionType == SesionExtendida {
        if sendOk {
          conversations := conversations[chat := conversations[chat].(state := ExpiradaExtendida)];
        }
      }
    }

    /** The `k`-th armed timer fires once its wait is over: it is used up and runs the expiry. */
    method FireTimer(k: nat, now: int, sendOk: bool)
      requires Valid() && k < |timers| && timers[k].due <= now
      modifies this
      ensures Valid()
      ensures var chat := old(timers)[k].chat;
        Snapshot() == old(Snapshot()).(
          timers := old(timers)[..k] + old(timers)[k + 1..],
          conversations :=
            if chat in old(conversations) && old(conversations)[chat].sessionType == SesionExtendida && sendOk
            then old(conversations)[chat := old(conversations)[chat].(state := ExpiradaExtendida)]
            else old(conversations))
    {
      var chat := timers[k].chat;
      timers := timers[..k] + timers[k + 1..];
      ExpireExtendedSession(chat, sendOk);
    }

    // ---- services.py ------------------------------------------------------------------

    /**
     * `notify_admin_user_question`: with an administrator configured, remember the asker as
     * the last one and store the question under their chat id, replacing an earlier one
     * in its place. These writes come before the notice to the administrator, so whether
     * that notice goes through does not matter to the stores.
     */
    method NotifyAdminUserQuestion(chat: int, name: string, text: string, now: int)
      requires Valid()
      modifies this
      ensures Valid()
      ensures !AdminConfigured(settings) ==> Snapshot() == old(Snapshot())
      ensures AdminConfigured(settings) ==>
        Snapshot() == old(Snapshot()).(
          lastAsker := Some(chat),
          questions := Put(old(questions), chat, Question(name, text, now)))
    {
      if !AdminConfigured(settings) {
        return;
      }
      lastAsker := Some(chat);
      PutKeepsDistinct(questions, chat, Question(name, text, now));
      questions := Put(questions, chat, Question(name, text, now));
    }

    // ---- handlers.py: user side -------------------------------------------------------

    /**
     * `mostrar_informacion_pago`: with the payment data configured, send the instructions
     * and, once they went through, replace the pending payment by one holding only the
     * session type, price and name (any chosen service is dropped). Without the data, or
     * when the send fails, nothing is stored.
     */
    method ShowPaymentInformation(chat: int, firstName: string, sessionType: string, priceUsd: nat, sendOk: bool)
      returns (outcome: TextOutcome)
      requires Valid() && sessionType in PrecioSesion && priceUsd == PrecioSesion[sessionType]
      modifies this
      ensures Valid()
      ensures !PaymentDataComplete(settings) ==> outcome == PaymentDataMissing && Snapshot() == old(Snapshot())
      ensures PaymentDataComplete(settings) && !sendOk ==> outcome == InstructionsFailed && Snapshot() == old(Snapshot())
      ensures PaymentDataComplete(settings) && sendOk ==>
        outcome == PaymentInstructions(sessionType, priceUsd)
        && Snapshot() == old(Snapshot()).(pagos :=
             old(pagos)[chat := PendingPayment(None, Some(sessionType), Some(priceUsd), Some(firstName))])
    {
      if !PaymentDataComplete(settings) {
        return PaymentDataMissing;
      }
      if !sendOk {
        return InstructionsFailed;
      }
      pagos := pagos[chat := PendingPayment(None, Some(sessionType), Some(priceUsd), Some(firstName))];
      outcome := PaymentInstructions(sessionType, priceUsd);
    }

    /**
     * `photo_handler` and `handle_text_payment_reference`: with notifications configured and
     * a pending payment, hand the administrator the proof with the ready-made confirmation
     * command. No store changes on any path.
     */
    method ForwardPaymentProof(chat: int, proof: Proof, sendOk: bool) returns (reply: ReceiptReply)
      requires Valid()
      ensures !NotificationsConfigured(settings) ==> reply == NotificationsNotConfigured
      ensures NotificationsConfigured(settings) && chat !in pagos ==> reply == SelectFirst
      ensures NotificationsConfigured(settings) && chat in pagos ==>
        reply == if sendOk then Forwarded(proof, ConfirmCommand(chat, pagos[chat].sessionType.value)) else ForwardFailed
    {
      if !NotificationsConfigured(settings) {
        return NotificationsNotConfigured;
      }
      if chat !in pagos {
        return SelectFirst;
      }
      var info := pagos[chat];
      if !sendOk {
        return ForwardFailed;
      }
      reply := Forwarded(proof, ConfirmCommand(chat, info.sessionType.value));
    }

    /**
     * A service label: record the chosen service on the pending payment if one exists (a
     * missing one is not created) and describe the service.
     */
    method SelectService(chat: int, service: string) returns (outcome: TextOutcome)
      requires Valid()
      modifies this
      ensures Valid()
      ensures outcome == ServiceDescribed(service)
      ensures Snapshot() == old(Snapshot()).(pagos :=
        if chat in old(pagos) then old(pagos)[chat := old(pagos)[chat].(service := Some(service))] else old(pagos))
    {
      if chat in pagos {
        pagos := pagos[chat := pagos[chat].(service := Some(service))];
      }
      outcome := ServiceDescribed(service);
    }

    /**
     * A session label: make sure a pending payment exists (with the coaching service by
     * default), set its session type and table price, then show the payment information.
     */
    method SelectSession(chat: int, firstName: string, sessionType: string, sendOk: bool) returns (outcome: TextOutcome)
      requires Valid() && sessionType in PrecioSesion
      modifies this
      ensures Valid()
      ensures var price := PrecioSesion[sessionType];
        var built := (if chat in old(pagos) then old(pagos)[chat]
                      else PendingPayment(Some(ServicioCoach), None, None, Some(DisplayName(firstName))))
                     .(sessionType := Some(sessionType), priceUsd := Some(price));
        var saved := PaymentDataComplete(settings) && sendOk;
        outcome == (if !PaymentDataComplete(settings) then PaymentDataMissing
                    else if sendOk then PaymentInstructions(sessionType, price) else InstructionsFailed)
        && Snapshot() == old(Snapshot()).(pagos := old(pagos)[chat :=
             if saved then PendingPayment(None, Some(sessionType), Some(price), Some(firstName)) else built])
    {
      var price := PrecioSesion[sessionType];
      if chat !in pagos {
        pagos := pagos[chat := PendingPayment(Some(ServicioCoach), None, None, Some(DisplayName(firstName)))];
      }
      pagos := pagos[chat := pagos[chat].(sessionType := Some(sessionType), priceUsd := Some(price))];
      outcome := ShowPaymentInformation(chat, firstName, sessionType, price, sendOk);
    }

    /**
     * A text from a user in an active session: append exactly one history entry, register
     * the question with the administrator and acknowledge it.
     */
    method AskQuestion(chat: int, name: string, text: string, now: int) returns (outcome: TextOutcome)
      requires Valid() && chat in conversations && conversations[chat].state == Activa
      modifies this
      ensures Valid()
      ensures var c := old(conversations)[chat];
        var asked := AdminConfigured(settings);
        outcome == QuestionReceived
        && Snapshot() == old(Snapshot()).(
             conversations := old(conversations)[chat := c.(history := c.history + [HistoryEntry(now, text)])],
             questions := if asked then Put(old(questions), chat, Question(name, text, now)) else old(questions),
             lastAsker := if asked then Some(chat) else old(lastAsker))
    {
      var c := conversations[chat];
      conversations := conversations[chat := c.(history := c.history + [HistoryEntry(now, text)])];
      NotifyAdminUserQuestion(chat, name, text, now);
      outcome := QuestionReceived;
    }

    /**
     * `message_handler`. `sendOk` says whether the send the taken branch depends on went
     * through (the payment instructions, or the forwarded reference).
     */
    method HandleText(chat: int, firstName: string, text: string, now: int, sendOk: bool)
      returns (outcome: TextOutcome)
      requires Valid()
      modifies this
      ensures Valid()
      ensures Route(settings, old(Snapshot()), chat, text, now) == RouteIgnored ==>
        outcome == Ignored && Snapshot() == old(Snapshot())
      ensures Route(settings, old(Snapshot()), chat, text, now) == RouteWelcome ==>
        outcome == WelcomeBack(KeyboardFor(old(pagos), old(conversations), chat))
        && Snapshot() == old(Snapshot()).(lastInteraction := old(lastInteraction)[chat := now])
      ensures Route(settings, old(Snapshot()), chat, text, now) == RouteReference ==>
        outcome == PaymentReference(
          if !NotificationsConfigured(settings) then NotificationsNotConfigured
          else if sendOk then Forwarded(TextReference(Strip(text)), ConfirmCommand(chat, old(pagos)[chat].sessionType.value))
          else ForwardFailed)
        && Snapshot() == old(Snapshot()).(lastInteraction := old(lastInteraction)[chat := now])
      ensures Route(settings, old(Snapshot()), chat, text, now) == RouteService ==>
        var service := MenuServiciosATipo[text];
        outcome == ServiceDescribed(service)
        && Snapshot() == old(Snapshot()).(
             lastInteraction := old(lastInteraction)[chat := now],
             pagos := if chat in old(pagos) then old(pagos)[chat := old(pagos)[chat].(service := Some(service))]
                      else old(pagos))
      ensures Route(settings, old(Snapshot()), chat, text, now) == RouteSession ==>
        var sessionType := MenuOpcionesATipo[text];
        sessionType in PrecioSesion
        && var price := PrecioSesion[sessionType];
        var built := (if chat in old(pagos) then old(pagos)[chat]
                      else PendingPayment(Some(ServicioCoach), None, None, Some(DisplayName(firstName))))
                     .(sessionType := Some(sessionType), priceUsd := Some(price));
        var saved := PaymentDataComplete(settings) && sendOk;
        outcome == (if !PaymentDataComplete(settings) then PaymentDataMissing
                    else if sendOk then PaymentInstructions(sessionType, price) else InstructionsFailed)
        && Snapshot() == old(Snapshot()).(
             lastInteraction := old(lastInteraction)[chat := now],
             pagos := old(pagos)[chat := if saved then PendingPayment(None, Some(sessionType), Some(price), Some(firstName))
                                        else built])
      ensures Route(settings, old(Snapshot()), chat, text, now) == RouteMainMenu ==>
        outcome == MainMenu
        && Snapshot() == old(Snapshot()).(lastInteraction := old(lastInteraction)[chat := now])
      ensures Route(settings, old(Snapshot()), chat, text, now) == RouteQuestion ==>
        var c := old(conversations)[chat];
        var asked := AdminConfigured(settings);
        outcome == QuestionReceived
        && Snapshot() == old(Snapshot()).(
             lastInteraction := old(lastInteraction)[chat := now],
             conversations := old(conversations)[chat := c.(history := c.history + [HistoryEntry(now, text)])],
             questions := if asked then Put(old(questions), chat, Question(DisplayName(firstName), text, now))
                          else old(questions),
             lastAsker := if asked then Some(chat) else old(lastAsker))
      ensures Route(settings, old(Snapshot()), chat, text, now) == RouteFallback ==>
        outcome == MenuPrompt
        && Snapshot() == old(Snapshot()).(lastInteraction := old(lastInteraction)[chat := now])
    {
      if IsAdmin(settings, chat) {
        return Ignored;
      }
      var handled, keyboard := HandleReturningUser(chat, now);
      if handled {
        return WelcomeBack(keyboard);
      }
      var name := DisplayName(firstName);
      if LooksLikePaymentReference(text) && chat in pagos {
        var reply := ForwardPaymentProof(chat, TextReference(Strip(text)), sendOk);
        return PaymentReference(reply);
      }
      if text in MenuServiciosATipo {
        outcome := SelectService(chat, MenuServiciosATipo[text]);
        return;
      }
      if text in MenuOpcionesATipo {
        outcome := SelectSession(chat, firstName, MenuOpcionesATipo[text], sendOk);
        return;
      }
      if text == LabelVolver {
        return MainMenu;
      }
      if chat in conversations && conversations[chat].state == Activa {
        outcome := AskQuestion(chat, name, text, now);
        return;
      }
      outcome := MenuPrompt;
    }

    // ---- handlers.py: administrator side ----------------------------------------------

    /**
     * `/confirmar_pago <chat_id> <tipo_sesion>`: move the chat's pending payment into an
     * active conversation of the given type (the name and service come from the pending
     * record, the service defaulting to coaching), then tell the user; only when that
     * message went through is an extended session's expiry timer armed. The acknowledgement
     * names the session through `format_session_name` as written, so that name is None.
     */
    method ConfirmPayment(sender: int, args: seq<string>, now: int, userSendOk: bool) returns (reply: AdminReply)
      requires Valid()
      modifies this
      ensures Valid()
      ensures !IsAdmin(settings, sender) ==> reply == NoPermission && Snapshot() == old(Snapshot())
      ensures IsAdmin(settings, sender) && |args| != 2 ==> reply == Usage && Snapshot() == old(Snapshot())
      ensures IsAdmin(settings, sender) && |args| == 2 && ParseInt(args[0]).None? ==>
        reply == InvalidChatId && Snapshot() == old(Snapshot())
      ensures IsAdmin(settings, sender) && |args| == 2 && ParseInt(args[0]).Some? && ParseInt(args[0]).value !in old(pagos) ==>
        reply == NoPendingPayment(ParseInt(args[0]).value) && Snapshot() == old(Snapshot())
      ensures IsAdmin(settings, sender) && |args| == 2 && ParseInt(args[0]).Some? && ParseInt(args[0]).value in old(pagos) ==>
        var chat, sessionType := ParseInt(args[0]).value, args[1];
        var info := old(pagos)[chat];
        info.userName.Some?
        && reply == (if userSendOk then PaymentConfirmed(chat, info.userName.value, FormatSessionNameAsWritten(sessionType))
                   else ConfirmationFailed(chat))
        && Snapshot() == old(Snapshot()).(
             pagos := old(pagos) - {chat},
             conversations := old(conversations)[chat := Activated(info, sessionType)],
             timers := old(timers) + if userSendOk && sessionType == SesionExtendida
                                     then [Timer(chat, now + ExtendedSessionSeconds)] else [])
    {
      if !IsAdmin(settings, sender) {
        return NoPermission;
      }
      if |args| != 2 {
        return Usage;
      }
      var parsed := ParseInt(args[0]);
      if parsed.None? {
        return InvalidChatId;
      }
      var chat, sessionType := parsed.value, args[1];
      if chat !in pagos {
        return NoPendingPayment(chat);
      }
      var info := pagos[chat];
      conversations := conversations[chat := Activated(info, sessionType)];
      pagos := pagos - {chat};
      if !userSendOk {
        return ConfirmationFailed(chat);
      }
      if sessionType == SesionExtendida {
        timers := timers + [Timer(chat, now + ExtendedSessionSeconds)];
      }
      reply := PaymentConfirmed(chat, info.userName.value, FormatSessionNameAsWritten(sessionType));
    }

    /**
     * `/responder <chat_id> <text...>`: send the text; then end the target's standard active
     * session, and once the administrator has been told, drop the target's pending
     * question. A failed send to the user changes nothing.
     */
    method Reply(sender: int, args: seq<string>, userSendOk: bool, endSendOk: bool, ackOk: bool)
      returns (reply: AdminReply)
      requires Valid()
      modifies this
      ensures Valid()
      ensures !IsAdmin(settings, sender) ==> reply == NoPermission && Snapshot() == old(Snapshot())
      ensures IsAdmin(settings, sender) && |args| < 2 ==> reply == Usage && Snapshot() == old(Snapshot())
      ensures IsAdmin(settings, sender) && |args| >= 2 && ParseInt(args[0]).None? ==>
        reply == InvalidChatId && Snapshot() == old(Snapshot())
      ensures IsAdmin(settings, sender) && |args| >= 2 && ParseInt(args[0]).Some? && !userSendOk ==>
        reply == AnswerFailed && Snapshot() == old(Snapshot())
      ensures IsAdmin(settings, sender) && |args| >= 2 && ParseInt(args[0]).Some? && userSendOk ==>
        var chat := ParseInt(args[0]).value;
        reply == (if ackOk then Answered(chat, Join(args[1..])) else AnswerFailed)
        && Snapshot() == old(Snapshot()).(
             conversations := AfterReply(old(conversations), chat, endSendOk),
             questions := if ackOk then Remove(old(questions), chat) else old(questions))
    {
      if !IsAdmin(settings, sender) {
        return NoPermission;
      }
      if |args| < 2 {
        return Usage;
      }
      var parsed := ParseInt(args[0]);
      if parsed.None? {
        return InvalidChatId;
      }
      var chat := parsed.value;
      if !userSendOk {
        return AnswerFailed;
      }
      if EndsOnReply(conversations, chat) {
        FinishStandardSession(chat, endSendOk);
      }
      if !ackOk {
        return AnswerFailed;
      }
      RemoveKeepsDistinct(questions, chat);
      questions := Remove(questions, chat);
      reply := Answered(chat, Join(args[1..]));
    }

    /**
     * `/r <text...>`: answer the last user who asked. Needs that user to be set; after the
     * send, their pending question is dropped and a standard active session ended. The
     * last asker itself stays set.
     */
    method QuickReply(sender: int, args: seq<string>, userSendOk: bool, endSendOk: bool, ackOk: bool)
      returns (reply: AdminReply)
      requires Valid()
      modifies this
      ensures Valid()
      ensures !IsAdmin(settings, sender) ==> reply == NoPermission && Snapshot() == old(Snapshot())
      ensures IsAdmin(settings, sender) && !HasRecentAsker(old(lastAsker)) ==>
        reply == NoRecentUser && Snapshot() == old(Snapshot())
      ensures IsAdmin(settings, sender) && HasRecentAsker(old(lastAsker)) && |args| == 0 ==>
        reply == Usage && Snapshot() == old(Snapshot())
      ensures IsAdmin(settings, sender) && HasRecentAsker(old(lastAsker)) && |args| > 0 && !userSendOk ==>
        reply == AnswerFailed && Snapshot() == old(Snapshot())
      ensures IsAdmin(settings, sender) && HasRecentAsker(old(lastAsker)) && |args| > 0 && userSendOk ==>
        var chat := old(lastAsker).value;
        reply == (if ackOk then Answered(chat, Join(args)) else AnswerFailed)
        && Snapshot() == old(Snapshot()).(
             conversations := AfterReply(old(conversations), chat, endSendOk),
             questions := Remove(old(questions), chat))
    {
      if !IsAdmin(settings, sender) {
        return NoPermission;
      }
      if !HasRecentAsker(lastAsker) {
        return NoRecentUser;
      }
      if |args| == 0 {
        return Usage;
      }
      var chat := lastAsker.value;
      if !userSendOk {
        return AnswerFailed;
      }
      RemoveKeepsDistinct(questions, chat);
      questions := Remove(questions, chat);
      if EndsOnReply(conversations, chat) {
        FinishStandardSession(chat, endSendOk);
      }
      reply := if ackOk then Answered(chat, Join(args)) else AnswerFailed;
    }

    /**
     * `/r1`..`/r9 <text...>`: answer the `n`-th pending question in iteration order. After
     * the administrator has been told, exactly that entry is cut out of the pending list.
     */
    method NumberedReply(sender: int, n: nat, args: seq<string>, userSendOk: bool, endSendOk: bool, ackOk: bool)
      returns (reply: AdminReply)
      requires Valid() && 1 <= n <= 9
      modifies this
      ensures Valid()
      ensures !IsAdmin(settings, sender) ==> reply == NoPermission && Snapshot() == old(Snapshot())
      ensures IsAdmin(settings, sender) && old(questions) == [] ==>
        reply == NoPendingQuestions && Snapshot() == old(Snapshot())
      ensures IsAdmin(settings, sender) && old(questions) != [] && |args| == 0 ==>
        reply == Usage && Snapshot() == old(Snapshot())
      ensures IsAdmin(settings, sender) && old(questions) != [] && |args| > 0 && n > |old(questions)| ==>
        reply == NoSuchQuestion(n) && Snapshot() == old(Snapshot())
      ensures IsAdmin(settings, sender) && |args| > 0 && n <= |old(questions)| && !userSendOk ==>
        reply == AnswerFailed && Snapshot() == old(Snapshot())
      ensures IsAdmin(settings, sender) && |args| > 0 && n <= |old(questions)| && userSendOk ==>
        var chat := old(questions)[n - 1].0;
        reply == (if ackOk then Answered(chat, Join(args)) else AnswerFailed)
        && Snapshot() == old(Snapshot()).(
             conversations := AfterReply(old(conversations), chat, endSendOk),
             questions := if ackOk then old(questions)[..n - 1] + old(questions)[n..] else old(questions))
    {
      if !IsAdmin(settings, sender) {
        return NoPermission;
      }
      if |questions| == 0 {
        return NoPendingQuestions;
      }
      if |args| == 0 {
        return Usage;
      }
      if n > |questions| {
        return NoSuchQuestion(n);
      }
      var chat := questions[n - 1].0;
      if !userSendOk {
        return AnswerFailed;
      }
      if EndsOnReply(conversations, chat) {
        FinishStandardSession(chat, endSendOk);
      }
      if !ackOk {
        return AnswerFailed;
      }
      RemoveAt(questions, n - 1);
      CutKeepsDistinct(questions, n - 1);
      questions := Remove(questions, chat);
      reply := Answered(chat, Join(args));
    }

    /**
     * `/pendientes`: every pending question in iteration order, numbered from 1; number `i`
     * is the entry `/r<i>` answers.
     */
    method ListPending(sender: int) returns (reply: AdminReply)
      ensures !IsAdmin(settings, sender) ==> reply == NoPermission
      ensures IsAdmin(settings, sender) && questions == [] ==> reply == NoPendingQuestions
      ensures IsAdmin(settings, sender) && questions != [] ==>
        reply.PendingList? && |reply.items| == |questions|
        && forall i :: 0 <= i < |questions| ==> reply.items[i] == ListItem(i + 1, questions[i].0, questions[i].1)
    {
      if !IsAdmin(settings, sender) {
        return NoPermission;
      }
      if |questions| == 0 {
        return NoPendingQuestions;
      }
      var items: seq<ListItem> := [];
      var i := 0;
      while i < |questions|
        invariant 0 <= i <= |questions|
        invariant |items| == i
        invariant forall j :: 0 <= j < i ==> items[j] == ListItem(j + 1, questions[j].0, questions[j].1)
      {
        items := items + [ListItem(i + 1, questions[i].0, questions[i].1)];
        i := i + 1;
      }
      reply := PendingList(items);
    }

    /** `/ultima`: the last asker's pending question, or just their id once it was answered. */
    method LastQuestion(sender: int) returns (reply: AdminReply)
      requires Valid()
      ensures !IsAdmin(settings, sender) ==> reply == NoPermission
      ensures IsAdmin(settings, sender) && !HasRecentAsker(lastAsker) ==> reply == NoRecentQuestion
      ensures IsAdmin(settings, sender) && HasRecentAsker(lastAsker) ==>
        var chat := lastAsker.value;
        (forall i :: 0 <= i < |questions| && questions[i].0 == chat ==> reply == LastPending(chat, questions[i].1))
        && (!HasKey(questions, chat) ==> reply == LastIdOnly(chat))
    {
      if !IsAdmin(settings, sender) {
        return NoPermission;
      }
      if !HasRecentAsker(lastAsker) {
        return NoRecentQuestion;
      }
      var chat := lastAsker.value;
      var q := Get(questions, chat);
      if q.Some? {
        forall i | 0 <= i < |questions| && questions[i].0 == chat ensures q == Some(questions[i].1) {
          GetAt(questions, i);
        }
        reply := LastPending(chat, q.value);
      } else {
        reply := LastIdOnly(chat);
      }
    }

    /** `/admin`: the counts of pending questions, active sessions and pending payments, and the last asker. */
    method AdminStatus(sender: int) returns (reply: AdminReply)
      ensures !IsAdmin(settings, sender) ==> reply == NoPermission
      ensures IsAdmin(settings, sender) ==>
        reply.Status?
        && reply.pendingQuestions == |questions| && reply.pendingPayments == |pagos|
        && reply.activeSessions == |set c | c in conversations && conversations[c].state == Activa|
        && reply.activeSessions <= |conversations|
        && reply.lastAsker == (if HasRecentAsker(lastAsker) then lastAsker else None)
    {
      if !IsAdmin(settings, sender) {
        return NoPermission;
      }
      reply := Status(|questions|, ActiveSessionCount(conversations), |pagos|,
                      if HasRecentAsker(lastAsker) then lastAsker else None);
    }
  }
}

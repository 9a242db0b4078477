/**
 * The pure reads of utils.py: the returning-user classifier, the welcome-menu gate, the
 * keyboard chooser and the three keyboard layouts, each over the stores it reads.
 */
module Utils {
  import opened Wrappers
  import opened Config
  import opened Model

  /** A keyboard layout: rows of button labels. */
  type Keyboard = seq<seq<string>>

  /** Idle time, in seconds, after which a user counts as returning. */
  const ReturningUserIdleSeconds: int := 120

  /** `generate_service_keyboard`. */
  function ServiceKeyboard(): Keyboard {
    [[LabelCoach, LabelApoyo], [LabelDocentes]]
  }

  /** `generate_session_keyboard`; also the keyboard sent when a session ends or expires. */
  function SessionKeyboard(): Keyboard {
    [[LabelEstandar], [LabelExtendida], [LabelVolver]]
  }

  /** `generate_main_menu_keyboard`. */
  function MainMenuKeyboard(): Keyboard {
    [[LabelCoach, LabelApoyo], [LabelDocentes]]
  }

  /** Every label of a keyboard, row by row. */
  function Labels(kb: Keyboard): seq<string> {
    if kb == [] then [] else kb[0] + Labels(kb[1..])
  }

  /**
   * The service keyboard offers exactly the labels the dispatcher maps to a service, each
   * once, and the main menu is the service keyboard.
   */
  lemma ServiceKeyboardMatchesMenu()
    ensures (set l | l in Labels(ServiceKeyboard())) == MenuServiciosATipo.Keys
    ensures |Labels(ServiceKeyboard())| == |MenuServiciosATipo|
    ensures MainMenuKeyboard() == ServiceKeyboard()
  {
    assert Labels(ServiceKeyboard()) == [LabelCoach, LabelApoyo, LabelDocentes];
    assert MenuServiciosATipo.Keys == {LabelCoach, LabelApoyo, LabelDocentes};
    assert LabelCoach[0] != LabelApoyo[0] && LabelCoach[0] != LabelDocentes[0] && LabelApoyo[0] != LabelDocentes[0];
  }

  /**
   * The session keyboard offers exactly the labels the dispatcher maps to a session type,
   * plus the way back, each once.
   */
  lemma SessionKeyboardMatchesMenu()
    ensures (set l | l in Labels(SessionKeyboard())) == MenuOpcionesATipo.Keys + {LabelVolver}
    ensures |Labels(SessionKeyboard())| == |MenuOpcionesATipo| + 1
  {
    assert Labels(SessionKeyboard()) == [LabelEstandar, LabelExtendida, LabelVolver];
    assert MenuOpcionesATipo.Keys == {LabelEstandar, LabelExtendida};
    assert LabelEstandar[0] != LabelExtendida[0];
  }

  /** `is_returning_user`: a recorded interaction more than 120 seconds ago. */
  predicate IsReturningUser(lastInteraction: map<int, int>, chat: int, now: int) {
    if chat !in lastInteraction then false
    else now - lastInteraction[chat] > ReturningUserIdleSeconds
  }

  /** `should_show_welcome_menu`. */
  predicate ShouldShowWelcomeMenu(pagos: map<int, PendingPayment>, convs: map<int, Conversation>, chat: int) {
    if chat in pagos && pagos[chat].sessionType.Some? && pagos[chat].service.Some? then false
    else if chat in convs && convs[chat].state == Activa then false
    else true
  }

  /** `get_appropriate_keyboard_for_user`. */
  function KeyboardFor(pagos: map<int, PendingPayment>, convs: map<int, Conversation>, chat: int): Keyboard {
    if chat in convs && convs[chat].state in {Finalizada, ExpiradaExtendida} then SessionKeyboard()
    else if chat in pagos && pagos[chat].service.Some? && pagos[chat].sessionType.None? then SessionKeyboard()
    else ServiceKeyboard()
  }

  /** The welcome step of `handle_returning_user`: a returning user not held back by the gate. */
  predicate WelcomeDue(lastInteraction: map<int, int>, pagos: map<int, PendingPayment>,
                       convs: map<int, Conversation>, chat: int, now: int) {
    IsReturningUser(lastInteraction, chat, now) && ShouldShowWelcomeMenu(pagos, convs, chat)
  }

  /**
   * Once an interaction at `t` is recorded, the user counts as returning at `now` exactly
   * when more than 120 seconds have passed, whatever was recorded before.
   */
  lemma ReturningAfterRecord(lastInteraction: map<int, int>, chat: int, t: int, now: int)
    ensures IsReturningUser(lastInteraction[chat := t], chat, now) <==> now - t > 120
    ensures now <= t + 120 ==> !IsReturningUser(lastInteraction[chat := t], chat, now)
  {
  }

  /**
   * Because every pending payment the handlers create already carries a session type, the
   * keyboard chooser's second branch never fires: the session keyboard is offered exactly
   * to a user whose last session has ended or expired.
   */
  lemma KeyboardForWellFormed(pagos: map<int, PendingPayment>, convs: map<int, Conversation>, chat: int)
    requires AllWellFormed(pagos)
    ensures KeyboardFor(pagos, convs, chat) == SessionKeyboard() <==> chat in convs && convs[chat].state != Activa
    ensures KeyboardFor(pagos, convs, chat) == ServiceKeyboard() <==> !(chat in convs && convs[chat].state != Activa)
  {
    assert SessionKeyboard()[0] != ServiceKeyboard()[0];
  }
}

/**
 * End-to-end runs of the registry through its handlers, each starting from a freshly
 * started process. They show what the handlers' contracts imply for whole conversations.
 */
module Scenarios {
  import opened Wrappers
  import opened Config
  import opened Text
  import opened OrderedMap
  import opened Model
  import opened Utils
  import opened Bot

  const Admin: int := 1

  /** An administrator and complete payment details. */
  function Configured(): Settings {
    Settings(Some(Admin), Some("04140000000"), Some("V12345678"), Some("Banco"), true)
  }

  /** A user picks the standard session and the administrator confirms it. */
  method OpenStandardSession(r: Registry, user: int, name: string, now: int)
    requires r.Valid() && r.settings == Configured() && user != Admin
    requires user !in r.pagos && user !in r.conversations && user !in r.lastInteraction
    modifies r
    ensures r.Valid()
    ensures r.pagos == old(r.pagos) && r.questions == old(r.questions) && r.lastAsker == old(r.lastAsker)
    ensures r.conversations == old(r.conversations)[user := Activated(PendingPayment(None, Some(SesionEstandar), Some(2), Some(name)), SesionEstandar)]
    ensures r.lastInteraction == old(r.lastInteraction)[user := now]
  {
    ghost var s0 := r.Snapshot();
    MenuLabelsReachTheirBranch(r.settings, s0, user, LabelEstandar, now);
    assert Route(r.settings, s0, user, LabelEstandar, now) == RouteSession;
    var o1 := r.HandleText(user, name, LabelEstandar, now, true);
    assert r.pagos == s0.pagos[user := PendingPayment(None, Some(SesionEstandar), Some(2), Some(name))];
    ConfirmCommandRoundTrip(user, SesionEstandar);
    var a := r.ConfirmPayment(Admin, ConfirmCommand(user, SesionEstandar), now, true);
  }

  /** A user picks the standard session, the administrator confirms it, and the user asks a question. */
  method OpenStandardSessionAndAsk(r: Registry, user: int, name: string, question: string, now: int)
    requires r.Valid() && r.settings == Configured() && user != Admin
    requires user !in r.pagos && user !in r.conversations && user !in r.lastInteraction && !HasKey(r.questions, user)
    requires question != LabelVolver && question !in MenuServiciosATipo && question !in MenuOpcionesATipo
    modifies r
    ensures r.Valid()
    ensures r.pagos == old(r.pagos)
    ensures r.conversations.Keys == old(r.conversations.Keys) + {user}
    ensures forall c :: c in old(r.conversations) ==> c in r.conversations && r.conversations[c] == old(r.conversations)[c]
    ensures r.conversations[user].state == Activa && r.conversations[user].sessionType == SesionEstandar
    ensures r.questions == old(r.questions) + [(user, Question(DisplayName(name), question, now + 1))]
    ensures r.lastAsker == Some(user)
    ensures r.lastInteraction.Keys == old(r.lastInteraction.Keys) + {user}
  {
    OpenStandardSession(r, user, name, now);
    ghost var s1 := r.Snapshot();
    assert !WelcomeDue(s1.lastInteraction, s1.pagos, s1.conversations, user, now + 1);
    assert Route(r.settings, s1, user, question, now + 1) == RouteQuestion;
    var o2 := r.HandleText(user, name, question, now + 1, true);
    PutNew(s1.questions, user, Question(DisplayName(name), question, now + 1));
  }

  /** Three users open standard sessions and ask, in the order A (101), B (102), C (103). */
  method ThreeUsersAsk() returns (r: Registry)
    ensures fresh(r) && r.Valid() && r.settings == Configured()
    ensures r.questions == [(101, Question("Ana", "hola, una duda", 1)), (102, Question("Beto", "tengo una pregunta", 11)),
                            (103, Question("Carla", "necesito ayuda", 21))]
    ensures EndsOnReply(r.conversations, 102)
  {
    r := new Registry(Configured());
    var qa, qb := Question("Ana", "hola, una duda", 1), Question("Beto", "tengo una pregunta", 11);
    OpenStandardSessionAndAsk(r, 101, "Ana", "hola, una duda", 0);
    assert r.questions == [(101, qa)];
    OpenStandardSessionAndAsk(r, 102, "Beto", "tengo una pregunta", 10);
    assert r.questions == [(101, qa), (102, qb)];
    OpenStandardSessionAndAsk(r, 103, "Carla", "necesito ayuda", 20);
  }

  /**
   * Three users ask in the order A, B, C; `/r2 thanks` answers B, drops B's question,
   * ends B's standard session, and `/pendientes` then lists A and C as items 1 and 2.
   */
  method ReplyToSecondOfThree() returns (answered: AdminReply, listed: AdminReply, bState: SessionState)
    ensures answered == Answered(102, "thanks")
    ensures listed.PendingList? && |listed.items| == 2
    ensures listed.items[0].number == 1 && listed.items[0].chat == 101
    ensures listed.items[1].number == 2 && listed.items[1].chat == 103
    ensures bState == Finalizada
  {
    var r := ThreeUsersAsk();
    answered := r.NumberedReply(Admin, 2, ["thanks"], true, true, true);
    assert |r.questions| == 2 && r.questions[0].0 == 101 && r.questions[1].0 == 103;
    listed := r.ListPending(Admin);
    bState := r.conversations[102].state;
  }

  /** `confirmar_pago 555 sesion_extendida` with no pending payment for 555 creates nothing. */
  method ConfirmWithoutPendingPayment() returns (reply: AdminReply, created: bool)
    ensures reply == NoPendingPayment(555) && !created
  {
    var r := new Registry(Configured());
    ConfirmCommandRoundTrip(555, SesionExtendida);
    reply := r.ConfirmPayment(Admin, ConfirmCommand(555, SesionExtendida), 0, true);
    created := 555 in r.conversations || |r.timers| > 0;
  }

  /**
   * The standard-session label with no earlier selection, while the payment details are
   * missing, leaves the entry as built: default coaching service, standard type, $2.
   */
  method StandardSessionWithoutPaymentData() returns (outcome: TextOutcome, entry: PendingPayment)
    ensures outcome == PaymentDataMissing
    ensures entry == PendingPayment(Some(ServicioCoach), Some(SesionEstandar), Some(2), Some("Ana"))
  {
    var r := new Registry(Settings(Some(Admin), None, None, None, true));
    outcome := r.HandleText(7, "Ana", LabelEstandar, 0, true);
    entry := r.pagos[7];
  }

  /**
   * Choosing a service before any session label records nothing, and the payment
   * instructions drop the service anyway: the session the administrator confirms is a
   * coaching session although the user chose emotional support.
   */
  method ServiceChoiceLost() returns (service: string)
    ensures service == ServicioCoach
  {
    var r := new Registry(Configured());
    var o1 := r.HandleText(7, "Ana", LabelApoyo, 0, true);
    assert 7 !in r.pagos;
    var o2 := r.HandleText(7, "Ana", LabelEstandar, 5, true);
    assert r.pagos[7].service == None;
    ConfirmCommandRoundTrip(7, SesionEstandar);
    var a := r.ConfirmPayment(Admin, ConfirmCommand(7, SesionEstandar), 10, true);
    service := r.conversations[7].service;
  }

  /**
   * Once the payment instructions were shown, the pending payment has no service, so the
   * welcome gate is open: a user who comes back after more than two minutes with their
   * payment reference gets the welcome menu, and the reference is not forwarded.
   */
  method ReferenceAfterIdleIsWelcomed() returns (outcome: TextOutcome)
    ensures outcome == WelcomeBack(ServiceKeyboard())
  {
    var r := new Registry(Configured());
    var o1 := r.HandleText(7, "Ana", LabelEstandar, 0, true);
    outcome := r.HandleText(7, "Ana", "REF12345", 300, true);
  }

  /**
   * An extended session confirmed twice arms two timers; the first one to fire expires the
   * second session too, 1180 seconds after it was opened, because the expiry checks the
   * session type and not which confirmation armed it.
   */
  method StaleTimerExpiresNewerSession() returns (state: SessionState, openedAt: int, firedAt: int)
    ensures state == ExpiradaExtendida && firedAt - openedAt < ExtendedSessionSeconds
  {
    var r := new Registry(Configured());
    ConfirmCommandRoundTrip(7, SesionExtendida);
    MenuLabelsReachTheirBranch(r.settings, r.Snapshot(), 7, LabelExtendida, 0);
    var o1 := r.HandleText(7, "Ana", LabelExtendida, 0, true);
    assert r.pagos == map[7 := PendingPayment(None, Some(SesionExtendida), Some(4), Some("Ana"))];
    var a1 := r.ConfirmPayment(Admin, ConfirmCommand(7, SesionExtendida), 10, true);
    assert r.timers == [Timer(7, 10 + ExtendedSessionSeconds)] && r.pagos == map[];
    assert r.lastInteraction == map[7 := 0];
    MenuLabelsReachTheirBranch(r.settings, r.Snapshot(), 7, LabelExtendida, 20);
    var o2 := r.HandleText(7, "Ana", LabelExtendida, 20, true);
    assert 7 in r.pagos;
    openedAt := 30;
    var a2 := r.ConfirmPayment(Admin, ConfirmCommand(7, SesionExtendida), openedAt, true);
    assert r.timers == [Timer(7, 10 + ExtendedSessionSeconds), Timer(7, 30 + ExtendedSessionSeconds)];
    assert r.conversations[7].sessionType == SesionExtendida;
    firedAt := 10 + ExtendedSessionSeconds;
    r.FireTimer(0, firedAt, true);
    state := r.conversations[7].state;
  }
}

/**
 * The entities the registry stores, keyed by chat id: pending payments, conversations,
 * pending questions and the expiry timers that confirmation arms.
 */
module Model {
  import opened Wrappers
  import opened Config

  /**
   * A `pagos_pendientes` record. Each key of the Python dict may be absent, hence the
   * options: `servicio`, `tipo_sesion_elegida`, `precio_dolares`, `nombre_usuario`.
   */
  datatype PendingPayment = PendingPayment(
    service: Option<string>,
    sessionType: Option<string>,
    priceUsd: Option<nat>,
    userName: Option<string>)

  /** `estado`: 'activa', 'finalizada' or 'expirada_extendida'. */
  datatype SessionState = Activa | Finalizada | ExpiradaExtendida

  /** One `conversation_history` item: when the user wrote, and what. */
  datatype HistoryEntry = HistoryEntry(at: int, userMessage: string)

  /** A `conversaciones_usuarios` record. */
  datatype Conversation = Conversation(
    sessionType: string,
    userName: string,
    history: seq<HistoryEntry>,
    state: SessionState,
    service: string)

  /** A `preguntas_pendientes` record: `nombre`, `pregunta`, `timestamp`. */
  datatype Question = Question(name: string, text: string, askedAt: int)

  /** An armed extended-session timer: the chat it watches and when its wait ends. */
  datatype Timer = Timer(chat: int, due: int)

  /**
   * What every pending payment the handlers create looks like: a session code from the
   * price table, the table's price for it, and a user name. `servicio` may be missing.
   */
  predicate WellFormedPending(p: PendingPayment) {
    && p.sessionType.Some? && p.sessionType.value in PrecioSesion
    && p.priceUsd == Some(PrecioSesion[p.sessionType.value])
    && p.userName.Some?
  }

  predicate AllWellFormed(pagos: map<int, PendingPayment>) {
    forall c :: c in pagos ==> WellFormedPending(pagos[c])
  }

  /** `effective_user.first_name or "Usuario"`. */
  function DisplayName(firstName: string): string {
    if firstName == "" then "Usuario" else firstName
  }

  /** The conversation a confirmed payment opens (handlers.py:225-231). */
  function Activated(info: PendingPayment, sessionType: string): (c: Conversation)
    requires info.userName.Some?
    ensures c.state == Activa && c.history == [] && c.sessionType == sessionType
    ensures c.userName == info.userName.value
    ensures c.service == (if info.service.Some? then info.service.value else ServicioCoach)
  {
    Conversation(sessionType, info.userName.value, [], Activa, info.service.GetOr(ServicioCoach))
  }

  /** An admin reply ends the target's session only when it is a standard session still active. */
  predicate EndsOnReply(convs: map<int, Conversation>, chat: int) {
    chat in convs && convs[chat].sessionType == SesionEstandar && convs[chat].state == Activa
  }

  /**
   * The conversations after an admin reply to `chat`: the standard active session is
   * marked 'finalizada' when the closing message was sent, and nothing else changes.
   */
  function AfterReply(convs: map<int, Conversation>, chat: int, endSent: bool): map<int, Conversation> {
    if EndsOnReply(convs, chat) && endSent then convs[chat := convs[chat].(state := Finalizada)]
    else convs
  }

  /** A reply never ends a session twice: after it, the same reply changes nothing more. */
  lemma AfterReplyOnce(convs: map<int, Conversation>, chat: int, endSent: bool, endSent': bool)
    ensures AfterReply(AfterReply(convs, chat, endSent), chat, endSent') ==
            (if endSent then AfterReply(convs, chat, endSent) else AfterReply(convs, chat, endSent'))
    ensures forall c :: c in convs && c != chat ==> AfterReply(convs, chat, endSent)[c] == convs[c]
    ensures AfterReply(convs, chat, endSent).Keys == convs.Keys
  {
  }
}

/**
 * The bot's static configuration (config.py): session and service codes, the menu label
 * tables, the price table and the process-wide settings read from the environment.
 */
module Config {
  import opened Wrappers

  const SesionEstandar: string := "sesion_estandar"
  const SesionExtendida: string := "sesion_extendida"

  const ServicioCoach: string := "coach_motivacional"
  const ServicioApoyo: string := "apoyo_emocional"
  const ServicioDocentes: string := "ayuda_docentes"

  const LabelCoach: string := "\U{1F680} Coach Motivacional"
  const LabelApoyo: string := "\U{1F499} Apoyo Emocional"
  const LabelDocentes: string := "\U{1F4DA} Ayuda para Docentes"
  const LabelEstandar: string := "\U{2B50} Sesi\U{F3}n Est\U{E1}ndar (2$)"
  const LabelExtendida: string := "\U{1F48E} Sesi\U{F3}n Extendida (4$)"
  const LabelVolver: string := "\U{1F3E0} Volver al Men\U{FA} Principal"

  /** Session-menu label to session code. */
  const MenuOpcionesATipo: map<string, string> :=
    map[LabelEstandar := SesionEstandar, LabelExtendida := SesionExtendida]

  /** Session code to price in dollars (2.0 and 4.0 in the source, whole numbers here). */
  const PrecioSesion: map<string, nat> :=
    map[SesionEstandar := 2, SesionExtendida := 4]

  /** Service-menu label to service code. */
  const MenuServiciosATipo: map<string, string> :=
    map[LabelCoach := ServicioCoach, LabelApoyo := ServicioApoyo, LabelDocentes := ServicioDocentes]

  const TiempoSesionExtendidaMinutos: nat := 20

  /** Length of an extended session, in seconds. */
  const ExtendedSessionSeconds: nat := TiempoSesionExtendidaMinutos * 60

  /** The placeholder administrator id that the receipt paths treat as "not configured". */
  const PlaceholderAdminId: int := 1234567890

  /**
   * Settings loaded from the environment. `adminId` is YOUR_TELEGRAM_ID after its integer
   * conversion (None when unset or not a number); phone, national id and bank are the
   * payment details; `rateNonZero` says whether the exchange rate is truthy.
   */
  datatype Settings = Settings(
    adminId: Option<int>,
    phone: Option<string>,
    nationalId: Option<string>,
    bank: Option<string>,
    rateNonZero: bool)

  /** Python truthiness of an optional string: present and non-empty. */
  predicate Truthy(s: Option<string>) {
    s.Some? && s.value != ""
  }

  /** `chat_id == YOUR_TELEGRAM_ID`; an unset id equals no chat. */
  predicate IsAdmin(settings: Settings, chat: int) {
    settings.adminId == Some(chat)
  }

  /** `if YOUR_TELEGRAM_ID:` — set and non-zero. */
  predicate AdminConfigured(settings: Settings) {
    settings.adminId.Some? && settings.adminId.value != 0
  }

  /** The receipt paths also refuse the placeholder id. */
  predicate NotificationsConfigured(settings: Settings) {
    AdminConfigured(settings) && settings.adminId.value != PlaceholderAdminId
  }

  /** `all([NUMERO_TELEFONO, CEDULA_IDENTIDAD, BANCO, TASA_BCV])`. */
  predicate PaymentDataComplete(settings: Settings) {
    Truthy(settings.phone) && Truthy(settings.nationalId) && Truthy(settings.bank) && settings.rateNonZero
  }
}

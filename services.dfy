/** Display helpers of services.py. */
module Services {
  import opened Wrappers
  import opened Config

  const ServiceNames: map<string, string> := map[
    ServicioCoach := "Coach Motivacional",
    ServicioApoyo := "Apoyo Emocional",
    ServicioDocentes := "Ayuda para Docentes"]

  /** `format_service_name`: a service code's display name; any other text unchanged. */
  function FormatServiceName(servicio: string): (r: string)
    ensures servicio in ServiceNames ==> r == ServiceNames[servicio]
    ensures servicio !in ServiceNames ==> r == servicio
  {
    if servicio in ServiceNames then ServiceNames[servicio] else servicio
  }

  /**
   * Formatting changes exactly the three service codes, gives them distinct names, and
   * the codes are exactly the values of the service menu.
   */
  lemma FormatServiceNameChangesOnlyCodes(s: string, t: string)
    ensures FormatServiceName(s) != s <==> s in MenuServiciosATipo.Values
    ensures s in ServiceNames && t in ServiceNames && s != t ==> FormatServiceName(s) != FormatServiceName(t)
  {
    assert MenuServiciosATipo[LabelCoach] == ServicioCoach;
    assert MenuServiciosATipo[LabelApoyo] == ServicioApoyo;
    assert MenuServiciosATipo[LabelDocentes] == ServicioDocentes;
  }

  const SessionNames: map<string, string> := map[
    SesionEstandar := "Sesi\U{F3}n Est\U{E1}ndar",
    SesionExtendida := "Sesi\U{F3}n Extendida"]

  /**
   * `format_session_name` as written: it builds its table of display names and then ends
   * without a return statement, so every call yields Python's None.
   */
  function FormatSessionNameAsWritten(tipo: string): Option<string> {
    None
  }

  /** Even a known session code gets no display name from the function as written. */
  lemma SessionNameLostAsWritten()
    ensures SesionEstandar in SessionNames && FormatSessionNameAsWritten(SesionEstandar) != Some(SessionNames[SesionEstandar])
  {
  }

  /**
   * `format_session_name` as its table and its sibling `format_service_name` show it was
   * meant: a session code's display name; any other text unchanged.
   */
  function FormatSessionName(tipo: string): (r: string)
    ensures tipo in SessionNames ==> r == SessionNames[tipo]
    ensures tipo !in SessionNames ==> r == tipo
  {
    if tipo in SessionNames then SessionNames[tipo] else tipo
  }

  /**
   * The corrected function names every priced session type, gives the two distinct names,
   * and leaves every other text as it is.
   */
  lemma FormatSessionNameNamesPricedTypes(s: string, t: string)
    ensures FormatSessionName(s) != s <==> s in PrecioSesion
    ensures s in PrecioSesion && t in PrecioSesion && s != t ==> FormatSessionName(s) != FormatSessionName(t)
  {
    assert SessionNames.Keys == PrecioSesion.Keys;
  }
}

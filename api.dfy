/**
 * The pure parts of the HTTP client: turning an error response into an error value, and
 * building the request path, URL and headers. Sending the request is not modelled.
 */
module Api {
  import opened Common
  import opened JsText

  /** Every request goes through the development proxy under this prefix. */
  const BaseUrl := "/api/v1"

  /**
   * The parsed JSON body of an error response (`{}` when it could not be parsed). Only its
   * `message` member is read, and it is taken to be a string when present.
   */
  datatype ErrorBody = ErrorBody(message: Option<string>)

  /** An `Error` thrown by the client: its message, plus the HTTP status and body when a response caused it. */
  datatype RequestError = RequestError(message: string, status: Option<nat>, data: Option<ErrorBody>)

  const ServerErrorMessage := "Error en el servidor. Por favor, inténtalo más tarde."

  /** `errorData.message` when it is truthy, that is, a non-empty string. */
  function OwnMessage(data: ErrorBody): (m: Option<string>)
    ensures m.Some? ==> m.value != ""
  {
    if data.message.Some? && data.message.value != "" then data.message else None
  }

  /** The fallback text of the statuses the client names. */
  function StatusDefault(status: nat): Option<string> {
    match status
    case 400 => Some("Solicitud incorrecta. Revisa los datos enviados.")
    case 401 => Some("Credenciales incorrectas o sesión expirada.")
    case 403 => Some("No tienes permisos para realizar esta acción.")
    case 404 => Some("Recurso no encontrado.")
    case 422 => Some("Datos de entrada inválidos.")
    case _ => None
  }

  const GenericPrefix := "Error en la petición: "

  /** The message for a status the client does not name: the status, in decimal, after a fixed prefix. */
  function GenericMessage(status: nat): string {
    GenericPrefix + NatToDecimal(status)
  }

  /** `handleHttpError`: the error thrown for a non-2xx response. */
  function HandleHttpError(status: nat, data: ErrorBody): (e: RequestError)
    ensures e.status == Some(status) && e.data == Some(data)
    ensures e.message != ""
    ensures status == 500 ==> e.message == ServerErrorMessage
    ensures status != 500 && OwnMessage(data).Some? ==> e.message == OwnMessage(data).value
    ensures status != 500 && OwnMessage(data).None? && StatusDefault(status).Some? ==>
              e.message == StatusDefault(status).value
    ensures StatusDefault(status).None? && status != 500 && OwnMessage(data).None? ==>
              e.message == GenericPrefix + NatToDecimal(status) &&
              HasPrefix(e.message, GenericPrefix) &&
              AllDigits(e.message[|GenericPrefix|..]) &&
              DecimalValue(e.message[|GenericPrefix|..]) == status
  {
    var fallback := OwnMessage(data).GetOr(GenericMessage(status));
    var message :=
      match status
      case 400 | 401 | 403 | 404 | 422 => OwnMessage(data).GetOr(StatusDefault(status).value)
      case 500 => ServerErrorMessage
      case _ => fallback;
    DecimalRoundTrip(status);
    assert GenericMessage(status)[|GenericPrefix|..] == NatToDecimal(status);
    RequestError(message, Some(status), Some(data))
  }

  /**
   * Two different statuses that the client does not name, answered with a body that has no
   * message of its own, give two different messages.
   */
  lemma UnnamedStatusesDistinguished(s1: nat, s2: nat, data: ErrorBody)
    requires s1 != s2 && s1 != 500 && s2 != 500
    requires StatusDefault(s1).None? && StatusDefault(s2).None? && OwnMessage(data).None?
    ensures HandleHttpError(s1, data).message != HandleHttpError(s2, data).message
  {
  }

  /** The endpoint with a `/` put in front when it has none. */
  function NormalizePath(endpoint: string): (path: string)
    ensures HasPrefix(path, "/")
    ensures HasPrefix(endpoint, "/") ==> path == endpoint
    ensures !HasPrefix(endpoint, "/") ==> path == "/" + endpoint
  {
    if HasPrefix(endpoint, "/") then endpoint else "/" + endpoint
  }

  /** Normalising a path a second time changes nothing. */
  lemma NormalizePathIdempotent(endpoint: string)
    ensures NormalizePath(NormalizePath(endpoint)) == NormalizePath(endpoint)
  {
  }

  /** The URL a request goes to: the proxy prefix, then the normalised path. */
  function RequestUrl(endpoint: string): (url: string)
    ensures HasPrefix(url, BaseUrl + "/")
    ensures url[|BaseUrl|..] == NormalizePath(endpoint)
  {
    var path := NormalizePath(endpoint);
    assert (BaseUrl + path)[..|BaseUrl| + 1] == BaseUrl + path[..1];
    BaseUrl + path
  }

  /**
   * The request headers: always the JSON content type, plus a bearer token when the call asks
   * for authentication and a non-empty token is stored (`token` is what storage returned).
   */
  function RequestHeaders(useAuth: bool, token: Option<string>): (h: map<string, string>)
    ensures "Content-Type" in h && h["Content-Type"] == "application/json"
    ensures "Authorization" in h <==> useAuth && token.Some? && token.value != ""
    ensures "Authorization" in h ==> h["Authorization"] == "Bearer " + token.value
    ensures h.Keys <= {"Content-Type", "Authorization"}
  {
    var base := map["Content-Type" := "application/json"];
    if useAuth && token.Some? && token.value != "" then
      base["Authorization" := "Bearer " + token.value]
    else
      base
  }
}

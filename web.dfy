/**
 * The browser state the front end touches: `localStorage`, the cookie jar and
 * the configuration object an HTTP request interceptor receives.
 */
module Web {
  import opened Common
  import opened JsString

  /** A cookie as the jar keeps it; `maxAge` None is a session-scoped cookie. */
  datatype Cookie = Cookie(value: string, path: string, maxAge: Option<nat>, sameSite: string)

  /** The text that, assigned to `document.cookie`, sets cookie `name` to `c`. */
  function CookieText(name: string, c: Cookie): string {
    name + "=" + c.value + Attributes(c)
  }

  /** The attribute part of a cookie's text, from the first `;` on. */
  function Attributes(c: Cookie): string {
    "; path=" + c.path
    + (match c.maxAge case Some(age) => "; max-age=" + NatToString(age) case None => "")
    + "; samesite=" + c.sameSite
  }

  /** `localStorage.getItem(key)` as a truthiness test sees it: the value, or "" when absent. */
  function Item(storage: map<string, string>, key: string): (v: string)
    ensures v != "" <==> key in storage && storage[key] != ""
    ensures v != "" ==> v == storage[key]
  {
    if key in storage then storage[key] else ""
  }

  /** `Cookies.get(name)` as a truthiness test sees it: the value, or "" when there is no such cookie. */
  function CookieValue(cookies: map<string, Cookie>, name: string): (v: string)
    ensures v != "" <==> name in cookies && cookies[name].value != ""
    ensures v != "" ==> v == cookies[name].value
  {
    if name in cookies then cookies[name].value else ""
  }

  /** The response of a rejected axios call: its status and the `message` and `error` strings of its body ("" when absent). */
  datatype ErrorResponse = ErrorResponse(status: nat, message: string, error: string)

  /** A rejected axios call: the error response if one arrived, whether the request went out at all, and `error.message`. */
  datatype HttpError = HttpError(response: Option<ErrorResponse>, requestSent: bool, message: string)

  /** `error.response?.status === status`. */
  predicate HasStatus(e: HttpError, status: nat) {
    e.response.Some? && e.response.value.status == status
  }

  /** What an awaited axios call produces: the reply body, or the error it throws. */
  datatype Reply<T> = Ok(body: T) | Failed(error: HttpError)

  /**
   * What an awaited `fetch` followed by `response.json()` produces: the
   * status and the parsed body (`None` when the body is not JSON, so that
   * `json()` throws), or `Unreachable` when `fetch` itself throws.
   */
  datatype FetchReply<T> = Response(status: nat, json: Option<T>) | Unreachable

  /** `response.ok`. */
  predicate IsOkStatus(status: nat) {
    200 <= status <= 299
  }

  /** One browser profile: whether code runs in a window at all, its local storage and its cookies. */
  class Browser {
    /** `typeof window !== 'undefined'`. */
    const inBrowser: bool
    var storage: map<string, string>
    var cookies: map<string, Cookie>

    constructor (inBrowser: bool, storage: map<string, string>, cookies: map<string, Cookie>)
      ensures this.inBrowser == inBrowser && this.storage == storage && this.cookies == cookies
    {
      this.inBrowser := inBrowser;
      this.storage := storage;
      this.cookies := cookies;
    }
  }

  /** The mutable request configuration that axios hands to each request interceptor. */
  class RequestConfig {
    var headers: map<string, string>
    var withCredentials: bool

    constructor (headers: map<string, string>, withCredentials: bool)
      ensures this.headers == headers && this.withCredentials == withCredentials
    {
      this.headers := headers;
      this.withCredentials := withCredentials;
    }
  }
}

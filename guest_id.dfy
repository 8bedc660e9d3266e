/**
 * src/utils/sessionid.ts: the guest identity resolver `getOrCreateGuestId`
 * and the global request decorator `withSessionId`.
 */
module GuestId {
  import opened JsString
  import opened Web

  /** Local-storage key written by the session initializer (the primary id). */
  const SessionKey := "sessionId"
  /** Local-storage key of the older guest id, kept for backward compatibility. */
  const LegacyKey := "blog3d_guestId"
  /** Header the decorator sets. */
  const SessionHeader := "x-session-id"

  /**
   * The legacy id `'guest_' + random + '_' + Date.now()`; `random` stands for
   * `Math.random().toString(36).substr(2, 9)` and `now` for `Date.now()`.
   */
  function NewGuestId(random: string, now: nat): (id: string)
    ensures StartsWith(id, "guest_") && |id| > |"guest_"|
  {
    "guest_" + random + "_" + NatToString(now)
  }

  /** The value returned and the local storage left behind by one call. */
  datatype Resolution = Resolution(id: string, storage: map<string, string>)

  /** What `getOrCreateGuestId` returns and writes, with storage, randomness and clock as inputs. */
  function Resolve(inBrowser: bool, storage: map<string, string>, random: string, now: nat): (r: Resolution)
    ensures !inBrowser ==> r == Resolution("", storage)
    ensures inBrowser && Item(storage, SessionKey) != "" ==> r == Resolution(storage[SessionKey], storage)
    ensures inBrowser && Item(storage, SessionKey) == "" && Item(storage, LegacyKey) != "" ==>
      r == Resolution(storage[LegacyKey], storage)
    ensures inBrowser && Item(storage, SessionKey) == "" && Item(storage, LegacyKey) == "" ==>
      r.id == NewGuestId(random, now) && r.storage == storage[LegacyKey := r.id]
    ensures inBrowser ==> r.id != ""
  {
    if !inBrowser then Resolution("", storage)
    else if Item(storage, SessionKey) != "" then Resolution(Item(storage, SessionKey), storage)
    else if Item(storage, LegacyKey) != "" then Resolution(Item(storage, LegacyKey), storage)
    else
      var id := NewGuestId(random, now);
      Resolution(id, storage[LegacyKey := id])
  }

  /** Once an id exists, later calls return it and write nothing, whatever randomness and clock they see. */
  lemma ResolveIdempotent(inBrowser: bool, storage: map<string, string>, random: string, now: nat,
                          random': string, now': nat)
    ensures var first := Resolve(inBrowser, storage, random, now);
            Resolve(inBrowser, first.storage, random', now') == first
  {
  }

  /** The resolver never writes the primary key, and every other key but the legacy one is untouched. */
  lemma ResolveKeepsSessionKey(inBrowser: bool, storage: map<string, string>, random: string, now: nat)
    ensures var after := Resolve(inBrowser, storage, random, now).storage;
            && (SessionKey in after <==> SessionKey in storage)
            && (SessionKey in storage ==> after[SessionKey] == storage[SessionKey])
            && forall k :: k != LegacyKey ==> (k in after <==> k in storage)
  {
  }

  /** `getOrCreateGuestId`, reading and writing the browser's local storage. */
  method GetOrCreateGuestId(b: Browser, random: string, now: nat) returns (id: string)
    modifies b
    ensures Resolution(id, b.storage) == Resolve(b.inBrowser, old(b.storage), random, now)
    ensures b.cookies == old(b.cookies)
  {
    if !b.inBrowser {
      return "";
    }
    var sessionId := Item(b.storage, SessionKey);
    if sessionId != "" {
      return sessionId;
    }
    var guestId := Item(b.storage, LegacyKey);
    if guestId == "" {
      guestId := NewGuestId(random, now);
      b.storage := b.storage[LegacyKey := guestId];
    }
    return guestId;
  }

  /** The header value `withSessionId` attaches: the stored session id, else the guest id. */
  function SessionHeaderValue(inBrowser: bool, storage: map<string, string>, random: string, now: nat): string
    requires inBrowser
  {
    var stored := Item(storage, SessionKey);
    if stored != "" then stored else Resolve(inBrowser, storage, random, now).id
  }

  /** The decorator's own `sessionId || getOrCreateGuestId()` picks exactly the resolver's id, and never "". */
  lemma HeaderValueIsResolvedId(storage: map<string, string>, random: string, now: nat)
    ensures SessionHeaderValue(true, storage, random, now) == Resolve(true, storage, random, now).id
    ensures SessionHeaderValue(true, storage, random, now) != ""
  {
  }

  /**
   * `withSessionId(config)`: in a browser, the headers become the old headers
   * with `x-session-id` set (overwriting any earlier value); outside a browser
   * the config is returned untouched.
   */
  method WithSessionId(config: RequestConfig, b: Browser, random: string, now: nat)
    modifies config, b
    ensures !b.inBrowser ==> config.headers == old(config.headers) && b.storage == old(b.storage)
    ensures b.inBrowser ==>
      var r := Resolve(true, old(b.storage), random, now);
      config.headers == old(config.headers)[SessionHeader := r.id] && b.storage == r.storage
    ensures forall h :: h != SessionHeader ==>
      (h in config.headers <==> h in old(config.headers)) &&
      (h in config.headers ==> config.headers[h] == old(config.headers)[h])
    ensures config.withCredentials == old(config.withCredentials) && b.cookies == old(b.cookies)
  {
    if b.inBrowser {
      var sessionId := Item(b.storage, SessionKey);
      if sessionId == "" {
        sessionId := GetOrCreateGuestId(b, random, now);
      }
      if sessionId != "" {
        config.headers := config.headers[SessionHeader := sessionId];
      }
    }
  }
}

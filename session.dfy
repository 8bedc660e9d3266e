/**
 * src/app/context/SessionContext.tsx: the once-per-mount session initializer
 * and the version-4-UUID-shaped id generator (RFC 4122, section 4.4).
 */
module Session {
  import opened Common
  import opened JsString
  import opened Web
  import GuestId

  /** One draw of `Math.random() * 16 | 0`. */
  type Nibble = n: int | 0 <= n < 16

  /** `draw(k)` stands for the k-th of those draws. */
  type Draws = nat -> Nibble

  const Template := "xxxxxxxx-xxxx-4xxx-yxxx-xxxxxxxxxxxx"
  /** Name of the cookie mirrored for server-side access. */
  const CookieName := "sessionId"
  /** `60 * 60 * 24 * 30`: thirty days in seconds. */
  const ThirtyDays: nat := 60 * 60 * 24 * 30

  /** A character of `0123456789abcdef`. */
  predicate IsLowerHex(c: char) { '0' <= c <= '9' || 'a' <= c <= 'f' }

  /** A character of `89ab`, the digits a variant nibble can take. */
  predicate IsVariantDigit(c: char) { '8' <= c <= '9' || 'a' <= c <= 'b' }

  /** `n.toString(16)` for one nibble. */
  function Hex(n: Nibble): (c: char)
    ensures IsLowerHex(c)
    ensures 8 <= n < 12 ==> IsVariantDigit(c)
  {
    if n < 10 then ('0' as int + n) as char else ('a' as int + n - 10) as char
  }

  /**
   * `t.replace(/[xy]/g, ...)` from draw number `k` on: each `x` becomes the
   * hex digit of the next draw `r`, each `y` the digit of `(r & 0x3) | 0x8`,
   * and every other character is kept.
   */
  function Fill(t: string, draw: Draws, k: nat): (id: string)
    ensures |id| == |t|
  {
    if t == [] then []
    else if t[0] == 'x' then [Hex(draw(k))] + Fill(t[1..], draw, k + 1)
    else if t[0] == 'y' then [Hex(draw(k) % 4 + 8)] + Fill(t[1..], draw, k + 1)
    else [t[0]] + Fill(t[1..], draw, k)
  }

  /** Substitution keeps the fixed characters, puts a hex digit on each `x` and one of 8, 9, a, b on each `y`. */
  lemma {:induction false} FillShape(t: string, draw: Draws, k: nat, i: nat)
    requires i < |t|
    ensures t[i] != 'x' && t[i] != 'y' ==> Fill(t, draw, k)[i] == t[i]
    ensures t[i] == 'x' ==> IsLowerHex(Fill(t, draw, k)[i])
    ensures t[i] == 'y' ==> IsVariantDigit(Fill(t, draw, k)[i])
  {
    if i == 0 {
    } else if t[0] == 'x' || t[0] == 'y' {
      FillShape(t[1..], draw, k + 1, i - 1);
    } else {
      FillShape(t[1..], draw, k, i - 1);
    }
  }

  /** The character the template holds at index `i`. */
  function TemplateAt(i: nat): char {
    if i == 8 || i == 13 || i == 18 || i == 23 then '-'
    else if i == 14 then '4'
    else if i == 19 then 'y'
    else 'x'
  }

  lemma TemplateShape()
    ensures |Template| == 36 && forall i :: 0 <= i < 36 ==> Template[i] == TemplateAt(i)
  {
  }

  /** The layout of section 4.4 of RFC 4122 in lower case: version nibble 4, variant nibble 8-b. */
  predicate IsUuidV4(id: string) {
    && |id| == 36
    && forall i :: 0 <= i < 36 ==>
         if i == 8 || i == 13 || i == 18 || i == 23 then id[i] == '-'
         else if i == 14 then id[i] == '4'
         else if i == 19 then IsVariantDigit(id[i])
         else IsLowerHex(id[i])
  }

  /** How many `x`/`y` placeholders precede index `i` of the template: the number of the draw that fills `i`. */
  function DrawIndex(i: nat): nat {
    i - (if i > 8 then 1 else 0) - (if i > 13 then 1 else 0) - (if i > 14 then 1 else 0)
      - (if i > 18 then 1 else 0) - (if i > 23 then 1 else 0)
  }

  /** Each placeholder consumes one draw; a fixed character consumes none. */
  lemma DrawIndexStep(i: nat)
    ensures DrawIndex(i + 1) == DrawIndex(i) + (if TemplateAt(i) == 'x' || TemplateAt(i) == 'y' then 1 else 0)
  {
  }

  /** The character the generator puts at index `i`. */
  function IdChar(draw: Draws, i: nat): char {
    var c := TemplateAt(i);
    if c == 'x' then Hex(draw(DrawIndex(i)))
    else if c == 'y' then Hex(draw(DrawIndex(i)) % 4 + 8)
    else c
  }

  /** `generateSessionId`, given the random draws it makes, position by position. */
  function GenerateSessionId(draw: Draws): (id: string)
    ensures IsUuidV4(id)
  {
    seq(36, i requires 0 <= i < 36 => IdChar(draw, i))
  }

  /** The position-wise id is what the template replacement produces: draws are consumed left to right by the placeholders. */
  lemma GenerateIsTemplateReplace(draw: Draws)
    ensures GenerateSessionId(draw) == Fill(Template, draw, 0)
  {
    TemplateShape();
    ReplaceAnyTemplate(Template, draw);
  }

  lemma ReplaceAnyTemplate(t: string, draw: Draws)
    requires |t| == 36 && forall j :: 0 <= j < 36 ==> t[j] == TemplateAt(j)
    ensures GenerateSessionId(draw) == Fill(t, draw, 0)
  {
    FillFrom(t, draw, 0);
  }

  /** Replacing in the template's suffix from index `i` on, starting with draw `DrawIndex(i)`. */
  lemma {:induction false} FillFrom(t: string, draw: Draws, i: nat)
    requires i + |t| == 36
    requires forall j :: 0 <= j < |t| ==> t[j] == TemplateAt(i + j)
    ensures forall j :: 0 <= j < |t| ==> Fill(t, draw, DrawIndex(i))[j] == IdChar(draw, i + j)
    decreases |t|
  {
    if t != [] {
      FillFrom(t[1..], draw, i + 1);
      DrawIndexStep(i);
      assert Fill(t, draw, DrawIndex(i)) == [IdChar(draw, i)] + Fill(t[1..], draw, DrawIndex(i + 1));
    }
  }

  /** The cookie written next to a fresh id: path `/`, thirty days, lax same-site. */
  function SessionCookie(id: string): Cookie {
    Cookie(id, "/", Some(ThirtyDays), "lax")
  }

  lemma ThirtyDaysText()
    ensures NatToString(ThirtyDays) == "2592000"
  {
    assert NatToString(2) == "2";
    assert NatToString(25) == NatToString(2) + "5";
    assert NatToString(259) == NatToString(25) + "9";
    assert NatToString(2592) == NatToString(259) + "2";
    assert NatToString(25920) == NatToString(2592) + "0";
    assert NatToString(259200) == NatToString(25920) + "0";
    assert NatToString(2592000) == NatToString(259200) + "0";
  }

  lemma SessionCookieAttributes(id: string)
    ensures Attributes(SessionCookie(id)) == "; path=/; max-age=2592000; samesite=lax"
  {
    ThirtyDaysText();
    var tail := "; path=" + "/" + "; max-age=" + "2592000" + "; samesite=" + "lax";
    assert tail == "; path=/; max-age=2592000; samesite=lax";
  }

  /** The cookie text is exactly `sessionId=<id>; path=/; max-age=2592000; samesite=lax`. */
  lemma SessionCookieText(id: string)
    ensures CookieText(CookieName, SessionCookie(id))
         == "sessionId=" + id + "; path=/; max-age=2592000; samesite=lax"
  {
    SessionCookieAttributes(id);
    assert CookieName + "=" == "sessionId=";
  }

  /** Provider state and browser state after `initializeSession`. */
  datatype Initialized = Initialized(sessionId: string, isNewSession: bool,
                                     storage: map<string, string>, cookies: map<string, Cookie>)

  /** The effect `initializeSession` as a function of storage, cookies and the random draws. */
  function Initialize(storage: map<string, string>, cookies: map<string, Cookie>, draw: Draws): (r: Initialized)
    ensures Item(storage, GuestId.SessionKey) == "" ==>
      && r.isNewSession && IsUuidV4(r.sessionId)
      && r.storage == storage[GuestId.SessionKey := r.sessionId]
      && r.cookies == cookies[CookieName := SessionCookie(r.sessionId)]
    ensures Item(storage, GuestId.SessionKey) != "" ==>
      r == Initialized(storage[GuestId.SessionKey], false, storage, cookies)
    ensures GuestId.SessionKey in r.storage && r.storage[GuestId.SessionKey] == r.sessionId != ""
  {
    var existing := Item(storage, GuestId.SessionKey);
    if existing == "" then
      var id := GenerateSessionId(draw);
      Initialized(id, true, storage[GuestId.SessionKey := id], cookies[CookieName := SessionCookie(id)])
    else Initialized(existing, false, storage, cookies)
  }

  /** `Initialize` unfolded: a fresh id is written to both stores, an existing one is kept. */
  lemma InitializeByCases(storage: map<string, string>, cookies: map<string, Cookie>, draw: Draws)
    ensures var id := GenerateSessionId(draw);
            Initialize(storage, cookies, draw)
              == if Item(storage, GuestId.SessionKey) == ""
                 then Initialized(id, true, storage[GuestId.SessionKey := id], cookies[CookieName := SessionCookie(id)])
                 else Initialized(Item(storage, GuestId.SessionKey), false, storage, cookies)
  {
  }

  /** A second initialisation finds the id and changes nothing. */
  lemma InitializeTwice(storage: map<string, string>, cookies: map<string, Cookie>,
                        draw: Draws, draw': Draws)
    ensures var first := Initialize(storage, cookies, draw);
            Initialize(first.storage, first.cookies, draw')
              == Initialized(first.sessionId, false, first.storage, first.cookies)
  {
  }

  /** After initialisation the guest resolver returns the session id, whatever else storage holds. */
  lemma ResolverPrefersSessionId(storage: map<string, string>, cookies: map<string, Cookie>,
                                 draw: Draws, random: string, now: nat)
    ensures var init := Initialize(storage, cookies, draw);
            GuestId.Resolve(true, init.storage, random, now) == GuestId.Resolution(init.sessionId, init.storage)
  {
  }

  /** The `SessionProvider` component: its two state fields and the browser it runs in. */
  class SessionProvider {
    var sessionId: string
    var isNewSession: bool
    const browser: Browser

    /** First render, before the effect has run. */
    constructor (browser: Browser)
      ensures sessionId == "" && !isNewSession && this.browser == browser
    {
      sessionId := "";
      isNewSession := false;
      this.browser := browser;
    }

    /** The mount effect `initializeSession`; effects only run in a browser. */
    method InitializeSession(draw: Draws)
      requires browser.inBrowser
      modifies this, browser
      ensures Initialized(sessionId, isNewSession, browser.storage, browser.cookies)
           == Initialize(old(browser.storage), old(browser.cookies), draw)
      ensures Item(browser.storage, GuestId.SessionKey) == sessionId
    {
      var storage, cookies := browser.storage, browser.cookies;
      var existingSessionId := Item(storage, GuestId.SessionKey);
      var isNew := false;
      if existingSessionId == "" {
        existingSessionId := GenerateSessionId(draw);
        storage := storage[GuestId.SessionKey := existingSessionId];
        isNew := true;
        cookies := cookies[CookieName := SessionCookie(existingSessionId)];
      }
      InitializeByCases(browser.storage, browser.cookies, draw);
      browser.storage, browser.cookies := storage, cookies;
      isNewSession, sessionId := isNew, existingSessionId;
    }
  }
}

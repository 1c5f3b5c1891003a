/**
 * The web app's API wiring (apps/aira-web/src/lib/api.ts): the cookie-backed token
 * storage, the auth-store transitions of `hydrateAuthState`, `verifyAuthState` and the
 * `onUnauthorized` callback, and the module-load guard on the API base URL that builds
 * the client configuration.
 *
 * `TOKEN_KEY` comes from a module outside this model and is a parameter (the storage's
 * `tokenKey`). The browser is a `Document` object, absent during server-side rendering,
 * holding the jar of cookies the page can see; an assignment to `document.cookie` changes
 * the jar, and reading it lists the jar.
 */
module WebAuth {
  import opened Wrappers
  import opened Strings
  import ApiClient

  const BackendCookieName := "access-token"
  const WebTimeout := 60000
  const BaseUrlMissingMessage :=
    "NEXT_PUBLIC_API_BASE_URL environment variable is required. Please set it in your .env.local or .env file."

  // ---------------------------------------------------------------------------
  // Reading a cookie header

  /** The `name` piece that `cookie.trim().split('=')` destructures: it holds no `=`. */
  function EntryName(entry: string): (name: string)
    ensures '=' !in name
  {
    Split(Trim(entry), '=')[0]
  }

  /** The `value` piece: `undefined` exactly when the trimmed entry has no `=`, and never holding one. */
  function EntryValue(entry: string): (value: Option<string>)
    ensures value.None? <==> '=' !in Trim(entry)
    ensures value.Some? ==> '=' !in value.value
  {
    var parts := Split(Trim(entry), '=');
    SplitCount(Trim(entry), '=');
    if |parts| > 1 then Some(parts[1]) else None
  }

  /** `value || null`: an empty or missing value reads as null. */
  function OrNull(value: Option<string>): (r: Option<string>)
    ensures r.Some? <==> value.Some? && value.value != ""
    ensures r.Some? ==> r == value
  {
    if value.Some? && value.value != "" then value else None
  }

  /**
   * The position of the first entry from `i` on whose trimmed name is the backend cookie
   * name or `tokenKey` (`name === BACKEND_COOKIE_NAME || name === TOKEN_KEY`), or
   * `|entries|` when there is none.
   */
  function FirstTokenIndex(entries: seq<string>, tokenKey: string, i: nat): (k: nat)
    requires i <= |entries|
    ensures i <= k <= |entries|
    ensures forall j :: i <= j < k ==> EntryName(entries[j]) != BackendCookieName && EntryName(entries[j]) != tokenKey
    ensures k < |entries| ==> EntryName(entries[k]) == BackendCookieName || EntryName(entries[k]) == tokenKey
    decreases |entries| - i
  {
    if i == |entries| then i
    else if EntryName(entries[i]) == BackendCookieName || EntryName(entries[i]) == tokenKey then i
    else FirstTokenIndex(entries, tokenKey, i + 1)
  }

  /**
   * What `webTokenStorage.get()` settles with for a cookie header, or for no document: the
   * value of the first token entry, later matches ignored, an empty value read as null.
   */
  function ReadToken(cookie: Option<string>, tokenKey: string): (r: Option<string>)
    ensures r.Some? ==> cookie.Some? && r.value != ""
  {
    match cookie
    case None => None
    case Some(c) =>
      var entries := Split(c, ';');
      var k := FirstTokenIndex(entries, tokenKey, 0);
      if k < |entries| then OrNull(EntryValue(entries[k])) else None
  }

  /** A cookie name that survives the reader's trim and split: no `;` or `=`, no leading white space. */
  predicate IsPlainName(name: string) {
    ';' !in name && '=' !in name && (name == [] || !IsWhitespace(name[0]))
  }

  /** An entry `name=rest` with a plain name and no trailing white space splits at its first `=`. */
  lemma {:induction false} EntryPieces(name: string, rest: string)
    requires IsPlainName(name)
    requires rest == [] || !IsWhitespace(rest[|rest| - 1])
    ensures Split(Trim(name + "=" + rest), '=') == [name] + Split(rest, '=')
  {
    var entry := name + "=" + rest;
    assert entry[|entry| - 1] == if rest == [] then '=' else rest[|rest| - 1];
    assert entry[0] == if name == [] then '=' else name[0];
    TrimUnchanged(entry);
    SplitAtFirstSeparator(name, '=', rest);
  }

  /** An entry written as `name=value` with plain pieces reads back as such. */
  lemma {:induction false} PlainEntryParts(name: string, value: string)
    requires IsPlainName(name) && ';' !in value && '=' !in value
    requires value == [] || !IsWhitespace(value[|value| - 1])
    ensures EntryName(name + "=" + value) == name
    ensures EntryValue(name + "=" + value) == Some(value)
  {
    EntryPieces(name, value);
    SplitWithoutSeparator(value, '=');
    var parts := Split(Trim(name + "=" + value), '=');
    assert parts == [name] + [value];
    assert parts[0] == name && parts[1] == value && |parts| == 2;
    assert EntryName(name + "=" + value) == parts[0];
  }

  /** A cookie header whose first entry is a plain `name=value` reads as that value (or null when it is empty). */
  lemma PlainFirstEntryWins(name: string, value: string, rest: string)
    requires IsPlainName(name) && ';' !in value && '=' !in value
    requires value == [] || !IsWhitespace(value[|value| - 1])
    ensures ReadToken(Some(name + "=" + value + [';'] + rest), name) == OrNull(Some(value))
  {
    var entry := name + "=" + value;
    assert ';' !in entry;
    SplitAtFirstSeparator(entry, ';', rest);
    PlainEntryParts(name, value);
    var entries := [entry] + Split(rest, ';');
    assert entries[0] == entry;
    assert FirstTokenIndex(entries, name, 0) == 0;
  }

  /** An entry `a=b=c` holds the value `b`: only the piece between the first and second `=` counts. */
  lemma {:induction false} ValueStopsAtSecondEquals(name: string, b: string, c: string)
    requires IsPlainName(name) && '=' !in b
    requires c == [] || !IsWhitespace(c[|c| - 1])
    ensures EntryValue(name + "=" + (b + "=" + c)) == Some(b)
  {
    var rest := b + "=" + c;
    assert rest[|rest| - 1] == if c == [] then '=' else c[|c| - 1];
    EntryPieces(name, rest);
    SplitAtFirstSeparator(b, '=', c);
  }

  // ---------------------------------------------------------------------------
  // The cookie jar

  /** A cookie the page can see: its name and value; its attributes are not kept. */
  datatype Cookie = Cookie(name: string, value: string)

  /** A name with no `;` or `=` and no white space at either end. */
  predicate IsCookieName(name: string) {
    name != [] && IsPlainName(name) && !IsWhitespace(name[|name| - 1])
  }

  /** A value with no `;` or `=` and no white space at either end. */
  predicate IsPlainValue(value: string) {
    ';' !in value && '=' !in value && (value == [] || (!IsWhitespace(value[0]) && !IsWhitespace(value[|value| - 1])))
  }

  /** A cookie that `document.cookie` lists in a form the reader splits back exactly. */
  predicate PlainCookie(c: Cookie) {
    IsCookieName(c.name) && IsPlainValue(c.value)
  }

  predicate AllPlain(jar: seq<Cookie>) {
    forall c :: c in jar ==> PlainCookie(c)
  }

  /** Some cookie of the jar has this name. */
  predicate HasCookie(jar: seq<Cookie>, name: string) {
    jar != [] && (jar[0].name == name || HasCookie(jar[1..], name))
  }

  /** The entries of `document.cookie` for a jar: `name=value` in jar order, each after the first led by the space of the `"; "` separator. */
  function JarEntries(jar: seq<Cookie>): seq<string> {
    seq(|jar|, i requires 0 <= i < |jar| => (if i == 0 then "" else " ") + EntryOf(jar[i]))
  }

  /** How `document.cookie` lists one cookie. */
  function EntryOf(c: Cookie): string {
    c.name + "=" + c.value
  }

  /** Reading `document.cookie`: the jar's cookies joined with `"; "`. */
  function CookieHeader(jar: seq<Cookie>): string {
    Join(JarEntries(jar), ';')
  }

  /**
   * What `get()` finds in a jar, stated on cookies rather than on the header: the value of
   * the first cookie named `access-token` or `tokenKey`, an empty one read as null.
   */
  function Lookup(jar: seq<Cookie>, tokenKey: string): (r: Option<string>)
    ensures r.Some? ==> r.value != ""
    ensures !HasCookie(jar, BackendCookieName) && !HasCookie(jar, tokenKey) ==> r.None?
  {
    if jar == [] then None
    else if jar[0].name == BackendCookieName || jar[0].name == tokenKey then OrNull(Some(jar[0].value))
    else Lookup(jar[1..], tokenKey)
  }

  /**
   * The cookie an assignment `document.cookie = s` names, read as section 5.2 of RFC 6265
   * reads a set-cookie string: the pair before the first `;`, split at its first `=`, both
   * sides trimmed; no cookie when the pair has no `=` or the name is empty.
   */
  function ParseCookiePair(s: string): (c: Option<Cookie>)
    ensures c.Some? ==> c.value.name != [] && '=' !in c.value.name
  {
    var pair := Split(s, ';')[0];
    var pieces := Split(pair, '=');
    if |pieces| < 2 then None
    else
      var name := Trim(pieces[0]);
      if name == [] then None else Some(Cookie(name, Trim(Join(pieces[1..], '='))))
  }

  /** The `name=value` pair in front of any attributes is the cookie an assignment names. */
  lemma {:induction false} PairBeforeAttributes(name: string, value: string, attributes: string)
    requires IsCookieName(name) && IsPlainValue(value)
    ensures ParseCookiePair(name + "=" + value + ";" + attributes) == Some(Cookie(name, value))
  {
    var pair := name + "=" + value;
    assert name + "=" + value + ";" + attributes == pair + [';'] + attributes;
    SplitAtFirstSeparator(pair, ';', attributes);
    SplitAtFirstSeparator(name, '=', value);
    SplitWithoutSeparator(value, '=');
    var pieces := Split(pair, '=');
    assert pieces == [name, value];
    assert pieces[1..] == [value];
    TrimUnchanged(name);
    TrimUnchanged(value);
  }

  /** Every cookie of the jar named `c.name` takes `c`'s value, in its place. */
  function Replaced(jar: seq<Cookie>, c: Cookie): (r: seq<Cookie>)
    ensures |r| == |jar|
    ensures forall i :: 0 <= i < |r| ==> r[i] == if jar[i].name == c.name then c else jar[i]
  {
    if jar == [] then [] else [if jar[0].name == c.name then c else jar[0]] + Replaced(jar[1..], c)
  }

  /**
   * Setting a live cookie: a cookie of the same name takes the new value in its place, and
   * otherwise the cookie joins the jar last. Afterwards `c` is the jar's only cookie of its
   * name, and every other cookie is kept.
   */
  function StoreCookie(jar: seq<Cookie>, c: Cookie): (r: seq<Cookie>)
    ensures c in r
    ensures forall d :: d in r ==> d == c || d in jar
    ensures forall d :: d in r && d.name == c.name ==> d == c
    ensures forall d :: d in jar && d.name != c.name ==> d in r
  {
    if HasCookie(jar, c.name) then
      HasCookieIff(jar, c.name);
      Replaced(jar, c)
    else
      HasCookieIff(jar, c.name);
      jar + [c]
  }

  /** Expiring a cookie: every cookie of that name leaves the jar, and every other cookie is kept in order. */
  function RemoveCookie(jar: seq<Cookie>, name: string): (r: seq<Cookie>)
    ensures forall d :: d in r <==> d in jar && d.name != name
    ensures !HasCookie(r, name)
  {
    if jar == [] then []
    else
      var rest := RemoveCookie(jar[1..], name);
      HasCookieIff(rest, name);
      if jar[0].name == name then rest else HasCookieIff([jar[0]] + rest, name); [jar[0]] + rest
  }

  /** How an assignment changes the jar: an expired cookie is removed, a live one stored; a string naming no cookie changes nothing. */
  function AssignCookie(jar: seq<Cookie>, s: string, expired: bool): seq<Cookie> {
    match ParseCookiePair(s)
    case None => jar
    case Some(c) => if expired then RemoveCookie(jar, c.name) else StoreCookie(jar, c)
  }

  /** `HasCookie` holds exactly when some cookie of the jar has the name. */
  lemma {:induction false} HasCookieIff(jar: seq<Cookie>, name: string)
    ensures HasCookie(jar, name) <==> exists d :: d in jar && d.name == name
  {
    if jar != [] {
      HasCookieIff(jar[1..], name);
      assert jar == [jar[0]] + jar[1..];
    }
  }

  const SetAttributes := " path=/; max-age=31536000; SameSite=Strict"
  const ClearAttributes := " path=/; expires=Thu, 01 Jan 1970 00:00:00 GMT"

  /** The string `set(token)` assigns to `document.cookie`; for a plain key and token it names the cookie `tokenKey=token`. */
  function SetCookieString(tokenKey: string, token: string): (s: string)
    ensures IsCookieName(tokenKey) && IsPlainValue(token) ==> ParseCookiePair(s) == Some(Cookie(tokenKey, token))
  {
    var s := tokenKey + "=" + token + ";" + SetAttributes;
    if IsCookieName(tokenKey) && IsPlainValue(token) then
      PairBeforeAttributes(tokenKey, token, SetAttributes);
      s
    else
      s
  }

  /** The string `clear()` assigns to `document.cookie`; for a plain key it names the cookie `tokenKey` with an empty value. */
  function ClearCookieString(tokenKey: string): (s: string)
    ensures IsCookieName(tokenKey) ==> ParseCookiePair(s) == Some(Cookie(tokenKey, ""))
  {
    var s := tokenKey + "=" + ";" + ClearAttributes;
    if IsCookieName(tokenKey) then
      PairBeforeAttributes(tokenKey, "", ClearAttributes);
      assert tokenKey + "=" + "" == tokenKey + "=";
      s
    else
      s
  }

  // ---------------------------------------------------------------------------
  // Reading the jar back

  /** Each entry of the header names its cookie and holds its value. */
  lemma {:induction false} JarEntryParts(jar: seq<Cookie>, i: nat)
    requires i < |jar| && PlainCookie(jar[i])
    ensures EntryName(JarEntries(jar)[i]) == jar[i].name
    ensures EntryValue(JarEntries(jar)[i]) == Some(jar[i].value)
  {
    var c := jar[i];
    var entry := EntryOf(c);
    PlainEntryParts(c.name, c.value);
    if i > 0 {
      assert JarEntries(jar)[i] == " " + entry;
      TrimLeadingSpace(entry);
    } else {
      assert JarEntries(jar)[i] == "" + entry == entry;
    }
  }

  /** What the scan of `get()` settles with when it starts at entry `i`. */
  function ScanFrom(entries: seq<string>, tokenKey: string, i: nat): Option<string>
    requires i <= |entries|
  {
    var k := FirstTokenIndex(entries, tokenKey, i);
    if k < |entries| then OrNull(EntryValue(entries[k])) else None
  }

  /** `Lookup` from cookie `i` on looks at cookie `i` first. */
  lemma LookupAt(jar: seq<Cookie>, tokenKey: string, i: nat)
    requires i < |jar|
    ensures Lookup(jar[i..], tokenKey) ==
      if jar[i].name == BackendCookieName || jar[i].name == tokenKey then OrNull(Some(jar[i].value)) else Lookup(jar[i + 1..], tokenKey)
  {
    assert jar[i..][0] == jar[i] && jar[i..][1..] == jar[i + 1..];
  }

  /** Scanning the header's entries from `i` on finds what `Lookup` finds in the jar from `i` on. */
  lemma {:induction false} JarScanFrom(jar: seq<Cookie>, tokenKey: string, i: nat)
    requires AllPlain(jar) && i <= |jar|
    ensures ScanFrom(JarEntries(jar), tokenKey, i) == Lookup(jar[i..], tokenKey)
    decreases |jar| - i
  {
    if i < |jar| {
      assert jar[i] in jar;
      JarEntryParts(jar, i);
      LookupAt(jar, tokenKey, i);
      JarScanFrom(jar, tokenKey, i + 1);
    }
  }

  /** Reading the header of a jar of plain cookies is `Lookup` on the jar. */
  lemma {:induction false} JarRead(jar: seq<Cookie>, tokenKey: string)
    requires AllPlain(jar)
    ensures ReadToken(Some(CookieHeader(jar)), tokenKey) == Lookup(jar, tokenKey)
  {
    var entries := JarEntries(jar);
    if jar == [] {
      assert CookieHeader(jar) == "";
      assert Split("", ';') == [""];
      assert Trim("") == "" && Split("", '=') == [""];
    } else {
      forall i | 0 <= i < |entries|
        ensures ';' !in entries[i]
      {
        assert jar[i] in jar;
      }
      SplitJoin(entries, ';');
      JarScanFrom(jar, tokenKey, 0);
      assert jar[0..] == jar;
      assert ReadToken(Some(CookieHeader(jar)), tokenKey) == ScanFrom(entries, tokenKey, 0);
    }
  }

  /** After a live cookie is stored under the key with no backend cookie in the way, `Lookup` gives its value. */
  lemma {:induction false} LookupStored(jar: seq<Cookie>, c: Cookie)
    requires c.name == BackendCookieName || !HasCookie(jar, BackendCookieName)
    ensures Lookup(StoreCookie(jar, c), c.name) == OrNull(Some(c.value))
  {
    if HasCookie(jar, c.name) {
      LookupReplaced(jar, c);
    } else {
      LookupAppended(jar, c);
    }
  }

  lemma {:induction false} LookupReplaced(jar: seq<Cookie>, c: Cookie)
    requires HasCookie(jar, c.name)
    requires c.name == BackendCookieName || !HasCookie(jar, BackendCookieName)
    ensures Lookup(Replaced(jar, c), c.name) == OrNull(Some(c.value))
  {
    var r := Replaced(jar, c);
    assert r[1..] == Replaced(jar[1..], c);
    if jar[0].name != c.name {
      LookupReplaced(jar[1..], c);
    }
  }

  lemma {:induction false} LookupAppended(jar: seq<Cookie>, c: Cookie)
    requires !HasCookie(jar, c.name)
    requires c.name == BackendCookieName || !HasCookie(jar, BackendCookieName)
    ensures Lookup(jar + [c], c.name) == OrNull(Some(c.value))
  {
    if jar == [] {
      assert jar + [c] == [c];
    } else {
      assert (jar + [c])[1..] == jar[1..] + [c];
      LookupAppended(jar[1..], c);
    }
  }

  /** After the key's cookies are removed, `Lookup` finds only what a backend cookie holds. */
  lemma {:induction false} LookupRemoved(jar: seq<Cookie>, tokenKey: string)
    ensures Lookup(RemoveCookie(jar, tokenKey), tokenKey) == if tokenKey == BackendCookieName then None else Lookup(jar, BackendCookieName)
  {
    if jar != [] {
      LookupRemoved(jar[1..], tokenKey);
      var rest := RemoveCookie(jar[1..], tokenKey);
      if jar[0].name != tokenKey {
        assert RemoveCookie(jar, tokenKey) == [jar[0]] + rest;
        assert ([jar[0]] + rest)[1..] == rest;
      }
    }
  }

  /**
   * After `set(token)` with a plain key and a plain non-empty token, `get()` reads the token
   * back, unless a backend cookie listed earlier answers instead; the jar stays plain.
   */
  lemma SetThenGet(jar: seq<Cookie>, tokenKey: string, token: string)
    requires AllPlain(jar) && IsCookieName(tokenKey) && IsPlainValue(token) && token != ""
    requires tokenKey == BackendCookieName || !HasCookie(jar, BackendCookieName)
    ensures var after := AssignCookie(jar, SetCookieString(tokenKey, token), false);
      AllPlain(after) && ReadToken(Some(CookieHeader(after)), tokenKey) == Some(token)
  {
    var c := Cookie(tokenKey, token);
    var after := StoreCookie(jar, c);
    assert after == AssignCookie(jar, SetCookieString(tokenKey, token), false);
    LookupStored(jar, c);
    JarRead(after, tokenKey);
  }

  /**
   * After `clear()`, `get()` no longer finds the key's cookie, but it still finds a backend
   * `access-token` cookie, which `clear()` does not expire; without one it reads null.
   */
  lemma ClearThenGet(jar: seq<Cookie>, tokenKey: string)
    requires AllPlain(jar) && IsCookieName(tokenKey)
    ensures var after := AssignCookie(jar, ClearCookieString(tokenKey), true);
      && AllPlain(after)
      && ReadToken(Some(CookieHeader(after)), tokenKey) == (if tokenKey == BackendCookieName then None else Lookup(jar, BackendCookieName))
      && (!HasCookie(jar, BackendCookieName) ==> ReadToken(Some(CookieHeader(after)), tokenKey).None?)
  {
    var after := RemoveCookie(jar, tokenKey);
    assert after == AssignCookie(jar, ClearCookieString(tokenKey), true);
    LookupRemoved(jar, tokenKey);
    JarRead(after, tokenKey);
  }

  // ---------------------------------------------------------------------------
  // The browser and the stores

  /** The browser document, reduced to its cookie property. */
  class Document {
    /** The cookies the page can see, in the order reading `document.cookie` lists them. */
    var jar: seq<Cookie>
    /** Every string assigned to `document.cookie`, oldest first. */
    var cookieWrites: seq<string>

    constructor (jar: seq<Cookie>)
      ensures this.jar == jar && cookieWrites == []
    {
      this.jar := jar;
      cookieWrites := [];
    }

    /**
     * `document.cookie = s`: the browser folds the assignment into the jar. `expired` says
     * whether the attributes of `s` put its expiry in the past.
     */
    method Assign(s: string, expired: bool)
      modifies this
      ensures jar == AssignCookie(old(jar), s, expired)
      ensures cookieWrites == old(cookieWrites) + [s]
    {
      jar := AssignCookie(jar, s, expired);
      cookieWrites := cookieWrites + [s];
    }
  }

  /** What reading `document.cookie` yields, or nothing during server-side rendering. */
  function CookieOf(doc: Document?): Option<string>
    reads doc
  {
    if doc == null then None else Some(CookieHeader(doc.jar))
  }

  /** `webTokenStorage`. */
  class WebTokenStorage {
    const tokenKey: string

    constructor (tokenKey: string)
      ensures this.tokenKey == tokenKey
    {
      this.tokenKey := tokenKey;
    }

    /** `get()`: scans the `;`-separated entries in order and returns at the first token cookie. */
    method Get(doc: Document?) returns (token: Option<string>)
      ensures token == ReadToken(CookieOf(doc), tokenKey)
    {
      if doc == null {
        return None;
      }
      var header := CookieHeader(doc.jar);
      assert CookieOf(doc) == Some(header);
      var cookies := Split(header, ';');
      for i := 0 to |cookies|
        invariant FirstTokenIndex(cookies, tokenKey, 0) == FirstTokenIndex(cookies, tokenKey, i)
      {
        var parts := Split(Trim(cookies[i]), '=');
        var name := parts[0];
        var value := if |parts| > 1 then Some(parts[1]) else None;
        assert name == EntryName(cookies[i]) && value == EntryValue(cookies[i]);
        if name == BackendCookieName || name == tokenKey {
          return OrNull(value);
        }
      }
      return None;
    }

    /** `set(token)`: assigns the long-lived cookie string, which stores the cookie it names; nothing happens without a document. */
    method Set(doc: Document?, token: string)
      modifies doc
      ensures doc != null ==> doc.cookieWrites == old(doc.cookieWrites) + [SetCookieString(tokenKey, token)]
      ensures doc != null ==> doc.jar == AssignCookie(old(doc.jar), SetCookieString(tokenKey, token), false)
    {
      if doc != null {
        doc.Assign(SetCookieString(tokenKey, token), false);
      }
    }

    /** `clear()`: assigns the expired empty cookie string, which removes the key's cookie; nothing happens without a document. */
    method Clear(doc: Document?)
      modifies doc
      ensures doc != null ==> doc.cookieWrites == old(doc.cookieWrites) + [ClearCookieString(tokenKey)]
      ensures doc != null ==> doc.jar == AssignCookie(old(doc.jar), ClearCookieString(tokenKey), true)
    {
      if doc != null {
        doc.Assign(ClearCookieString(tokenKey), true);
      }
    }
  }

  /** The two fields of `authStore` that this module sets. */
  class AuthStore {
    var isAuthenticated: bool
    var isLoading: bool

    constructor (isAuthenticated: bool, isLoading: bool)
      ensures this.isAuthenticated == isAuthenticated && this.isLoading == isLoading
    {
      this.isAuthenticated := isAuthenticated;
      this.isLoading := isLoading;
    }
  }

  datatype User = User(id: string, email: string, name: string, isActive: bool, isEmailVerified: bool, onboardingCompleted: bool, plan: string)

  /** The fixed user `verifyAuthState` returns. */
  const MockUser := User("mock-user-123", "test@aira.in", "Test User", true, true, true, "pro")

  /**
   * `hydrateAuthState()`: authenticated exactly when the storage yields a token, and no
   * longer loading either way.
   */
  method HydrateAuthState(storage: WebTokenStorage, doc: Document?, store: AuthStore) returns (authenticated: bool)
    modifies store
    ensures authenticated <==> ReadToken(CookieOf(doc), storage.tokenKey).Some?
    ensures store.isAuthenticated == authenticated && !store.isLoading
  {
    var token := storage.Get(doc);
    if token.Some? && token.value != "" {
      store.isAuthenticated, store.isLoading := true, false;
      return true;
    }
    store.isAuthenticated, store.isLoading := false, false;
    return false;
  }

  /** `verifyAuthState()`: unconditionally authenticated, returning the fixed user. */
  method VerifyAuthState(store: AuthStore) returns (user: User)
    modifies store
    ensures store.isAuthenticated && !store.isLoading
    ensures user == MockUser
  {
    store.isAuthenticated, store.isLoading := true, false;
    return MockUser;
  }

  /** The `onUnauthorized` callback: clears the stored token, then marks the store signed out. */
  method OnUnauthorized(storage: WebTokenStorage, doc: Document?, store: AuthStore)
    modifies doc, store
    ensures doc != null ==> doc.cookieWrites == old(doc.cookieWrites) + [ClearCookieString(storage.tokenKey)]
    ensures doc != null ==> doc.jar == AssignCookie(old(doc.jar), ClearCookieString(storage.tokenKey), true)
    ensures !store.isAuthenticated && !store.isLoading
  {
    storage.Clear(doc);
    store.isAuthenticated, store.isLoading := false, false;
  }

  // ---------------------------------------------------------------------------
  // Module load

  /** `process.env.NEXT_PUBLIC_API_BASE_URL || ''` and the guard that throws when it is empty. */
  function ResolveBaseURL(env: Option<string>): (r: Result<string, string>)
    ensures r.Success? <==> env.Some? && env.value != ""
    ensures r.Success? ==> r.value == env.value
    ensures r.Failure? ==> r.error == BaseUrlMissingMessage
  {
    var baseURL := if env.Some? && env.value != "" then env.value else "";
    if baseURL == "" then Failure(BaseUrlMissingMessage) else Success(baseURL)
  }

  /**
   * Loading the module: fails before any client exists when the base URL is missing or
   * empty; otherwise initializes the singleton with cookies sent, a 60-second timeout,
   * the cookie token storage and the unauthorized callback.
   */
  method LoadModule(env: Option<string>, slot: ApiClient.ClientSlot) returns (r: Result<ApiClient.Client, string>)
    modifies slot
    ensures r.Failure? <==> env.None? || env.value == ""
    ensures r.Failure? ==> r.error == BaseUrlMissingMessage && slot.client == old(slot.client)
    ensures r.Success? ==> slot.client == r.value && fresh(r.value)
    ensures r.Success? ==> r.value.baseURL == env && r.value.GetBaseURL() == env.value
    ensures r.Success? ==> r.value.withCredentials && r.value.timeout == WebTimeout
    ensures r.Success? ==> r.value.hasTokenStorage && r.value.hasOnUnauthorized
  {
    match ResolveBaseURL(env) {
      case Failure(msg) =>
        return Failure(msg);
      case Success(baseURL) =>
        var c := slot.InitApiClient(ApiClient.ApiClientConfig(Some(baseURL), false, true, true, Some(WebTimeout)));
        return Success(c);
    }
  }
}

/**
 * `HelloResponse`: the SDK's response adapter over one Symfony `Response`,
 * held from construction on. Its header bag, status code, body and cookie
 * jar are the state every method changes. Header names are keyed the way
 * the header bag keys them, with ASCII capitals lowered and `_` read as `-`,
 * so a later write under any such spelling replaces an earlier one; a write
 * under the name `Set-Cookie` goes to the cookie jar instead. Cookies are
 * keyed by domain, path and name, as the response header bag keys them.
 */
module Responses {
  import opened Php

  const HttpOk: int := 200
  const HttpFound: int := 302
  const Location: string := "Location"
  const ContentType: string := "Content-Type"
  const TextPlain: string := "text/plain"
  const ApplicationJson: string := "application/json"
  /** The header key the response header bag hands to its cookie jar. */
  const SetCookieKey: string := "set-cookie"

  // ---------------------------------------------------------------------
  // Header names and values

  /** One character of a header key: the header bag translates
      `_ABC…Z` to `-abc…z` and keeps every other character. */
  function KeyChar(c: char): (d: char)
    ensures 'A' <= c <= 'Z' ==> 'a' <= d <= 'z' && d as int - c as int == 32
    ensures c == '_' ==> d == '-'
    ensures !('A' <= c <= 'Z') && c != '_' ==> d == c
    ensures d != '_' && !('A' <= d <= 'Z')
  {
    if 'A' <= c <= 'Z' then (c as int + 32) as char else if c == '_' then '-' else c
  }

  /** The header bag's key for a header name, character by character. */
  function HeaderKey(name: string): (k: string)
    ensures |k| == |name|
    ensures forall i :: 0 <= i < |k| ==> k[i] == KeyChar(name[i])
  {
    seq(|name|, i requires 0 <= i < |name| => KeyChar(name[i]))
  }

  /** Keys are already lower case: normalising twice is normalising once. */
  lemma HeaderKeyIdempotent(name: string)
    ensures HeaderKey(HeaderKey(name)) == HeaderKey(name)
  {
    var k := HeaderKey(name);
    var kk := HeaderKey(k);
    forall i | 0 <= i < |k| ensures kk[i] == k[i] {
      assert kk[i] == KeyChar(k[i]);
    }
  }

  /** Spellings at work: `X_Foo` and `x-foo` name one header; `Set-Cookie`
      in any spelling reaches the cookie jar; the headers the adapter sets
      itself never do. */
  lemma HeaderKeySpellings()
    ensures HeaderKey("X_Foo") == HeaderKey("x-foo")
    ensures HeaderKey("Set-Cookie") == SetCookieKey && HeaderKey("SET_COOKIE") == SetCookieKey
    ensures HeaderKey(Location) != SetCookieKey && HeaderKey(ContentType) != SetCookieKey
  {
    var a := HeaderKey("X_Foo");
    var b := HeaderKey("x-foo");
    assert a[0] == b[0] && a[1] == b[1] && a[2] == b[2] && a[3] == b[3] && a[4] == b[4];
    var c := HeaderKey("Set-Cookie");
    assert c[0] == 's' && c[1] == 'e' && c[2] == 't' && c[3] == '-' && c[4] == 'c';
    assert c[5] == 'o' && c[6] == 'o' && c[7] == 'k' && c[8] == 'i' && c[9] == 'e';
    var d := HeaderKey("SET_COOKIE");
    assert d[0] == 's' && d[1] == 'e' && d[2] == 't' && d[3] == '-' && d[4] == 'c';
    assert d[5] == 'o' && d[6] == 'o' && d[7] == 'k' && d[8] == 'i' && d[9] == 'e';
  }

  /** A header value: one string, or a list the adapter joins. */
  datatype HeaderValue = Text(s: string) | List(items: seq<string>)

  /** `is_array($value) ? implode(", ", $value) : $value`. */
  function HeaderText(v: HeaderValue): string {
    match v
    case Text(s) => s
    case List(items) => Implode(", ", items)
  }

  /** The header bag after `headers->set($name, $value)`. */
  function WithHeader(headers: map<string, string>, name: string, value: string): map<string, string> {
    headers[HeaderKey(name) := value]
  }

  /** A list is stored as its items in order with ", " between neighbours:
      the first item, then ", " and the next one for each later item. An
      empty list stores "", a one-item list the item itself. */
  lemma HeaderListJoined(items: seq<string>)
    ensures items == [] ==> HeaderText(List(items)) == ""
    ensures |items| == 1 ==> HeaderText(List(items)) == HeaderText(Text(items[0]))
    ensures items != [] ==> HeaderText(List(items)) == items[0] + GlueEach(", ", items[1..])
    ensures items != [] ==> |HeaderText(List(items))| == TotalLength(items) + 2 * (|items| - 1)
  {
    if items != [] {
      ImplodeIsGlueEach(", ", items);
      ImplodeLength(", ", items);
    }
  }

  /** A header set under one capitalisation is found under any other, and
      no other header changes. */
  lemma WithHeaderOnly(headers: map<string, string>, name: string, value: string, other: string)
    ensures var h := WithHeader(headers, name, value);
      && (HeaderKey(other) == HeaderKey(name) ==> h[HeaderKey(other)] == value)
      && (HeaderKey(other) != HeaderKey(name) ==>
            (HeaderKey(other) in h <==> HeaderKey(other) in headers)
            && (HeaderKey(other) in headers ==> h[HeaderKey(other)] == headers[HeaderKey(other)]))
  {
  }

  /** Setting a header again replaces it: only the last value is kept. */
  lemma LastHeaderWins(headers: map<string, string>, name: string, again: string, first: string, second: string)
    requires HeaderKey(again) == HeaderKey(name)
    ensures WithHeader(WithHeader(headers, name, first), again, second) == WithHeader(headers, name, second)
  {
  }

  // ---------------------------------------------------------------------
  // Cookies

  datatype SameSite = Lax | Strict | NoRestriction

  datatype Cookie = Cookie(
    name: string,
    value: string,
    expire: int,
    path: string,
    domain: string,
    secure: bool,
    httpOnly: bool,
    raw: bool,
    sameSite: SameSite)

  datatype CookieKey = CookieKey(domain: string, path: string, name: string)

  function KeyOf(c: Cookie): CookieKey {
    CookieKey(c.domain, c.path, c.name)
  }

  /** The cookie `setCookie` builds: never raw, always SameSite=Lax. */
  function SessionCookie(name: string, value: string, expire: int, path: string, domain: string,
                         secure: bool, httpOnly: bool): Cookie {
    Cookie(name, value, expire, path, domain, secure, httpOnly, false, Lax)
  }

  /** The cookie `deleteCookie` builds at time `now`: empty and an hour old. */
  function RemovalCookie(now: int, name: string, path: string, domain: string): Cookie {
    Cookie(name, "", now - 3600, path, domain, false, true, false, Lax)
  }

  /** A browser drops a cookie whose expiry time has passed; 0 means "at the
      end of the session", not "expired". */
  predicate ExpiredAt(c: Cookie, now: int) {
    c.expire != 0 && c.expire < now
  }

  /** Deleting a cookie replaces the one set under the same name, path and
      domain with an empty value that has already expired, and is still
      HTTP-only, not secure, not raw and SameSite=Lax. */
  lemma RemovalReplaces(jar: map<CookieKey, Cookie>, earlier: Cookie, now: int)
    requires now - 3600 != 0
    ensures var removal := RemovalCookie(now, earlier.name, earlier.path, earlier.domain);
      var after := jar[KeyOf(earlier) := earlier][KeyOf(removal) := removal];
      && KeyOf(removal) == KeyOf(earlier)
      && after[KeyOf(earlier)].value == "" && ExpiredAt(after[KeyOf(earlier)], now)
      && after[KeyOf(earlier)].httpOnly && !after[KeyOf(earlier)].secure && !after[KeyOf(earlier)].raw
      && after[KeyOf(earlier)].sameSite == Lax
      && |after| == |jar[KeyOf(earlier) := earlier]|
  {
  }

  // ---------------------------------------------------------------------
  // The response and the adapter

  class Response {
    var headers: map<string, string>
    var status: int
    var content: string
    var cookies: map<CookieKey, Cookie>

    constructor ()
      ensures headers == map[] && status == HttpOk && content == "" && cookies == map[]
    {
      headers, status, content, cookies := map[], HttpOk, "", map[];
    }
  }

  class HelloResponse {
    const response: Response

    constructor ()
      ensures fresh(response)
      ensures response.headers == map[] && response.status == HttpOk
      ensures response.content == "" && response.cookies == map[]
    {
      response := new Response();
    }

    /** `parse` is `Cookie::fromString`. Under the key `set-cookie` the header
        bag empties its cookie jar and files the one cookie parsed from the
        text; under any other key it replaces that header. */
    method SetHeader(name: string, value: HeaderValue, parse: string -> Cookie)
      modifies response
      ensures HeaderKey(name) != SetCookieKey ==>
        response.headers == WithHeader(old(response.headers), name, HeaderText(value))
        && response.cookies == old(response.cookies)
      ensures HeaderKey(name) == SetCookieKey ==>
        var c := parse(HeaderText(value));
        response.headers == old(response.headers) && response.cookies == map[KeyOf(c) := c]
      ensures response.status == old(response.status) && response.content == old(response.content)
    {
      var text := HeaderText(value);
      if HeaderKey(name) == SetCookieKey {
        var c := parse(text);
        response.cookies := map[KeyOf(c) := c];
      } else {
        response.headers := WithHeader(response.headers, name, text);
      }
    }

    /** `time()` is the parameter `now`. */
    method DeleteCookie(now: int, name: string, path: string := "/", domain: string := "")
      modifies response
      ensures var c := RemovalCookie(now, name, path, domain);
        response.cookies == old(response.cookies)[KeyOf(c) := c]
      ensures response.headers == old(response.headers) && response.status == old(response.status)
      ensures response.content == old(response.content)
    {
      var c := RemovalCookie(now, name, path, domain);
      response.cookies := response.cookies[KeyOf(c) := c];
    }

    method SetCookie(name: string, value: string, expire: int := 0, path: string := "/",
                     domain: string := "", secure: bool := false, httpOnly: bool := true)
      modifies response
      ensures var c := SessionCookie(name, value, expire, path, domain, secure, httpOnly);
        response.cookies == old(response.cookies)[KeyOf(c) := c]
      ensures response.headers == old(response.headers) && response.status == old(response.status)
      ensures response.content == old(response.content)
    {
      var c := SessionCookie(name, value, expire, path, domain, secure, httpOnly);
      response.cookies := response.cookies[KeyOf(c) := c];
    }

    /** Returns the held response object itself. */
    method Redirect(url: string) returns (r: Response)
      modifies response
      ensures r == response
      ensures response.headers == WithHeader(old(response.headers), Location, url)
      ensures response.status == HttpFound
      ensures response.content == old(response.content) && response.cookies == old(response.cookies)
    {
      response.headers := WithHeader(response.headers, Location, url);
      response.status := HttpFound;
      r := response;
    }

    method Render(content: string) returns (body: string)
      modifies response
      ensures body == content && response.content == content
      ensures response.headers == WithHeader(old(response.headers), ContentType, TextPlain)
      ensures response.status == old(response.status) && response.cookies == old(response.cookies)
    {
      response.content := content;
      response.headers := WithHeader(response.headers, ContentType, TextPlain);
      body := response.content;
    }

    /** `encoded` is what `json_encode($data)` returns. */
    method Json(encoded: string) returns (body: string)
      modifies response
      ensures body == encoded && response.content == encoded
      ensures response.headers == WithHeader(old(response.headers), ContentType, ApplicationJson)
      ensures response.status == old(response.status) && response.cookies == old(response.cookies)
    {
      response.content := encoded;
      response.headers := WithHeader(response.headers, ContentType, ApplicationJson);
      body := response.content;
    }
  }

  /** The defaults at work: `setCookie` with only a name and a value files
      the cookie under the current host's root path, and `deleteCookie` with
      only a name overwrites exactly that entry with its removal. */
  method CookieDefaults(r: HelloResponse, name: string, value: string, now: int)
    modifies r.response
    ensures var k := CookieKey("", "/", name);
      && k in r.response.cookies
      && r.response.cookies[k] == RemovalCookie(now, name, "/", "")
      && r.response.cookies.Keys == old(r.response.cookies).Keys + {k}
  {
    r.SetCookie(name, value);
    var k := CookieKey("", "/", name);
    assert r.response.cookies[k] == Cookie(name, value, 0, "/", "", false, true, false, Lax);
    r.DeleteCookie(now, name);
  }
}

/**
 * `HelloLoginConfigForm`: the settings form of `hello_login.settings`. Building
 * it applies a `client_id` query parameter to `app_id` and fills the defaults
 * and the quickstart link; submitting it copies the values into the
 * configuration, keeping only the checked provider hints; the secret button
 * stores a fresh secret in the configuration and in the form state, and its
 * Ajax callback shows it in the secret element.
 */
module LoginForm {
  import opened Php
  import opened Config
  import opened Forms

  const SettingsName: string := "hello_login.settings"

  /** `provider_hint`'s default: GitHub, Google and Twitter, in that order. */
  const DefaultProviderHint: Entries :=
    [("0", StringValue("github")), ("1", StringValue("google")), ("2", StringValue("twitter"))]

  const QuickstartBase: string := "https://quickstart.hello.coop/?response_uri="
  const ImageParam: string := "&image_uri="
  const RedirectParam: string := "&redirect_uri="

  /** The defaults `buildForm` shows. */
  datatype Fields = Fields(
    apiRoute: string,
    appId: Option<string>,
    secret: Option<string>,
    providerHint: Entries,
    quickstart: string)

  /** What the quickstart link is built from: the absolute URL of the form's
      own route, the scheme and host, and the theme logo's URL (None when
      the theme has none). */
  datatype SiteContext = SiteContext(responseUri: string, hostUrl: string, logo: Option<string>)

  // ---------------------------------------------------------------------
  // Specification functions

  /** The `client_id` override: a non-empty query parameter replaces `app_id`. */
  function WithClientId(s: Settings, clientId: Option<string>): Settings {
    if !Empty(clientId) then s.(appId := clientId) else s
  }

  /** The logo the quickstart page is given: "" without a theme logo, the
      logo URL itself when it is external, and otherwise the URL made
      absolute by prefixing the scheme and host. */
  function LogoUrl(hostUrl: string, logo: Option<string>, isExternal: string -> bool): string {
    if Empty(logo) then "" else if isExternal(logo.value) then logo.value else hostUrl + logo.value
  }

  /** `generateQuickstartUrl`, with `urlencode` and `UrlHelper::isExternal`
      as parameters. */
  function QuickstartUrl(site: SiteContext, urlencode: string -> string, isExternal: string -> bool): string {
    QuickstartBase + urlencode(site.responseUri)
    + ImageParam + urlencode(LogoUrl(site.hostUrl, site.logo, isExternal))
    + RedirectParam + urlencode(site.hostUrl)
  }

  function FieldsFor(s: Settings, site: SiteContext, urlencode: string -> string, isExternal: string -> bool): Fields {
    Fields(ApiRouteDefault(s), s.appId, s.secret, Coalesce(s.providerHint, DefaultProviderHint),
           QuickstartUrl(site, urlencode, isExternal))
  }

  /** The configuration after `submitForm`. */
  function Submitted(s: Settings, v: FormValues): Settings {
    Settings(v.apiRoute, v.appId, v.secret, Some(ArrayFilter(v.providerHint)))
  }

  // ---------------------------------------------------------------------
  // Reading a quickstart link back

  /** The position of the first '&' in `s`, or `|s|` when there is none. */
  function FirstAmp(s: string): (i: nat)
    ensures i <= |s|
    ensures forall j :: 0 <= j < i ==> s[j] != '&'
    ensures i < |s| ==> s[i] == '&'
  {
    if s == [] || s[0] == '&' then 0 else 1 + FirstAmp(s[1..])
  }

  lemma {:induction false} FirstAmpAfter(a: string, rest: string)
    requires '&' !in a && |rest| > 0 && rest[0] == '&'
    ensures FirstAmp(a + rest) == |a|
  {
    if a != [] {
      assert a[0] in a;
      assert (a + rest)[0] == a[0] && (a + rest)[1..] == a[1..] + rest;
      assert forall c :: c in a[1..] ==> c in a;
      FirstAmpAfter(a[1..], rest);
    } else {
      assert a + rest == rest;
    }
  }

  predicate HasPrefix(s: string, prefix: string) {
    |prefix| <= |s| && s[..|prefix|] == prefix
  }

  /** The three encoded parameters of a quickstart link, in order. */
  function QuickstartParams(url: string): Option<(string, string, string)> {
    if !HasPrefix(url, QuickstartBase) then None
    else
      var rest := url[|QuickstartBase|..];
      var i := FirstAmp(rest);
      var afterResponse := rest[i..];
      if !HasPrefix(afterResponse, ImageParam) then None
      else
        var rest2 := afterResponse[|ImageParam|..];
        var j := FirstAmp(rest2);
        var afterImage := rest2[j..];
        if !HasPrefix(afterImage, RedirectParam) then None
        else Some((rest[..i], rest2[..j], afterImage[|RedirectParam|..]))
  }

  lemma DropPrefix(prefix: string, x: string)
    ensures HasPrefix(prefix + x, prefix) && (prefix + x)[|prefix|..] == x
  {
    assert (prefix + x)[..|prefix|] == prefix;
  }

  lemma SplitAtAmp(a: string, rest: string)
    requires '&' !in a && |rest| > 0 && rest[0] == '&'
    ensures var i := FirstAmp(a + rest); (a + rest)[..i] == a && (a + rest)[i..] == rest
  {
    FirstAmpAfter(a, rest);
    assert (a + rest)[..|a|] == a;
  }

  lemma QuickstartSplits(a: string, b: string, c: string)
    requires '&' !in a && '&' !in b
    ensures QuickstartParams(QuickstartBase + a + ImageParam + b + RedirectParam + c) == Some((a, b, c))
  {
    var tail2 := RedirectParam + c;
    var rest2 := b + tail2;
    var tail1 := ImageParam + rest2;
    var rest := a + tail1;
    assert QuickstartBase + a + ImageParam + b + RedirectParam + c == QuickstartBase + rest;
    DropPrefix(QuickstartBase, rest);
    SplitAtAmp(a, tail1);
    DropPrefix(ImageParam, rest2);
    SplitAtAmp(b, tail2);
    DropPrefix(RedirectParam, c);
  }

  /** The quickstart link carries, in the order response, image, redirect,
      the encoded form route, the encoded logo URL and the encoded scheme
      and host: reading the link back yields exactly those three, as long
      as the encoder writes no '&' (which `urlencode` never does). */
  lemma QuickstartRoundTrip(site: SiteContext, urlencode: string -> string, isExternal: string -> bool)
    requires '&' !in urlencode(site.responseUri)
    requires '&' !in urlencode(LogoUrl(site.hostUrl, site.logo, isExternal))
    ensures QuickstartParams(QuickstartUrl(site, urlencode, isExternal)) ==
      Some((urlencode(site.responseUri), urlencode(LogoUrl(site.hostUrl, site.logo, isExternal)), urlencode(site.hostUrl)))
  {
    QuickstartSplits(urlencode(site.responseUri), urlencode(LogoUrl(site.hostUrl, site.logo, isExternal)), urlencode(site.hostUrl));
  }

  /** The logo URL is empty exactly when the theme has no usable logo; an
      external logo is passed on unchanged and a local one ends with its
      own path. */
  lemma LogoUrlRule(hostUrl: string, logo: Option<string>, isExternal: string -> bool)
    ensures LogoUrl(hostUrl, logo, isExternal) == "" <==> Empty(logo)
    ensures !Empty(logo) && isExternal(logo.value) ==> LogoUrl(hostUrl, logo, isExternal) == logo.value
    ensures !Empty(logo) && !isExternal(logo.value) ==>
      var u := LogoUrl(hostUrl, logo, isExternal);
      |u| == |hostUrl| + |logo.value| && u[|hostUrl|..] == logo.value && u[..|hostUrl|] == hostUrl
  {
    if !Empty(logo) && !isExternal(logo.value) {
      var u := LogoUrl(hostUrl, logo, isExternal);
      assert u[|hostUrl|..] == logo.value;
      assert u[..|hostUrl|] == hostUrl;
    }
  }

  // ---------------------------------------------------------------------
  // The form

  class HelloLoginConfigForm {
    const config: EditableConfig

    constructor (config: EditableConfig)
      requires config.name == SettingsName
      ensures this.config == config
    {
      this.config := config;
    }

    /** `clientId` is the request's `client_id` query parameter. */
    method BuildForm(clientId: Option<string>, site: SiteContext, urlencode: string -> string,
                     isExternal: string -> bool) returns (f: Fields)
      modifies config
      ensures config.settings == WithClientId(old(config.settings), clientId)
      ensures f == FieldsFor(config.settings, site, urlencode, isExternal)
    {
      if !Empty(clientId) {
        config.settings := config.settings.(appId := clientId);
      }
      f := FieldsFor(config.settings, site, urlencode, isExternal);
    }

    method SubmitForm(state: FormState)
      modifies config
      ensures config.settings == Submitted(old(config.settings), state.values)
    {
      var v := state.values;
      config.settings := Settings(v.apiRoute, v.appId, v.secret, Some(ArrayFilter(v.providerHint)));
    }

    /** `random` is what `random_bytes(32)` returns. */
    method UpdateSecretKey(state: FormState, random: seq<byte>)
      requires |random| == SecretBytes
      modifies config, state
      ensures config.settings == old(config.settings).(secret := Some(NewSecret(random)))
      ensures state.storage == old(state.storage)[NewSecretKey := NewSecret(random)]
      ensures state.rebuild && state.values == old(state.values)
    {
      var secret := Bin2Hex(random);
      config.settings := config.settings.(secret := Some(secret));
      state.rebuild := true;
      state.storage := state.storage[NewSecretKey := secret];
    }

    /** Returns the secret element as it is after the update. */
    method UpdateSecretKeyAjaxCallback(form: Form, state: FormState) returns (e: Element)
      modifies form
      ensures form.secret == Refreshed(old(form.secret), state.storage)
      ensures e == form.secret
    {
      if NewSecretKey in state.storage && Truthy(state.storage[NewSecretKey]) {
        form.secret := form.secret.(value := Some(state.storage[NewSecretKey]));
      }
      e := form.secret;
    }
  }

  // ---------------------------------------------------------------------
  // Properties

  /** A non-empty `client_id` becomes `app_id` and nothing else changes; an
      absent, empty or "0" one leaves the configuration as it was. */
  lemma ClientIdRule(s: Settings, clientId: Option<string>)
    ensures var t := WithClientId(s, clientId);
      && (!Empty(clientId) ==> t.appId == clientId)
      && (Empty(clientId) ==> t == s)
      && t.apiRoute == s.apiRoute && t.secret == s.secret && t.providerHint == s.providerHint
  {
  }

  /** Submitting stores the three text values as given and the provider
      hints that are checked, in their order and under their keys, and
      nothing else; submitting the stored hints again keeps them as they
      are. */
  lemma SubmitContract(s: Settings, v: FormValues)
    ensures var t := Submitted(s, v);
      && t.apiRoute == v.apiRoute && t.appId == v.appId && t.secret == v.secret
      && t.providerHint.Some?
      && (forall e :: e in t.providerHint.value <==> e in v.providerHint && ScalarTruthy(e.1))
      && Submitted(t, v.(providerHint := t.providerHint.value)) == t
  {
    ArrayFilterIdempotent(v.providerHint);
  }

  /** The defaults: an unset provider hint shows GitHub, Google and Twitter,
      a configured one (even an empty list) is shown as configured. */
  lemma DefaultsRule(s: Settings, site: SiteContext, urlencode: string -> string, isExternal: string -> bool)
    ensures var f := FieldsFor(s, site, urlencode, isExternal);
      && (s.apiRoute.None? ==> f.apiRoute == DefaultApiRoute)
      && (s.providerHint.None? ==> f.providerHint == DefaultProviderHint)
      && (s.providerHint.Some? ==> f.providerHint == s.providerHint.value)
      && f.appId == s.appId && f.secret == s.secret
  {
  }
}

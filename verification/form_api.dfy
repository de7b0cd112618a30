/**
 * What both configuration forms share: the submitted form state (values,
 * storage entries and the rebuild flag), the secret element of the form
 * array, the form defaults, and the secret rotation `bin2hex(random_bytes(32))`
 * with the Ajax refresh that shows the new secret.
 */
module Forms {
  import opened Php
  import opened Config

  /** The form-state key under which a new secret waits for the rebuild. */
  const NewSecretKey: string := "new_secret"

  /** The number of random bytes a new secret is made from. */
  const SecretBytes: nat := 32

  /** The submitted values the forms read; None is a value that is absent. */
  datatype FormValues = FormValues(
    apiRoute: Option<string>,
    appId: Option<string>,
    secret: Option<string>,
    providerHint: Entries)

  class FormState {
    var values: FormValues
    /** `$form_state->set`/`get` entries. */
    var storage: map<string, string>
    var rebuild: bool

    constructor (values: FormValues)
      ensures this.values == values && storage == map[] && !rebuild
    {
      this.values := values;
      storage := map[];
      rebuild := false;
    }
  }

  /** The secret element of the form array: its `#default_value` and its
      `#value`, None when unset. */
  datatype Element = Element(defaultValue: Option<string>, value: Option<string>)

  /** The part of the form array the Ajax callback writes and returns. */
  class Form {
    var secret: Element

    constructor (secret: Element)
      ensures this.secret == secret
    {
      this.secret := secret;
    }
  }

  /** `api_route`'s default: the configured value, `/api/hellocoop` when unset. */
  function ApiRouteDefault(s: Settings): string {
    Coalesce(s.apiRoute, DefaultApiRoute)
  }

  /** The secret the forms store: two lowercase hex digits per random byte. */
  function NewSecret(random: seq<byte>): string {
    Bin2Hex(random)
  }

  /** The element after the Ajax callback, given the form-state storage. */
  function Refreshed(e: Element, storage: map<string, string>): Element {
    if NewSecretKey in storage && Truthy(storage[NewSecretKey]) then e.(value := Some(storage[NewSecretKey])) else e
  }

  /** A rotated secret is 64 lowercase hex digits from which the random
      bytes can be read back; it is never falsy, so the Ajax refresh that
      follows the rotation always shows it. */
  lemma SecretRotation(random: seq<byte>, e: Element, storage: map<string, string>)
    requires |random| == SecretBytes
    ensures var secret := NewSecret(random);
      && |secret| == 64 && IsLowerHexString(secret)
      && Hex2Bin(secret) == random
      && Truthy(secret)
      && Refreshed(e, storage[NewSecretKey := secret]) == e.(value := Some(secret))
  {
    Hex2BinOfBin2Hex(random);
    var secret := NewSecret(random);
    assert secret != "0" by {
      assert |secret| != |"0"|;
    }
  }

  /** Without a stored secret, or with a falsy one, the element is returned
      as it was; otherwise only its `#value` changes. */
  lemma RefreshOnlyTouchesValue(e: Element, storage: map<string, string>)
    ensures Refreshed(e, storage).defaultValue == e.defaultValue
    ensures Refreshed(e, storage).value != e.value ==>
      NewSecretKey in storage && Truthy(storage[NewSecretKey]) && Refreshed(e, storage).value == Some(storage[NewSecretKey])
    ensures NewSecretKey !in storage ==> Refreshed(e, storage) == e
  {
  }

  /** An unset `api_route` shows `/api/hellocoop`; a set one, even "",
      is shown as it is. */
  lemma ApiRouteDefaultRule(s: Settings)
    ensures s.apiRoute.None? ==> ApiRouteDefault(s) == DefaultApiRoute
    ensures s.apiRoute.Some? ==> ApiRouteDefault(s) == s.apiRoute.value
  {
  }
}

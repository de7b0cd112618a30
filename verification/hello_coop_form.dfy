/**
 * `HelloCoopConfigForm`: the settings form of `hellocoop.settings`, the one
 * both configuration factories read. It has no provider hints and no
 * `client_id` override: submitting copies exactly the API route, the app id
 * and the secret; the secret button and its Ajax callback behave as in the
 * other settings form.
 */
module CoopForm {
  import opened Php
  import opened Config
  import opened Forms

  const SettingsName: string := "hellocoop.settings"

  /** The defaults `buildForm` shows. */
  datatype Fields = Fields(apiRoute: string, appId: Option<string>, secret: Option<string>)

  function FieldsFor(s: Settings): Fields {
    Fields(ApiRouteDefault(s), s.appId, s.secret)
  }

  /** The configuration after `submitForm`. */
  function Submitted(s: Settings, v: FormValues): Settings {
    s.(apiRoute := v.apiRoute, appId := v.appId, secret := v.secret)
  }

  class HelloCoopConfigForm {
    const config: EditableConfig

    constructor (config: EditableConfig)
      requires config.name == SettingsName
      ensures this.config == config
    {
      this.config := config;
    }

    /** Reads the configuration only. */
    method BuildForm() returns (f: Fields)
      ensures f == FieldsFor(config.settings)
      ensures f.apiRoute == Coalesce(config.settings.apiRoute, DefaultApiRoute)
    {
      f := FieldsFor(config.settings);
      ApiRouteDefaultRule(config.settings);
    }

    method SubmitForm(state: FormState)
      modifies config
      ensures config.settings == Submitted(old(config.settings), state.values)
    {
      var v := state.values;
      config.settings := config.settings.(apiRoute := v.apiRoute, appId := v.appId, secret := v.secret);
    }

    /** `random` is what `random_bytes(32)` returns. */
    method UpdateSecretKey(state: FormState, random: seq<byte>)
      requires |random| == SecretBytes
      modifies config, state
      ensures config.settings == old(config.settings).(secret := Some(NewSecret(random)))
      ensures state.storage == old(state.storage)[NewSecretKey := NewSecret(random)]
      ensures state.rebuild && state.values == old(state.values)
    {
      var secret := Bin2Hex(random);
      config.settings := config.settings.(secret := Some(secret));
      state.rebuild := true;
      state.storage := state.storage[NewSecretKey := secret];
    }

    /** Returns the secret element as it is after the update. */
    method UpdateSecretKeyAjaxCallback(form: Form, state: FormState) returns (e: Element)
      modifies form
      ensures form.secret == Refreshed(old(form.secret), state.storage)
      ensures e == form.secret
    {
      if NewSecretKey in state.storage && Truthy(state.storage[NewSecretKey]) {
        form.secret := form.secret.(value := Some(state.storage[NewSecretKey]));
      }
      e := form.secret;
    }
  }

  /** Submitting writes the three keys as given and leaves the provider
      hints, which this form does not show, as they were; submitting the
      same values twice is the same as once. */
  lemma SubmitContract(s: Settings, v: FormValues)
    ensures var t := Submitted(s, v);
      && t.apiRoute == v.apiRoute && t.appId == v.appId && t.secret == v.secret
      && t.providerHint == s.providerHint
      && Submitted(t, v) == t
  {
  }

  /** A rotation followed by the Ajax refresh: the configuration, the form
      state and the element all hold the same new 64-digit secret. */
  method RotateAndShow(f: HelloCoopConfigForm, state: FormState, form: Form, random: seq<byte>)
      returns (e: Element)
    requires |random| == SecretBytes
    requires form != state as object
    modifies f.config, state, form
    ensures f.config.settings.secret == Some(NewSecret(random))
    ensures NewSecretKey in state.storage && state.storage[NewSecretKey] == NewSecret(random)
    ensures e.value == Some(NewSecret(random)) && |NewSecret(random)| == 64
  {
    f.UpdateSecretKey(state, random);
    e := f.UpdateSecretKeyAjaxCallback(form, state);
    SecretRotation(random, old(form.secret), old(state.storage));
  }
}

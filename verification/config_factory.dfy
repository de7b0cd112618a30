/**
 * `Drupal\hellocoop\HelloConfigFactory`: keeps the `hellocoop.settings`
 * configuration object it is given at construction, builds the SDK
 * configuration from what that object holds at each call, and supplies the
 * SDK's login and logout callbacks, which forward to the subject-keyed
 * `HelloClient`. The configuration factory hands out one cached object per
 * name and refreshes it whenever the settings are saved, so `EditableConfig`
 * here stands for the saved settings every reader sees.
 */
module ConfigFactory {
  import opened Php
  import opened Drupal
  import opened Identity
  import opened Config
  import opened HelloClientModel
  import CoopForm
  import Forms

  const SettingsName: string := "hellocoop.settings"

  /** The login callback forwards only a payload that is present and whose
      email is non-empty. */
  predicate Forwards(resp: WalletResponse) {
    resp.payload.Some? && !Empty(resp.payload.value.email)
  }

  class HelloConfigFactory {
    const client: HelloClient
    /** The configuration object fetched at construction. */
    const config: EditableConfig

    constructor (client: HelloClient, config: EditableConfig)
      requires config.name == SettingsName
      ensures this.client == client && this.config == config
    {
      this.client := client;
      this.config := config;
    }

    /** The response array is returned as it came in. A forwarded payload
        runs exactly one `loginUpdate`; otherwise no store is touched. */
    method LoginCallback(resp: WalletResponse, io: PictureIo) returns (r: WalletResponse, out: Outcome)
      requires Forwards(resp) ==> resp.payload.value.sub.Some?
      modifies client.store
      ensures r == resp
      ensures Forwards(resp) ==>
        (client.store.Snapshot(), out) == LoginUpdateIn(old(client.store.Snapshot()), resp.payload.value, io)
      ensures !Forwards(resp) ==> client.store.Snapshot() == old(client.store.Snapshot()) && out == Returned
    {
      r := resp;
      out := Returned;
      if resp.payload.None? || Empty(resp.payload.value.email) {
        return;
      }
      out := client.LoginUpdate(resp.payload.value, io);
    }

    /** Exactly one `logOut`. */
    method LogoutCallback()
      modifies client.store
      ensures client.store.Snapshot() == LogOutIn(old(client.store.Snapshot()))
    {
      client.LogOut();
    }

    /** Depends on the request and on the settings as they are at the call. */
    method CreateConfig(req: Request) returns (c: HelloConfig)
      ensures c == HelloConfigFrom(config.settings, req)
      ensures c.clientId == config.settings.appId && c.secret == config.settings.secret
      ensures OpOf(c.loginApiRoute, config.settings.apiRoute) == Some("login")
    {
      c := HelloConfigFrom(config.settings, req);
      HelloConfigFields(config.settings, req);
    }
  }

  /** A factory built before the settings form is submitted builds the SDK
      configuration from the submitted values afterwards: the app id, the
      secret and the routes all follow the save. */
  method SavedSettingsReachCreateConfig(factory: HelloConfigFactory, form: CoopForm.HelloCoopConfigForm,
                                        state: Forms.FormState, req: Request)
      returns (before: HelloConfig, after: HelloConfig)
    requires form.config == factory.config
    modifies factory.config
    ensures before == HelloConfigFrom(old(factory.config.settings), req)
    ensures after == HelloConfigFrom(CoopForm.Submitted(old(factory.config.settings), state.values), req)
    ensures after.clientId == state.values.appId && after.secret == state.values.secret
    ensures OpOf(after.loginApiRoute, state.values.apiRoute) == Some("login")
  {
    before := factory.CreateConfig(req);
    form.SubmitForm(state);
    after := factory.CreateConfig(req);
  }

  /** The guard: a missing payload, or one with a missing, empty or "0"
      email, is never forwarded; any other is. */
  lemma ForwardsExactly(resp: WalletResponse)
    ensures Forwards(resp) <==>
      resp.payload.Some? && resp.payload.value.email.Some?
      && resp.payload.value.email.value != "" && resp.payload.value.email.value != "0"
    ensures !Forwards(WalletResponse(None))
  {
  }
}

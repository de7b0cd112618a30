# hellocoop for Drupal, modelled in Dafny

This project models the module's own logic around the Hellō SDK, as it runs
within one request.

- **Subject-keyed login** (`HelloClient::loginUpdate`). The account mapped to
  `(sub, "hellocoop")` in the external-auth map is loaded, or registered when
  there is none. Its name and mail are merged from the payload under the mail
  guard. A profile picture is ingested when the payload names one. Only then
  are the account saved, the `hellocoop_user_login` hook invoked and the login
  finalized. The module also holds the phone-number validator.
- **Email-keyed login** (the older `Service\HelloConfigFactory::loginCallback`).
  The account is the first one holding the payload email, or a new active
  account. An existing account's name is overwritten unconditionally. The
  picture trigger is `!empty`, not `isset`.
- **The SDK callbacks and configuration** (`HelloConfigFactory`). The login
  callback's payload/email guard forwards to `loginUpdate` and returns its
  input unchanged. The `HelloConfig` record is derived from the settings as
  they are at each call, so a saved change reaches it.
- **The response adapter** (`HelloResponse`). It holds a header bag, a status,
  a body and a cookie jar, changed by `setHeader`, `setCookie`,
  `deleteCookie`, `redirect`, `render` and `json`.
- **The route subscriber.** It rebinds the API endpoint route to the
  configured `api_route`.
- **The two settings forms.** They cover the `client_id` override, the
  defaults, the quickstart link, `submitForm`, the secret rotation
  `bin2hex(random_bytes(32))` and its Ajax refresh.

## How the model is built

Stateful PHP becomes classes:

- `Drupal.Store`: the user storage, the external-auth map, the file entities and
  an ordered log of observable effects.
- `Config.EditableConfig`, `Forms.FormState`, `Forms.Form`,
  `Responses.Response` and `Routing.RouteCollection`.

Each method states its new state as a pure function of the old one, for
example `Snapshot() == LoginUpdateIn(old(Snapshot()), p, io)`. The properties
the code promises are proved as lemmas about those functions. Module `Php`
models the PHP value semantics the code relies on:

- truthiness of `""` and `"0"`, `empty`, and `??`;
- null concatenating as `""`;
- `implode`, `bin2hex`, and `array_filter`, which keeps keys and order.

The outside world becomes parameters:

- `PictureIo` holds the HTTP body, the URI that `writeData` returns, the
  `uniqid` suffix and the id the file storage assigns;
- `random` stands for `random_bytes(32)`, `now` for `time()`, and `encoded` for
  the result of `json_encode`;
- `urlencode` and `UrlHelper::isExternal` are function parameters.

Some consequences of the code that are easy to miss:

- A failed image fetch and a failed file write both end the login with the
  same `LogicException` message; a file entity without an id ends it with
  the other one (`Identity.AttachPictureContract`).
- A newly registered account stays when the picture step throws, because
  `ExternalAuth::register` has already saved it
  (`HelloClientModel.UnmappedSubjectRegistersOne`).
- When the mail guard refuses an email, the mail is left as it is and
  nothing is logged (`HelloClientModel.MailNeverStolen`).
- A rotated secret is written to the configuration at once, besides being
  kept in the form state for the Ajax refresh (`Forms.SecretRotation`,
  `LoginForm.HelloLoginConfigForm.UpdateSecretKey`).
- In the email-keyed login, a payload without email makes the mail lookup
  throw before anything is read or written (`LegacyFactory.NoPayloadNoEffect`).

All `.dfy` files are verified together, either with plain `dafny verify *.dfy`
or with a resource bound:
`dafny verify --resource-limit 2000000 --verification-time-limit 0 --warn-contradictory-assumptions *.dfy`.

## Model

| member | source | states |
|---|---|---|
| HelloClientModel.HelloClient.constructor | src/HelloClient.php:57-65 | the client works on the given stores |
| HelloClientModel.HelloClient.LoginUpdate | src/HelloClient.php:73-84 | load or register, merge the fields, then save, invoke the login hook and finalize, unless the picture step threw |
| HelloClientModel.HelloClient.Resolve | src/HelloClient.php:74-78 | the id is the mapped account's, or the newly registered one's, as the lookup-or-register step yields |
| HelloClientModel.HelloClient.LogOut | src/HelloClient.php:89-92 | the logout hook, then the session logout |
| HelloClientModel.HelloClient.LoadUser | src/HelloClient.php:103-106 | finds an account exactly when (sub, "hellocoop") is mapped to an existing account, and returns that account's id |
| HelloClientModel.HelloClient.CreateUser | src/HelloClient.php:117-125 | registers one account under (sub, "hellocoop") with the payload name, email as mail and init, and status 1; its id is the next one |
| HelloClientModel.HelloClient.UpdateUserFields | src/HelloClient.php:135-157 | name if non-empty, mail under the guard, picture if set, in that order |
| HelloClientModel.HelloClient.UpdateUserPicture | src/HelloClient.php:184-201 | links the file id only after a non-empty URI was written and the file entity got an id; otherwise throws the matching message |
| HelloClientModel.HelloClient.SaveUserImageAsFile | src/HelloClient.php:212-225 | fetches, then writes under the destination with replace; a failed fetch or write yields null |
| HelloClientModel.ResolveIn | src/HelloClient.php:74-78 | the id to update always names an existing account |
| HelloClientModel.UpdateFieldsIn | src/HelloClient.php:135-157 | merging fields never adds or changes an account in storage or the auth map |
| HelloClientModel.MappedSubjectUpdatesItsAccount | src/HelloClient.php:74-78 | with a mapping, no account is added, the auth map is unchanged, other accounts are untouched, and the mapped account is the one saved |
| HelloClientModel.UnmappedSubjectRegistersOne | src/HelloClient.php:117-125 | without a mapping, exactly one account is appended and mapped, with name, mail, init and status from the payload, even when the login then throws |
| HelloClientModel.FieldMergePolicy | src/HelloClient.php:137-150 | after a returning login: name only from a non-empty payload name, mail only under the guard, picture only when given; init, status and all other accounts unchanged |
| HelloClientModel.MailGuardMeaning | src/HelloClient.php:141-144 | the guard holds iff no account has the mail, or this account has it and no earlier account does |
| HelloClientModel.MailNeverStolen | src/HelloClient.php:141-146 | the mail changes only when no account at all, this one included, already holds the payload email |
| HelloClientModel.RegistrationDuplicatesMail | src/HelloClient.php:117-125 | registering copies an email another account already holds, so two accounts then share it |
| HelloClientModel.UpdateFieldsLog | src/HelloClient.php:135-157 | the field merge appends its field events and the picture events; it throws iff a picture was given and its ingestion failed |
| HelloClientModel.LoginUpdateLog | src/HelloClient.php:73-84 | the whole log of a login: registration, fields, picture, then the commit events only when it returns |
| HelloClientModel.PictureFailureAborts | src/HelloClient.php:80-83 | it throws iff a picture was given and ingestion failed; then nothing is saved, hooked or finalized |
| HelloClientModel.SuccessCommitsOnceInOrder | src/HelloClient.php:81-83 | a returning login ends with save, hook and finalize, each exactly once, in that order |
| HelloClientModel.FieldOrder | src/HelloClient.php:137-149 | the fields are set in the order name, mail, picture, each under its own condition |
| HelloClientModel.PictureTriggerIsIsset | src/HelloClient.php:148-150 | any picture claim that is present, even "" or "0", is fetched |
| HelloClientModel.FirstLoginAccount | src/HelloClient.php:73-84 | the unit test's first login: returns, and gives one new account with name, mail, init and picture 123, the mapping and the stored file |
| HelloClientModel.FirstLoginLog | src/HelloClient.php:73-84 | the same first login's exact event sequence: register, name, mail, fetch, write, file, picture, save, hook, finalize |
| HelloClientModel.CommitEventsShape | src/HelloClient.php:81-83 | the commit events hold save, hook and finalize once each and set no field |
| HelloClientModel.MergeFields | src/HelloClient.php:137-146 | the merge sets name then mail, each under its condition |
| HelloClientModel.PhoneAccepts | src/HelloClient.php:168-171 | an optional "+", 10 to 15 digits and an optional final newline are accepted |
| HelloClientModel.PhoneAcceptsOnly | src/HelloClient.php:168-171 | every accepted string has exactly that shape |
| HelloClientModel.PhoneExampleWithPlus | src/HelloClient.php:170 | "+14155552671" is accepted |
| HelloClientModel.PhoneExampleWithNewline | src/HelloClient.php:170 | "4155552671" followed by one newline is accepted |
| HelloClientModel.PhoneExamplesRejected | src/HelloClient.php:170 | nine digits, sixteen digits and two final newlines are rejected |
| Identity.DestinationInjective | src/HelloClient.php:215-218 | different `uniqid` suffixes give different destinations, so the replacing write never overwrites another login's picture |
| Identity.AttachPictureIn | src/HelloClient.php:184-201 | ingestion never adds or changes an account in storage or the auth map |
| Identity.AttachPictureContract | src/HelloClient.php:184-201 | returns iff every step produced a usable result; then the picture is the new file id, which names the written URI; otherwise the entity is unchanged and the message names the failing step; earlier files are kept and nothing is committed |
| Identity.AttachPictureEvents | src/HelloClient.php:184-225 | ingestion appends exactly fetch, write, file save and field set, as far as each step got |
| Identity.PictureEventsShape | src/HelloClient.php:184-201 | ingestion commits nothing and sets the picture field iff it succeeds |
| Drupal.FindByMail | src/HelloClient.php:141-142 | the first account, in id order, whose mail is the given one, or none when no account has it |
| Drupal.RegisterThenLoad | src/HelloClient.php:105-124 | after registering, loading the registered pair finds the new account and every other pair finds what it found before; the auth map stays bounded by the storage |
| Drupal.Store.Register | src/HelloClient.php:124 | appends the account, maps the pair to the new id and records the registration |
| Drupal.Store.SaveUser | src/HelloClient.php:81 | stores the account under its id and records the save |
| Drupal.Store.SaveNewUser | src/Service/HelloConfigFactory.php:116 | appends an account created in memory and records the save |
| Drupal.Store.SaveFile | src/HelloClient.php:187-190 | a file entity with the URI is stored under the id the storage assigns, if any |
| Drupal.Store.Record | src/HelloClient.php:82-83 | appends one effect to the log |
| Drupal.NoCommitsAppend | src/HelloClient.php:184-201 | sequences that commit nothing still commit nothing when joined |
| LegacyFactory.HelloConfigFactory.constructor | src/Service/HelloConfigFactory.php:53-59 | the factory works on the given stores |
| LegacyFactory.HelloConfigFactory.LoginCallback | src/Service/HelloConfigFactory.php:70-120 | returns its input unchanged, and the stores change as the email-keyed login says, including the query exception for a payload without email |
| LegacyFactory.HelloConfigFactory.LogoutCallback | src/Service/HelloConfigFactory.php:127-129 | exactly one session logout |
| LegacyFactory.HelloConfigFactory.CreateConfig | src/Service/HelloConfigFactory.php:137-153 | the record derived from the current `hellocoop.settings` and the request |
| LegacyFactory.HelloConfigFactory.SaveExternalImageAsFile | src/Service/HelloConfigFactory.php:164-176 | fetch and write as in the subject-keyed login; failures yield null |
| LegacyFactory.NoPayloadNoEffect | src/Service/HelloConfigFactory.php:71-79 | no payload: the stores are untouched and the callback returns; a payload without email: the stores are untouched and the mail lookup throws |
| LegacyFactory.ExistingAccountByMail | src/Service/HelloConfigFactory.php:78-95 | the first account holding the email is the one saved and finalized; its name becomes the payload name, even unset; its mail, init and status stay; no account is added |
| LegacyFactory.NewAccountByMail | src/Service/HelloConfigFactory.php:84-91 | no account holds the email: one active account with name and mail and no init is appended, saved and finalized; none is added when the login throws |
| LegacyFactory.PictureFailureRule | src/Service/HelloConfigFactory.php:78-113 | a `LogicException` iff the email is set, a non-empty picture was given and ingestion failed; an exception at all iff that or the email is unset; after any exception, accounts and auth map are unchanged and nothing is committed |
| LegacyFactory.NoPictureNoFetch | src/Service/HelloConfigFactory.php:98 | an unset, "" or "0" picture is never fetched, and the login then returns iff the email is set |
| LegacyFactory.PictureStored | src/Service/HelloConfigFactory.php:99-106 | after a successful ingestion, the saved account holds the new file id and the file is stored |
| LegacyFactory.MailNeverChanged | src/Service/HelloConfigFactory.php:92-95 | every existing account keeps its mail |
| LegacyFactory.LegacyLoginLog | src/Service/HelloConfigFactory.php:70-120 | the whole log: nothing without an email; otherwise name set, picture events, then save and finalize only when it returns |
| LegacyFactory.LegacyFieldOrder | src/Service/HelloConfigFactory.php:92-113 | the fields are set in the order name (existing account only), then picture (success only); mail never; none without an email |
| ConfigFactory.HelloConfigFactory.constructor | src/HelloConfigFactory.php:50-53 | the factory keeps the `hellocoop.settings` configuration object |
| ConfigFactory.HelloConfigFactory.LoginCallback | src/HelloConfigFactory.php:64-71 | returns its input; a forwarded payload runs exactly one loginUpdate; otherwise nothing changes |
| ConfigFactory.HelloConfigFactory.LogoutCallback | src/HelloConfigFactory.php:76-78 | exactly one logOut |
| ConfigFactory.HelloConfigFactory.CreateConfig | src/HelloConfigFactory.php:86-100 | the record derived from the settings as they are at the call and the request; client id and secret from the settings; the login route names "login" |
| ConfigFactory.SavedSettingsReachCreateConfig | src/HelloConfigFactory.php:50-53 | after the settings form saves, an existing factory builds the SDK configuration from the submitted app id, secret and route |
| ConfigFactory.ForwardsExactly | src/HelloConfigFactory.php:65 | forwarded iff the payload is present and its email is set and is neither "" nor "0" |
| Config.OpRoute | src/HelloConfigFactory.php:89-91 | each route is the API route, "?op=" and the operation |
| Config.OpRouteRoundTrip | src/HelloConfigFactory.php:89-91 | reading a route back against the API route yields its operation |
| Config.OpRoutesDistinct | src/HelloConfigFactory.php:89-91 | different operations get different routes |
| Config.HelloConfigFields | src/HelloConfigFactory.php:86-100 | all fields: routes name auth, login and logout and differ; the redirect URI is the scheme and host then the API route; host, client id, secret and callbacks come from the request, the settings and the factory; the SameSite-strict flag is off |
| Config.UnsetApiRoute | src/Service/HelloConfigFactory.php:141-147 | an unset API route gives "?op=auth", "?op=login" and "?op=logout", and the bare scheme and host as the redirect URI |
| Responses.HelloResponse.constructor | src/HelloResponse/HelloResponse.php:23-25 | a fresh response: no headers, status 200, empty body, no cookies |
| Responses.HelloResponse.SetHeader | src/HelloResponse/HelloResponse.php:30-35 | only that header changes, to the text or the joined list; under the key `set-cookie` the headers stay and the cookie jar becomes the one parsed cookie |
| Responses.HelloResponse.DeleteCookie | src/HelloResponse/HelloResponse.php:40-43 | the removal cookie replaces the jar's entry under that domain, path and name |
| Responses.HelloResponse.SetCookie | src/HelloResponse/HelloResponse.php:48-59 | the cookie, never raw and SameSite Lax, replaces the jar's entry under its key |
| Responses.HelloResponse.Redirect | src/HelloResponse/HelloResponse.php:64-68 | Location is the URL, the status is 302, and the held response itself is returned |
| Responses.HelloResponse.Render | src/HelloResponse/HelloResponse.php:73-77 | the body is the content, Content-Type is text/plain, and the content is returned |
| Responses.HelloResponse.Json | src/HelloResponse/HelloResponse.php:82-86 | the body is the encoded data, Content-Type is application/json, and the body is returned |
| Responses.CookieDefaults | src/HelloResponse/HelloResponse.php:40-59 | the default path "/" and domain "" make deleteCookie replace the cookie setCookie set |
| Responses.HeaderKey | src/HelloResponse/HelloResponse.php:34 | header names are keyed with ASCII capitals lowered and `_` read as `-`, character by character |
| Responses.HeaderKeySpellings | src/HelloResponse/HelloResponse.php:34-66 | `X_Foo` and `x-foo` name one header; `Set-Cookie` and `SET_COOKIE` reach the cookie jar; Location and Content-Type never do |
| Responses.HeaderKeyIdempotent | src/HelloResponse/HelloResponse.php:34 | normalising a stored name again changes nothing |
| Responses.HeaderListJoined | src/HelloResponse/HelloResponse.php:31-33 | a list is stored as its items in order with ", " between neighbours |
| Responses.WithHeaderOnly | src/HelloResponse/HelloResponse.php:34 | a header is found under any spelling with the same key and no other header changes |
| Responses.LastHeaderWins | src/HelloResponse/HelloResponse.php:34 | setting a header again keeps only the last value |
| Responses.RemovalReplaces | src/HelloResponse/HelloResponse.php:41-42 | the removal replaces the earlier cookie with an empty, expired, HTTP-only, not secure, Lax one, and adds no entry |
| Routing.AlterRoutes | src/Routing/RouteSubscriber.php:16-23 | the paths change as the alteration says |
| Routing.SetPathShape | src/Routing/RouteSubscriber.php:21 | the stored path starts with exactly one "/" and ends without white space; "" becomes "/" |
| Routing.SetPathKeepsRoutePaths | src/Routing/RouteSubscriber.php:21 | `setPath` keeps a path iff it already has that shape |
| Routing.SetPathIdempotent | src/Routing/RouteSubscriber.php:21 | storing a stored path again changes nothing |
| Routing.AlterationContract | src/Routing/RouteSubscriber.php:18-22 | the endpoint route, if present, gets the configured path as `setPath` stores it: "/api/hellocoop" when unset, a path of the usual shape as given, "/" for ""; no route is added, removed or otherwise changed |
| Routing.AlterationIdempotent | src/Routing/RouteSubscriber.php:16-23 | running the alteration twice is the same as once |
| Forms.SecretRotation | src/Form/HelloLoginConfigForm.php:177-197 | the new secret is 64 lowercase hex digits, decodes to the random bytes, is truthy, and the Ajax refresh then shows it |
| Forms.RefreshOnlyTouchesValue | src/Form/HelloLoginConfigForm.php:195-200 | the refresh changes only `#value`, and only to a truthy stored secret |
| Forms.ApiRouteDefaultRule | src/Form/HelloLoginConfigForm.php:48 | an unset API route shows "/api/hellocoop"; a set one, even "", is shown as it is |
| LoginForm.HelloLoginConfigForm.BuildForm | src/Form/HelloLoginConfigForm.php:32-120 | applies the client_id override, then shows the defaults and the quickstart link |
| LoginForm.HelloLoginConfigForm.SubmitForm | src/Form/HelloLoginConfigForm.php:162-171 | the settings become the submitted values with the provider hints filtered |
| LoginForm.HelloLoginConfigForm.UpdateSecretKey | src/Form/HelloLoginConfigForm.php:176-188 | the same new secret goes into the configuration and the form state; rebuild is set |
| LoginForm.HelloLoginConfigForm.UpdateSecretKeyAjaxCallback | src/Form/HelloLoginConfigForm.php:193-201 | the element is refreshed from the form state and returned |
| LoginForm.ClientIdRule | src/Form/HelloLoginConfigForm.php:36-42 | a non-empty client_id becomes app_id and nothing else changes; an absent, "" or "0" one changes nothing |
| LoginForm.SubmitContract | src/Form/HelloLoginConfigForm.php:162-168 | the three values are stored as given; the hints kept are exactly the checked ones; resubmitting the stored hints keeps them |
| LoginForm.DefaultsRule | src/Form/HelloLoginConfigForm.php:48-116 | unset API route and provider hints show "/api/hellocoop" and GitHub, Google, Twitter; set ones are shown as they are |
| LoginForm.LogoUrlRule | src/Form/HelloLoginConfigForm.php:134-146 | the logo URL is "" iff there is no logo; an external logo is kept; a local one is the host followed by its path |
| LoginForm.QuickstartRoundTrip | src/Form/HelloLoginConfigForm.php:148-156 | the link reads back as the encoded form route, logo URL and host, in that order |
| LoginForm.QuickstartSplits | src/Form/HelloLoginConfigForm.php:151-156 | the fixed prefix and parameter names separate three '&'-free values unambiguously |
| LoginForm.FirstAmp | src/Form/HelloLoginConfigForm.php:152 | the position of the first '&' (or the length) |
| CoopForm.HelloCoopConfigForm.BuildForm | src/Form/HelloCoopConfigForm.php:30-75 | shows the API route, defaulting to "/api/hellocoop", the app id and the secret |
| CoopForm.HelloCoopConfigForm.SubmitForm | src/Form/HelloCoopConfigForm.php:80-88 | the three keys take the submitted values |
| CoopForm.HelloCoopConfigForm.UpdateSecretKey | src/Form/HelloCoopConfigForm.php:93-104 | the same new secret goes into the configuration and the form state; rebuild is set |
| CoopForm.HelloCoopConfigForm.UpdateSecretKeyAjaxCallback | src/Form/HelloCoopConfigForm.php:109-116 | the element is refreshed from the form state and returned |
| CoopForm.SubmitContract | src/Form/HelloCoopConfigForm.php:80-85 | exactly api_route, app_id and secret are written; the provider hints stay; submitting again changes nothing |
| CoopForm.RotateAndShow | src/Form/HelloCoopConfigForm.php:93-116 | rotation then refresh: configuration, form state and element hold one new 64-digit secret |
| Php.Bin2Hex | src/Form/HelloLoginConfigForm.php:177 | two lowercase hex digits per byte |
| Php.Hex2BinOfBin2Hex | src/Form/HelloLoginConfigForm.php:177 | the bytes are recovered from their hex |
| Php.Bin2HexOfHex2Bin | src/Form/HelloLoginConfigForm.php:177 | every even-length lowercase hex string is some byte string's hex |
| Php.ArrayFilter | src/Form/HelloLoginConfigForm.php:167 | keeps exactly the truthy entries, never adds one |
| Php.ArrayFilterAppend | src/Form/HelloLoginConfigForm.php:167 | order and keys are kept |
| Php.ArrayFilterIdempotent | src/Form/HelloLoginConfigForm.php:167 | filtering twice is filtering once |
| Php.ImplodeLength | src/HelloResponse/HelloResponse.php:32 | the join holds every piece and one glue between neighbours |
| Php.ImplodeIsGlueEach | src/HelloResponse/HelloResponse.php:32 | the join is the first piece, then glue and piece for each later one |
| Php.ImplodeSnoc | src/HelloResponse/HelloResponse.php:32 | appending a piece appends glue and that piece |
| Php.CoalesceKeepsEmptyString | src/Routing/RouteSubscriber.php:18 | `??` keeps "" and replaces only null |

## Left out

- `loadUser` declares the return type `User`, but `ExternalAuth::load` returns false when there is no mapping. PHP would then raise a TypeError. The model treats the lookup as optional and follows the evident intent of the `if (!$user)` branch.
- HelloClientModel.HelloClient.LoginUpdate: requires the `sub` claim. The code indexes it unconditionally, and a missing `sub` would be a PHP notice followed by a lookup under null. ConfigFactory.HelloConfigFactory.LoginCallback passes the same requirement on for the payloads it forwards.
- Logging is not modelled, nor its arguments: the image-failure message. The code's outcome (null) is modelled.
- `json_encode` is a parameter. Its `false` result on unencodable data is not modelled.
- `urlencode`, `UrlHelper::isExternal`, `Url::fromRoute`, `theme_get_setting` and `getSchemeAndHttpHost` are parameters. Only the URL assembly around them is modelled.
- The render arrays of the forms are not modelled: titles, descriptions, attributes, the provider option list and the markup.
- `parent::buildForm` and `parent::submitForm` are not modelled, nor the status message the latter adds.
- Drupal's configuration `save` is folded into the settings assignment, because every write is one `set` chain ending in `save`.
- The Symfony response's default headers (`cache-control`, `date`) are not modelled. Neither are multi-valued headers, nor cookie-name validation and path normalisation in `Cookie`. Headers are keyed as the header bag keys them (capitals lowered, `_` read as `-`), and cookies by (domain, path, name).
- Responses.HelloResponse.SetHeader: `Cookie::fromString` is a parameter. Its parsing and its exception on a cookie without a name are not modelled. Two more rewrites by `ResponseHeaderBag::set` are not modelled either, so for these keys the contract is weaker than what Symfony stores:
  - under `cache-control` the bag stores its computed value, not the given text: `, private` is appended unless `public`, `private` or `s-maxage` is present, and `""` becomes `no-cache, private`;
  - setting `etag`, `last-modified` or `expires` recomputes `cache-control`.
- Routing.AlterRoutes: the inline defaults and requirements that `Route::setPath` extracts from `{…}` placeholders are not modelled. Only the trimming and the single leading '/' are modelled.
- HelloClientModel.HelloClient.LoginUpdate: a payload without `email` would make the mail lookup at src/HelloClient.php:141 throw `InvalidQueryException`, as in the email-keyed login. The model does not capture that exception on this path: it looks up an unset mail. The only caller, the login callback, forwards only payloads with a non-empty email.
- ConfigFactory.SavedSettingsReachCreateConfig: a single `EditableConfig` object stands for both the cached object the factory holds and the editable one the form saves through. Configuration overrides from `settings.php` and changes made without saving are not modelled.
- `loadByProperties(['mail' => …])` is modelled as exact equality in id order. Database collation, case folding and result order are not modelled.
- `User::create` and `File::create` are not modelled internally. Default values other than the ones given are not modelled, and neither is `enforceIsNew`. A created file entity only stores its URI under the id the storage assigns.
- `writeData` creating its own file entity is not modelled. Its result is reduced to the URI it returns.
- `userLoginFinalize` and `user_login_finalize` are reduced to a `LoginFinalized(uid)` event. Their session work, and the sub and provider arguments, are not modelled.
- The arguments of `invokeAll` are reduced to the hook name and the account id.
- An empty payload array in the email-keyed callback is represented as an absent payload. An array that is non-empty but lacks every claim is a payload whose claims are all unset.
- Concurrency is not modelled. There is none in this code, and racing logins are outside it.
- The unit tests use the older `hello_login` provider and hook names. The model uses the names in the source, and draws on the tests only for call order and counts.
- The controllers, page renderer, request wrapper, OpenID command handler, cache-clear subscriber, client factory and JavaScript are not part of this model. They are wiring around the SDK, or UI.

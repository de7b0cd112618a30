/**
 * `Drupal\hellocoop\Service\HelloConfigFactory`: the older, email-keyed
 * login callback. The account is the first one whose mail equals the payload
 * email, or a new active account that is only saved at the end; an existing
 * account's name is overwritten unconditionally and its mail never; a picture
 * is ingested when the payload's `picture` is non-empty, and a failed
 * ingestion throws before anything is saved or finalized. A payload without
 * email never gets that far: the mail lookup itself throws.
 */
module LegacyFactory {
  import opened Php
  import opened Drupal
  import opened Identity
  import opened Config

  /** The account `User::create` builds for an unknown email; no `init`. */
  function CreatedAccount(p: Payload): Account {
    Account(p.name, p.email, None, 1, None)
  }

  /** The account the callback works on before any picture: the first
      account with the payload email with its name replaced, or a new one. */
  function Resolved(s: Site, p: Payload): (Site, Account) {
    match FindByMail(s.users, p.email)
    case Some(uid) => (WithEvent(s, FieldSet(Name)), s.users[uid - 1].(name := p.name))
    case None => (s, CreatedAccount(p))
  }

  /** `loginCallback` over the stores: the new site and whether it returned
      or threw. A payload without email makes the mail lookup itself throw:
      `loadByProperties` turns the null into an empty `IN` list, which the
      query builder refuses before anything is read or written. */
  function LegacyLoginIn(s: Site, resp: WalletResponse, io: PictureIo): (Site, Outcome) {
    if resp.payload.None? then (s, Returned)
    else if resp.payload.value.email.None? then (s, InvalidQuery)
    else
      var p := resp.payload.value;
      var found := FindByMail(s.users, p.email);
      var (s1, user) := Resolved(s, p);
      var step := if !Empty(p.picture) then AttachPictureIn(s1, user, p.picture.value, io) else Step(s1, user, Returned);
      if step.outcome.LogicException? then (step.site, step.outcome)
      else if found.Some? then
        (WithEvent(SaveUserIn(step.site, found.value, step.user), LoginFinalized(found.value)), Returned)
      else
        (WithEvent(SaveNewUserIn(step.site, step.user), LoginFinalized(|s.users| + 1)), Returned)
  }

  class HelloConfigFactory {
    const store: Store

    constructor (store: Store)
      ensures this.store == store
    {
      this.store := store;
    }

    /** The response array is returned as it came in, whatever happened. */
    method LoginCallback(resp: WalletResponse, io: PictureIo) returns (r: WalletResponse, out: Outcome)
      modifies store
      ensures r == resp
      ensures (store.Snapshot(), out) == LegacyLoginIn(old(store.Snapshot()), resp, io)
    {
      r := resp;
      out := Returned;
      if resp.payload.None? {
        return;
      }
      var p := resp.payload.value;
      if p.email.None? {
        out := InvalidQuery;
        return;
      }
      var found := FindByMail(store.users, p.email);
      var user: Account;
      if found.None? {
        user := CreatedAccount(p);
      } else {
        user := store.users[found.value - 1].(name := p.name);
        store.Record(FieldSet(Name));
      }
      if !Empty(p.picture) {
        var image := SaveExternalImageAsFile(p.picture.value, io);
        if image.Some? && Truthy(image.value) {
          store.SaveFile(image.value, io.fileId);
          if io.fileId != 0 {
            user := user.(picture := Some(io.fileId));
            store.Record(FieldSet(UserPicture));
          } else {
            out := LogicException(FileIdFailure);
            return;
          }
        } else {
          out := LogicException(ImageFailure);
          return;
        }
      }
      var uid: nat;
      if found.None? {
        uid := store.SaveNewUser(user);
      } else {
        uid := found.value;
        store.SaveUser(uid, user);
      }
      store.Record(LoginFinalized(uid));
    }

    method LogoutCallback()
      modifies store
      ensures store.Snapshot() == WithEvent(old(store.Snapshot()), LoggedOut)
    {
      store.Record(LoggedOut);
    }

    /** Reads `hellocoop.settings` at the time of the call. */
    method CreateConfig(config: EditableConfig, req: Request) returns (c: HelloConfig)
      requires config.name == "hellocoop.settings"
      ensures c == HelloConfigFrom(config.settings, req)
    {
      c := HelloConfigFrom(config.settings, req);
    }

    method SaveExternalImageAsFile(url: string, io: PictureIo) returns (image: Option<string>)
      modifies store
      ensures (store.Snapshot(), image) == SaveImageIn(old(store.Snapshot()), url, io)
    {
      store.Record(HttpGet(url));
      if io.body.None? {
        return None;
      }
      store.Record(DataWritten(io.body.value, Destination(io.uniqueId), ExistsReplace));
      image := io.written;
    }
  }

  // ---------------------------------------------------------------------
  // Properties of loginCallback

  /** No payload: nothing happens at all. A payload without email throws
      from the mail lookup, and nothing happens either. */
  lemma NoPayloadNoEffect(s: Site, p: Payload, io: PictureIo)
    ensures LegacyLoginIn(s, WalletResponse(None), io) == (s, Returned)
    ensures p.email.None? ==> LegacyLoginIn(s, WalletResponse(Some(p)), io) == (s, InvalidQuery)
  {
  }

  /** An email some account holds: the first such account is the one saved
      and finalized; its name becomes the payload name whatever that is
      (even unset or empty), its mail, init and status stay, and no account
      is added. */
  lemma ExistingAccountByMail(s: Site, p: Payload, io: PictureIo, uid: nat)
    requires FindByMail(s.users, p.email) == Some(uid)
    ensures var (t, out) := LegacyLoginIn(s, WalletResponse(Some(p)), io);
      out.Returned? ==>
        && |t.users| == |s.users|
        && t.users[uid - 1].name == p.name
        && t.users[uid - 1].mail == s.users[uid - 1].mail
        && t.users[uid - 1].init == s.users[uid - 1].init
        && t.users[uid - 1].status == s.users[uid - 1].status
        && (forall i :: 0 <= i < |s.users| && i != uid - 1 ==> t.users[i] == s.users[i])
        && t.log[|t.log| - 2..] == [UserSaved(uid), LoginFinalized(uid)]
  {
    var (s1, user) := Resolved(s, p);
    if !Empty(p.picture) {
      AttachPictureContract(s1, user, p.picture.value, io);
    }
  }

  /** An email no account holds: one active account is appended, with the
      payload name and email and no init, and it is that account that is
      saved and finalized; nothing is added when the login throws. */
  lemma NewAccountByMail(s: Site, p: Payload, io: PictureIo)
    requires FindByMail(s.users, p.email).None?
    ensures var (t, out) := LegacyLoginIn(s, WalletResponse(Some(p)), io);
      var uid := |s.users| + 1;
      && (out.Returned? ==>
            && |t.users| == uid && t.users[..|s.users|] == s.users
            && t.users[uid - 1].name == p.name && t.users[uid - 1].mail == p.email
            && t.users[uid - 1].init.None? && t.users[uid - 1].status == 1
            && t.log[|t.log| - 2..] == [UserSaved(uid), LoginFinalized(uid)])
      && (!out.Returned? ==> t.users == s.users)
      && t.authmap == s.authmap
  {
    var (s1, user) := Resolved(s, p);
    if !Empty(p.picture) {
      AttachPictureContract(s1, user, p.picture.value, io);
      var step := AttachPictureIn(s1, user, p.picture.value, io);
      if step.outcome.Returned? {
        assert (step.site.users + [step.user])[..|s.users|] == s.users;
      }
    } else {
      assert (s.users + [user])[..|s.users|] == s.users;
    }
  }

  /** The callback throws a `LogicException` exactly when the email is set,
      a non-empty picture URL was given and its ingestion failed; it throws
      at all exactly when that happens or the email is unset. Having thrown,
      it has saved no account, mapped no subject, invoked no hook and
      finalized no login. */
  lemma PictureFailureRule(s: Site, p: Payload, io: PictureIo)
    ensures var (t, out) := LegacyLoginIn(s, WalletResponse(Some(p)), io);
      && (out.LogicException? <==> p.email.Some? && !Empty(p.picture) && !IngestSucceeds(io))
      && (!out.Returned? <==> p.email.None? || (!Empty(p.picture) && !IngestSucceeds(io)))
      && (!out.Returned? ==>
            && t.users == s.users && t.authmap == s.authmap
            && |t.log| >= |s.log| && NoCommits(t.log[|s.log|..]))
  {
    if p.email.None? {
      assert s.log[|s.log|..] == [];
    } else {
      PictureAbortWithEmail(s, p, io);
    }
  }

  lemma PictureAbortWithEmail(s: Site, p: Payload, io: PictureIo)
    requires p.email.Some?
    ensures var (t, out) := LegacyLoginIn(s, WalletResponse(Some(p)), io);
      && (out.LogicException? <==> !Empty(p.picture) && !IngestSucceeds(io))
      && !out.InvalidQuery?
      && (out.LogicException? ==>
            && t.users == s.users && t.authmap == s.authmap
            && |t.log| >= |s.log| && NoCommits(t.log[|s.log|..]))
  {
    var (s1, user) := Resolved(s, p);
    var (t, out) := LegacyLoginIn(s, WalletResponse(Some(p)), io);
    if !Empty(p.picture) {
      AttachPictureContract(s1, user, p.picture.value, io);
      if out.LogicException? {
        var step := AttachPictureIn(s1, user, p.picture.value, io);
        assert t.log[|s.log|..] == s1.log[|s.log|..] + step.site.log[|s1.log|..];
      }
    }
  }

  /** An empty or "0" picture URL is never fetched, and the callback then
      returns exactly when the email is set. */
  lemma NoPictureNoFetch(s: Site, p: Payload, io: PictureIo)
    requires Empty(p.picture)
    ensures var (t, out) := LegacyLoginIn(s, WalletResponse(Some(p)), io);
      (out.Returned? <==> p.email.Some?) && forall i :: |s.log| <= i < |t.log| ==> !t.log[i].HttpGet?
  {
    var (t, out) := LegacyLoginIn(s, WalletResponse(Some(p)), io);
    assert t.log[..|s.log|] == s.log;
  }

  /** After a successful ingestion the account the callback saved, found by
      mail or created, holds the new file, and the file store holds it. */
  lemma PictureStored(s: Site, p: Payload, io: PictureIo)
    requires !Empty(p.picture)
    ensures var (t, out) := LegacyLoginIn(s, WalletResponse(Some(p)), io);
      out.Returned? ==>
        var uid := if FindByMail(s.users, p.email).Some? then FindByMail(s.users, p.email).value else |s.users| + 1;
        && t.users[uid - 1].picture == Some(io.fileId)
        && io.fileId in t.files && t.files[io.fileId] == io.written.value
  {
    var (s1, user) := Resolved(s, p);
    AttachPictureContract(s1, user, p.picture.value, io);
  }

  /** The mail of every account that existed is the same afterwards. */
  lemma MailNeverChanged(s: Site, p: Payload, io: PictureIo)
    ensures var (t, out) := LegacyLoginIn(s, WalletResponse(Some(p)), io);
      forall i :: 0 <= i < |s.users| ==> i < |t.users| && t.users[i].mail == s.users[i].mail
  {
    var (s1, user) := Resolved(s, p);
    if !Empty(p.picture) {
      AttachPictureContract(s1, user, p.picture.value, io);
    }
  }

  function NameEvents(s: Site, p: Payload): seq<Event> {
    if FindByMail(s.users, p.email).Some? then [FieldSet(Name)] else []
  }

  function LegacyPictureEvents(p: Payload, io: PictureIo): seq<Event> {
    if !Empty(p.picture) then PictureEvents(p.picture.value, io) else []
  }

  /** The events of a login: none without an email; otherwise the name set
      (existing account only), the picture events, then the save and the
      finalization only when it returns. */
  lemma LegacyLoginLog(s: Site, p: Payload, io: PictureIo)
    ensures var (t, out) := LegacyLoginIn(s, WalletResponse(Some(p)), io);
      var uid := if FindByMail(s.users, p.email).Some? then FindByMail(s.users, p.email).value else |s.users| + 1;
      t.log == (if p.email.None? then s.log
                else s.log + NameEvents(s, p) + LegacyPictureEvents(p, io)
                     + (if out.Returned? then [UserSaved(uid), LoginFinalized(uid)] else []))
  {
    if p.email.None? {
      return;
    }
    var (s1, user) := Resolved(s, p);
    assert s1.log == s.log + NameEvents(s, p);
    if !Empty(p.picture) {
      AttachPictureEvents(s1, user, p.picture.value, io);
    }
  }

  /** Three pieces of which the last sets no field set the fields of the
      first two, in order. */
  lemma PieceFields(a: seq<Event>, b: seq<Event>, c: seq<Event>)
    requires FieldsSet(c) == []
    ensures FieldsSet(a + b + c) == FieldsSet(a) + FieldsSet(b)
  {
    FieldsSetAppend(a + b, c);
    FieldsSetAppend(a, b);
  }

  /** The fields set, in order: the name (existing account only), then the
      picture (successful ingestion only); the mail never; and none at all
      without an email. */
  lemma LegacyFieldOrder(s: Site, p: Payload, io: PictureIo)
    ensures var (t, out) := LegacyLoginIn(s, WalletResponse(Some(p)), io);
      FieldsSet(t.log) ==
        FieldsSet(s.log)
        + (if p.email.Some? && FindByMail(s.users, p.email).Some? then [Name] else [])
        + (if p.email.Some? && !Empty(p.picture) && IngestSucceeds(io) then [UserPicture] else [])
  {
    if p.email.None? {
      return;
    }
    var (t, out) := LegacyLoginIn(s, WalletResponse(Some(p)), io);
    var uid := if FindByMail(s.users, p.email).Some? then FindByMail(s.users, p.email).value else |s.users| + 1;
    LegacyLoginLog(s, p, io);
    var name := NameEvents(s, p);
    var picture := LegacyPictureEvents(p, io);
    var tail: seq<Event> := if out.Returned? then [UserSaved(uid), LoginFinalized(uid)] else [];
    assert |name| > 0 ==> name[1..] == [];
    assert |tail| > 0 ==> tail[1..][1..] == [];
    if !Empty(p.picture) {
      PictureEventsShape(p.picture.value, io);
    }
    var n: seq<Field> := if FindByMail(s.users, p.email).Some? then [Name] else [];
    var q: seq<Field> := if !Empty(p.picture) && IngestSucceeds(io) then [UserPicture] else [];
    assert FieldsSet(name) == n && FieldsSet(picture) == q;
    assert FieldsSet(tail) == [] by {
      if out.Returned? {
        assert FieldsSet(tail[1..][1..]) == [];
        assert FieldsSet(tail[1..]) == [];
      }
    }
    Assoc(s.log, name, picture);
    Assoc(s.log, name + picture, tail);
    FieldsSetAppend(s.log, name + picture + tail);
    PieceFields(name, picture, tail);
    Assoc(FieldsSet(s.log), n, q);
  }
}

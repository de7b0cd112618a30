/**
 * `HelloClient`: the subject-keyed login. The account mapped to
 * (sub, "hellocoop") in the external-auth map is loaded, or registered when
 * there is none; its name and mail are merged from the payload, a profile
 * picture is ingested when the payload names one, and only then is the
 * account saved, the login hook invoked and the login finalized.
 */
module HelloClientModel {
  import opened Php
  import opened Drupal
  import opened Identity

  const Provider: string := "hellocoop"
  const LoginHook: string := "hellocoop_user_login"
  const LogoutHook: string := "hellocoop_user_logout"

  // ---------------------------------------------------------------------
  // Specification of each step, over the stores as values

  /** The values `createUser` registers with. */
  function NewAccount(p: Payload): Account {
    Account(p.name, p.email, p.email, 1, None)
  }

  /** `loadUser`, then `createUser` when it found nothing: the site after
      the lookup or registration and the id of the account to update. */
  function ResolveIn(s: Site, sub: string, p: Payload): (r: (Site, nat))
    ensures IsUid(r.0.users, r.1)
  {
    match FindByAuthname(s, sub, Provider)
    case Some(uid) => (s, uid)
    case None => (RegisterIn(s, sub, Provider, NewAccount(p)), |s.users| + 1)
  }

  /** The mail guard: no account has the mail, or the first one that has it
      is the account being updated. */
  predicate MailGuard(users: seq<Account>, uid: nat, mail: Option<string>) {
    var owner := FindByMail(users, mail);
    owner.None? || owner.value == uid
  }

  /** `updateUserFields`: name, then mail, then picture. */
  function UpdateFieldsIn(s: Site, uid: nat, user: Account, p: Payload, io: PictureIo): (r: Step)
    ensures r.site.users == s.users && r.site.authmap == s.authmap
  {
    var named := !Empty(p.name);
    var s1 := if named then WithEvent(s, FieldSet(Name)) else s;
    var u1 := if named then user.(name := p.name) else user;
    var mailed := MailGuard(s.users, uid, p.email);
    var s2 := if mailed then WithEvent(s1, FieldSet(Mail)) else s1;
    var u2 := if mailed then u1.(mail := p.email) else u1;
    if p.picture.Some? then AttachPictureIn(s2, u2, p.picture.value, io) else Step(s2, u2, Returned)
  }

  /** Save the account, invoke the login hook, finalize the login. */
  function FinishIn(s: Site, uid: nat, user: Account): Site
    requires IsUid(s.users, uid)
  {
    WithEvent(WithEvent(SaveUserIn(s, uid, user), HookInvoked(LoginHook, Some(uid))), LoginFinalized(uid))
  }

  /** `loginUpdate`: the new site and whether it returned or threw. */
  function LoginUpdateIn(s: Site, p: Payload, io: PictureIo): (Site, Outcome)
    requires p.sub.Some?
  {
    var (s1, uid) := ResolveIn(s, p.sub.value, p);
    var step := UpdateFieldsIn(s1, uid, s1.users[uid - 1], p, io);
    if step.outcome.LogicException? then (step.site, step.outcome)
    else (FinishIn(step.site, uid, step.user), Returned)
  }

  /** `logOut`: the logout hook, then the session logout. */
  function LogOutIn(s: Site): Site {
    WithEvent(WithEvent(s, HookInvoked(LogoutHook, None)), LoggedOut)
  }

  // ---------------------------------------------------------------------
  // The service

  class HelloClient {
    /** User storage, external-auth map and file repository together. */
    const store: Store

    constructor (store: Store)
      ensures this.store == store
    {
      this.store := store;
    }

    method LoginUpdate(p: Payload, io: PictureIo) returns (out: Outcome)
      requires p.sub.Some?
      modifies store
      ensures (store.Snapshot(), out) == LoginUpdateIn(old(store.Snapshot()), p, io)
    {
      ghost var s0 := store.Snapshot();
      var uid := Resolve(p);
      ghost var s1 := store.Snapshot();
      var user := store.users[uid - 1];
      user, out := UpdateUserFields(uid, user, p, io);
      ghost var step := Step(store.Snapshot(), user, out);
      assert step == UpdateFieldsIn(s1, uid, s1.users[uid - 1], p, io);
      if out.LogicException? {
        return;
      }
      store.SaveUser(uid, user);
      store.Record(HookInvoked(LoginHook, Some(uid)));
      store.Record(LoginFinalized(uid));
      assert store.Snapshot() == FinishIn(step.site, uid, step.user);
    }

    /** The id to update: the mapped account, or a newly registered one. */
    method Resolve(p: Payload) returns (uid: nat)
      requires p.sub.Some?
      modifies store
      ensures (store.Snapshot(), uid) == ResolveIn(old(store.Snapshot()), p.sub.value, p)
    {
      var found := LoadUser(p);
      if found.Some? {
        uid := found.value;
      } else {
        uid := CreateUser(p);
      }
    }

    method LogOut()
      modifies store
      ensures store.Snapshot() == LogOutIn(old(store.Snapshot()))
    {
      store.Record(HookInvoked(LogoutHook, None));
      store.Record(LoggedOut);
    }

    method LoadUser(p: Payload) returns (uid: Option<nat>)
      requires p.sub.Some?
      ensures uid.Some? <==> (p.sub.value, Provider) in store.authmap
                             && IsUid(store.users, store.authmap[(p.sub.value, Provider)])
      ensures uid.Some? ==> uid.value == store.authmap[(p.sub.value, Provider)]
    {
      uid := FindByAuthname(store.Snapshot(), p.sub.value, Provider);
    }

    method CreateUser(p: Payload) returns (uid: nat)
      requires p.sub.Some?
      modifies store
      ensures uid == |old(store.users)| + 1
      ensures store.Snapshot() == RegisterIn(old(store.Snapshot()), p.sub.value, Provider, NewAccount(p))
    {
      uid := store.Register(p.sub.value, Provider, NewAccount(p));
    }

    method UpdateUserFields(uid: nat, user: Account, p: Payload, io: PictureIo) returns (updated: Account, out: Outcome)
      modifies store
      ensures Step(store.Snapshot(), updated, out) == UpdateFieldsIn(old(store.Snapshot()), uid, user, p, io)
    {
      updated := user;
      if !Empty(p.name) {
        updated := updated.(name := p.name);
        store.Record(FieldSet(Name));
      }
      var owner := FindByMail(store.users, p.email);
      if owner.None? || owner.value == uid {
        updated := updated.(mail := p.email);
        store.Record(FieldSet(Mail));
      }
      out := Returned;
      if p.picture.Some? {
        updated, out := UpdateUserPicture(updated, p.picture.value, io);
      }
    }

    method UpdateUserPicture(user: Account, url: string, io: PictureIo) returns (updated: Account, out: Outcome)
      modifies store
      ensures Step(store.Snapshot(), updated, out) == AttachPictureIn(old(store.Snapshot()), user, url, io)
    {
      updated := user;
      var image := SaveUserImageAsFile(url, io);
      if image.Some? && Truthy(image.value) {
        store.SaveFile(image.value, io.fileId);
        if io.fileId != 0 {
          updated := user.(picture := Some(io.fileId));
          store.Record(FieldSet(UserPicture));
          out := Returned;
        } else {
          out := LogicException(FileIdFailure);
        }
      } else {
        out := LogicException(ImageFailure);
      }
    }

    method SaveUserImageAsFile(url: string, io: PictureIo) returns (image: Option<string>)
      modifies store
      ensures (store.Snapshot(), image) == SaveImageIn(old(store.Snapshot()), url, io)
    {
      store.Record(HttpGet(url));
      if io.body.None? {
        return None;
      }
      store.Record(DataWritten(io.body.value, Destination(io.uniqueId), ExistsReplace));
      image := io.written;
    }
  }

  // ---------------------------------------------------------------------
  // Properties of loginUpdate

  /** A subject already mapped to an existing account: that account is the
      one updated; no account is registered and the auth map is unchanged. */
  lemma MappedSubjectUpdatesItsAccount(s: Site, p: Payload, io: PictureIo, uid: nat)
    requires p.sub.Some? && FindByAuthname(s, p.sub.value, Provider) == Some(uid)
    ensures var (t, out) := LoginUpdateIn(s, p, io);
      && |t.users| == |s.users| && t.authmap == s.authmap
      && (forall i :: 0 <= i < |s.users| && i != uid - 1 ==> t.users[i] == s.users[i])
      && (out.Returned? ==> t.log[|t.log| - 3] == UserSaved(uid))
  {
  }

  /** An unmapped subject: exactly one account is registered, under
      (sub, "hellocoop"), and it carries the payload's name and email as name,
      mail and init, and status 1. That holds even when the login then throws,
      because registering saves the account by itself. */
  lemma UnmappedSubjectRegistersOne(s: Site, p: Payload, io: PictureIo)
    requires p.sub.Some? && FindByAuthname(s, p.sub.value, Provider).None?
    ensures var (t, out) := LoginUpdateIn(s, p, io);
      var uid := |s.users| + 1;
      && |t.users| == uid && t.users[..|s.users|] == s.users
      && t.authmap == s.authmap[(p.sub.value, Provider) := uid]
      && t.users[uid - 1].name == p.name
      && t.users[uid - 1].mail == p.email && t.users[uid - 1].init == p.email
      && t.users[uid - 1].status == 1
  {
    var (s1, _) := ResolveIn(s, p.sub.value, p);
    assert s1.users == s.users + [NewAccount(p)];
  }

  /** The field merge of a login that returns: the name is overwritten only
      by a non-empty payload name, the mail only when the mail guard holds,
      the picture only when the payload names one; init, status and every
      other account are left as they were. */
  lemma FieldMergePolicy(s: Site, p: Payload, io: PictureIo)
    requires p.sub.Some?
    ensures var (s1, uid) := ResolveIn(s, p.sub.value, p);
      var before := s1.users[uid - 1];
      var (t, out) := LoginUpdateIn(s, p, io);
      out.Returned? ==>
        && |t.users| == |s1.users|
        && t.users[uid - 1].name == (if !Empty(p.name) then p.name else before.name)
        && t.users[uid - 1].mail == (if MailGuard(s1.users, uid, p.email) then p.email else before.mail)
        && t.users[uid - 1].picture == (if p.picture.Some? then Some(io.fileId) else before.picture)
        && t.users[uid - 1].init == before.init && t.users[uid - 1].status == before.status
        && (forall i :: 0 <= i < |t.users| && i != uid - 1 ==> t.users[i] == s1.users[i])
  {
    var (s1, uid) := ResolveIn(s, p.sub.value, p);
    var step := UpdateFieldsIn(s1, uid, s1.users[uid - 1], p, io);
    if p.picture.Some? {
      AttachPictureContract(step.site, step.user, p.picture.value, io);
    }
  }

  /** The mail guard holds exactly when no account has the mail or the first
      account with it is the one being updated. */
  lemma MailGuardMeaning(users: seq<Account>, uid: nat, mail: Option<string>)
    ensures MailGuard(users, uid, mail) <==>
      (forall i :: 0 <= i < |users| ==> users[i].mail != mail)
      || (IsUid(users, uid) && users[uid - 1].mail == mail
          && forall i :: 0 <= i < uid - 1 ==> users[i].mail != mail)
  {
    var owner := FindByMail(users, mail);
    if owner.Some? && owner.value != uid && IsUid(users, uid) && users[uid - 1].mail == mail {
      if owner.value < uid {
        assert users[owner.value - 1].mail == mail;
      }
    }
  }

  /** Another account's mail is never taken: when a login that returns
      changes the account's mail, no account at all held the payload email
      before. */
  lemma MailNeverStolen(s: Site, p: Payload, io: PictureIo)
    requires p.sub.Some?
    ensures var (s1, uid) := ResolveIn(s, p.sub.value, p);
      var (t, out) := LoginUpdateIn(s, p, io);
      out.Returned? && t.users[uid - 1].mail != s1.users[uid - 1].mail ==>
        forall i :: 0 <= i < |s1.users| ==> s1.users[i].mail != p.email
  {
    var (s1, uid) := ResolveIn(s, p.sub.value, p);
    FieldMergePolicy(s, p, io);
    MailGuardMeaning(s1.users, uid, p.email);
  }

  // The events a login appends, piece by piece.

  function RegEvents(s: Site, sub: string): seq<Event> {
    if FindByAuthname(s, sub, Provider).None? then [Registered(|s.users| + 1, sub, Provider)] else []
  }

  function MergeEvents(users: seq<Account>, uid: nat, p: Payload): seq<Event> {
    (if !Empty(p.name) then [FieldSet(Name)] else [])
    + (if MailGuard(users, uid, p.email) then [FieldSet(Mail)] else [])
  }

  function PictureEventsIf(p: Payload, io: PictureIo): seq<Event> {
    if p.picture.Some? then PictureEvents(p.picture.value, io) else []
  }

  function CommitEvents(uid: nat): seq<Event> {
    [UserSaved(uid), HookInvoked(LoginHook, Some(uid)), LoginFinalized(uid)]
  }

  lemma UpdateFieldsLog(s: Site, uid: nat, user: Account, p: Payload, io: PictureIo)
    ensures var r := UpdateFieldsIn(s, uid, user, p, io);
      && r.site.log == s.log + MergeEvents(s.users, uid, p) + PictureEventsIf(p, io)
      && (r.outcome.LogicException? <==> p.picture.Some? && !IngestSucceeds(io))
  {
    var named := !Empty(p.name);
    var s1 := if named then WithEvent(s, FieldSet(Name)) else s;
    var u1 := if named then user.(name := p.name) else user;
    var mailed := MailGuard(s.users, uid, p.email);
    var s2 := if mailed then WithEvent(s1, FieldSet(Mail)) else s1;
    var u2 := if mailed then u1.(mail := p.email) else u1;
    assert s2.log == s.log + MergeEvents(s.users, uid, p);
    if p.picture.Some? {
      AttachPictureEvents(s2, u2, p.picture.value, io);
      AttachPictureContract(s2, u2, p.picture.value, io);
    }
  }

  /** The whole log of a login: the registration (when the subject is
      unmapped), the merged fields, the picture ingestion, and the commit
      events only when it returns. */
  lemma LoginUpdateLog(s: Site, p: Payload, io: PictureIo)
    requires p.sub.Some?
    ensures var (s1, uid) := ResolveIn(s, p.sub.value, p);
      var (t, out) := LoginUpdateIn(s, p, io);
      && s1.log == s.log + RegEvents(s, p.sub.value)
      && t.log == s1.log + MergeEvents(s1.users, uid, p) + PictureEventsIf(p, io)
                  + (if out.Returned? then CommitEvents(uid) else [])
      && (out.LogicException? <==> p.picture.Some? && !IngestSucceeds(io))
      && (out.LogicException? ==> t.users == s1.users && t.authmap == s1.authmap)
  {
    var (s1, uid) := ResolveIn(s, p.sub.value, p);
    UpdateFieldsLog(s1, uid, s1.users[uid - 1], p, io);
  }

  lemma AddedNoCommits(s: Site, users: seq<Account>, uid: nat, p: Payload, io: PictureIo)
    requires p.sub.Some?
    ensures NoCommits(RegEvents(s, p.sub.value) + MergeEvents(users, uid, p) + PictureEventsIf(p, io))
  {
    if p.picture.Some? {
      PictureEventsShape(p.picture.value, io);
    }
    NoCommitsAppend(RegEvents(s, p.sub.value), MergeEvents(users, uid, p));
    NoCommitsAppend(RegEvents(s, p.sub.value) + MergeEvents(users, uid, p), PictureEventsIf(p, io));
  }

  /** A login throws exactly when the payload names a picture and its
      ingestion fails; it then saves no account, invokes no hook and
      finalizes nothing, and the accounts and auth map are those left by the
      lookup or registration. */
  lemma PictureFailureAborts(s: Site, p: Payload, io: PictureIo)
    requires p.sub.Some?
    ensures var (s1, uid) := ResolveIn(s, p.sub.value, p);
      var (t, out) := LoginUpdateIn(s, p, io);
      && (out.LogicException? <==> p.picture.Some? && !IngestSucceeds(io))
      && (out.LogicException? ==>
            && t.users == s1.users && t.authmap == s1.authmap
            && |t.log| >= |s.log| && NoCommits(t.log[|s.log|..])
            && Count(t.log[|s.log|..], UserSaved(uid)) == 0
            && Count(t.log[|s.log|..], LoginFinalized(uid)) == 0)
  {
    var (s1, uid) := ResolveIn(s, p.sub.value, p);
    var (t, out) := LoginUpdateIn(s, p, io);
    LoginUpdateLog(s, p, io);
    if out.LogicException? {
      AddedNoCommits(s, s1.users, uid, p, io);
      AbortedTail(s.log, s1.log, t.log, RegEvents(s, p.sub.value), MergeEvents(s1.users, uid, p),
                  PictureEventsIf(p, io), uid);
    }
  }

  lemma AbortedTail(log0: seq<Event>, log1: seq<Event>, log: seq<Event>,
                    reg: seq<Event>, merge: seq<Event>, picture: seq<Event>, uid: nat)
    requires log1 == log0 + reg && log == log1 + merge + picture + []
    requires NoCommits(reg + merge + picture)
    ensures |log| >= |log0| && NoCommits(log[|log0|..])
    ensures Count(log[|log0|..], UserSaved(uid)) == 0 && Count(log[|log0|..], LoginFinalized(uid)) == 0
  {
    var added := reg + merge + picture;
    assert log[|log0|..] == added;
    CountWithoutCommits(added, UserSaved(uid));
    CountWithoutCommits(added, LoginFinalized(uid));
  }

  lemma CommitEventsShape(uid: nat)
    ensures Count(CommitEvents(uid), UserSaved(uid)) == 1
    ensures Count(CommitEvents(uid), HookInvoked(LoginHook, Some(uid))) == 1
    ensures Count(CommitEvents(uid), LoginFinalized(uid)) == 1
    ensures FieldsSet(CommitEvents(uid)) == []
  {
    var a, b, c := UserSaved(uid), HookInvoked(LoginHook, Some(uid)), LoginFinalized(uid);
    assert [c][1..] == [];
    assert [b, c][1..] == [c];
    assert CommitEvents(uid)[1..] == [b, c];
    assert FieldsSet([c]) == [];
    assert FieldsSet([b, c]) == [];
    assert Count([c], c) == 1 && Count([c], a) == 0 && Count([c], b) == 0;
    assert Count([b, c], c) == 1 && Count([b, c], a) == 0 && Count([b, c], b) == 1;
  }

  lemma CommitsOnceAfter(log0: seq<Event>, log1: seq<Event>, log: seq<Event>,
                         reg: seq<Event>, merge: seq<Event>, picture: seq<Event>, uid: nat)
    requires log1 == log0 + reg && log == log1 + merge + picture + CommitEvents(uid)
    requires NoCommits(reg + merge + picture)
    ensures var added := log[|log0|..];
      && |added| >= 3
      && added[|added| - 3..] == CommitEvents(uid)
      && Count(added, UserSaved(uid)) == 1
      && Count(added, HookInvoked(LoginHook, Some(uid))) == 1
      && Count(added, LoginFinalized(uid)) == 1
  {
    var mid := reg + merge + picture;
    var tail := CommitEvents(uid);
    assert log[|log0|..] == mid + tail;
    CountAppend(mid, tail, UserSaved(uid));
    CountAppend(mid, tail, HookInvoked(LoginHook, Some(uid)));
    CountAppend(mid, tail, LoginFinalized(uid));
    CountWithoutCommits(mid, UserSaved(uid));
    CountWithoutCommits(mid, HookInvoked(LoginHook, Some(uid)));
    CountWithoutCommits(mid, LoginFinalized(uid));
    CommitEventsShape(uid);
  }

  /** A login that returns ends with the save, the login hook and the
      finalization, in that order, each exactly once. */
  lemma SuccessCommitsOnceInOrder(s: Site, p: Payload, io: PictureIo)
    requires p.sub.Some?
    ensures var (s1, uid) := ResolveIn(s, p.sub.value, p);
      var (t, out) := LoginUpdateIn(s, p, io);
      out.Returned? ==>
        var added := t.log[|s.log|..];
        && |added| >= 3
        && added[|added| - 3..] == [UserSaved(uid), HookInvoked(LoginHook, Some(uid)), LoginFinalized(uid)]
        && Count(added, UserSaved(uid)) == 1
        && Count(added, HookInvoked(LoginHook, Some(uid))) == 1
        && Count(added, LoginFinalized(uid)) == 1
  {
    var (s1, uid) := ResolveIn(s, p.sub.value, p);
    var (t, out) := LoginUpdateIn(s, p, io);
    LoginUpdateLog(s, p, io);
    if out.Returned? {
      AddedNoCommits(s, s1.users, uid, p, io);
      CommitsOnceAfter(s.log, s1.log, t.log, RegEvents(s, p.sub.value), MergeEvents(s1.users, uid, p),
                       PictureEventsIf(p, io), uid);
    }
  }

  lemma MergeFields(users: seq<Account>, uid: nat, p: Payload)
    ensures FieldsSet(MergeEvents(users, uid, p)) ==
      (if !Empty(p.name) then [Name] else []) + (if MailGuard(users, uid, p.email) then [Mail] else [])
  {
    var name: seq<Event> := if !Empty(p.name) then [FieldSet(Name)] else [];
    var mail: seq<Event> := if MailGuard(users, uid, p.email) then [FieldSet(Mail)] else [];
    FieldsSetAppend(name, mail);
    assert |name| > 0 ==> name[1..] == [];
    assert |mail| > 0 ==> mail[1..] == [];
  }

  lemma FieldsBetween(reg: seq<Event>, merge: seq<Event>, picture: seq<Event>, tail: seq<Event>)
    requires FieldsSet(reg) == [] && FieldsSet(tail) == []
    ensures FieldsSet(reg + merge + picture + tail) == FieldsSet(merge) + FieldsSet(picture)
  {
    FieldsSetAppend(reg, merge);
    FieldsSetAppend(reg + merge, picture);
    FieldsSetAppend(reg + merge + picture, tail);
  }

  /** The fields are set in the order name, mail, picture, each at most once
      and each only under its own condition. */
  lemma FieldOrder(s: Site, p: Payload, io: PictureIo)
    requires p.sub.Some?
    ensures var (s1, uid) := ResolveIn(s, p.sub.value, p);
      var (t, out) := LoginUpdateIn(s, p, io);
      FieldsSet(t.log) == FieldsSet(s.log)
        + (if !Empty(p.name) then [Name] else [])
        + (if MailGuard(s1.users, uid, p.email) then [Mail] else [])
        + (if p.picture.Some? && IngestSucceeds(io) then [UserPicture] else [])
  {
    var (s1, uid) := ResolveIn(s, p.sub.value, p);
    var (t, out) := LoginUpdateIn(s, p, io);
    LoginUpdateLog(s, p, io);
    var reg := RegEvents(s, p.sub.value);
    var tail := if out.Returned? then CommitEvents(uid) else [];
    assert |reg| > 0 ==> reg[1..] == [];
    CommitEventsShape(uid);
    var merge := MergeEvents(s1.users, uid, p);
    var picture := PictureEventsIf(p, io);
    var added := reg + merge + picture + tail;
    Assoc(s.log, reg, merge);
    Assoc(s.log, reg + merge, picture);
    Assoc(s.log, reg + merge + picture, tail);
    FieldsSetAppend(s.log, added);
    FieldsBetween(reg, merge, picture, tail);
    MergeFields(s1.users, uid, p);
    var n: seq<Field> := if !Empty(p.name) then [Name] else [];
    var m: seq<Field> := if MailGuard(s1.users, uid, p.email) then [Mail] else [];
    var q: seq<Field> := if p.picture.Some? && IngestSucceeds(io) then [UserPicture] else [];
    if p.picture.Some? {
      PictureEventsShape(p.picture.value, io);
    }
    assert FieldsSet(picture) == q;
    var fl := FieldsSet(s.log);
    assert FieldsSet(t.log) == fl + FieldsSet(added);
    assert FieldsSet(added) == n + m + q;
    Assoc(fl, n, m);
    Assoc(fl, n + m, q);
  }

  /** The registration scenario of the unit test: an unmapped subject whose
      email no account holds, with a picture that is fetched, written and
      saved as file 123. The login returns, maps the subject to one new
      account holding the payload's name and email (as name, mail and init)
      and the new picture, and stores the file. */
  lemma FirstLoginAccount(s: Site, sub: string, email: string, name: string, url: string, io: PictureIo)
    requires FindByAuthname(s, sub, Provider).None?
    requires FindByMail(s.users, Some(email)).None?
    requires Truthy(name) && io.body.Some? && io.written.Some? && Truthy(io.written.value) && io.fileId == 123
    ensures var (t, out) := LoginUpdateIn(s, Payload(Some(sub), Some(email), Some(name), Some(url)), io);
      && out == Returned
      && t.users == s.users + [Account(Some(name), Some(email), Some(email), 1, Some(123))]
      && t.authmap == s.authmap[(sub, Provider) := |s.users| + 1]
      && t.files == s.files[123 := io.written.value]
  {
    var p := Payload(Some(sub), Some(email), Some(name), Some(url));
    var (s1, uid) := ResolveIn(s, sub, p);
    assert s1.users == s.users + [NewAccount(p)];
    assert FindByMail(s1.users, Some(email)) == Some(uid) by {
      FindByMailAppend(s.users, NewAccount(p), Some(email));
    }
    assert MailGuard(s1.users, uid, p.email);
    var (t, out) := LoginUpdateIn(s, p, io);
    LoginUpdateLog(s, p, io);
    FieldMergePolicy(s, p, io);
    assert t.users[uid - 1] == Account(Some(name), Some(email), Some(email), 1, Some(123));
    var step := UpdateFieldsIn(s1, uid, s1.users[uid - 1], p, io);
    var mailed := WithEvent(WithEvent(s1, FieldSet(Name)), FieldSet(Mail));
    AttachPictureContract(mailed, step.user, url, io);
    assert step.site.files == s.files[123 := io.written.value];
  }

  /** The same scenario's events, in order: the registration, the name and
      mail fields, the picture fetch, write, file save and field, then the
      save, the login hook and the finalization. */
  lemma FirstLoginLog(s: Site, sub: string, email: string, name: string, url: string, io: PictureIo)
    requires FindByAuthname(s, sub, Provider).None?
    requires FindByMail(s.users, Some(email)).None?
    requires Truthy(name) && io.body.Some? && io.written.Some? && Truthy(io.written.value) && io.fileId == 123
    ensures var uid := |s.users| + 1;
      LoginUpdateIn(s, Payload(Some(sub), Some(email), Some(name), Some(url)), io).0.log == s.log + [
        Registered(uid, sub, Provider),
        FieldSet(Name), FieldSet(Mail),
        HttpGet(url),
        DataWritten(io.body.value, "public://user_pictures/" + "profile_" + io.uniqueId + ".jpg", ExistsReplace),
        FileSaved(io.written.value), FieldSet(UserPicture),
        UserSaved(uid), HookInvoked(LoginHook, Some(uid)), LoginFinalized(uid)]
  {
    var p := Payload(Some(sub), Some(email), Some(name), Some(url));
    var uid := |s.users| + 1;
    FirstLoginPieces(s, sub, email, name, url, io);
    SuccessfulPictureEvents(url, io);
    var reg := [Registered(uid, sub, Provider)];
    var merge := [FieldSet(Name), FieldSet(Mail)];
    var picture := PictureEvents(url, io);
    var tail := CommitEvents(uid);
    Assoc(s.log, reg, merge);
    Assoc(s.log, reg + merge, picture);
    Assoc(s.log, reg + merge + picture, tail);
  }

  /** The first login's log, as its four pieces. */
  lemma FirstLoginPieces(s: Site, sub: string, email: string, name: string, url: string, io: PictureIo)
    requires FindByAuthname(s, sub, Provider).None?
    requires FindByMail(s.users, Some(email)).None?
    requires Truthy(name) && IngestSucceeds(io)
    ensures var uid := |s.users| + 1;
      LoginUpdateIn(s, Payload(Some(sub), Some(email), Some(name), Some(url)), io).0.log
        == s.log + [Registered(uid, sub, Provider)] + [FieldSet(Name), FieldSet(Mail)]
           + PictureEvents(url, io) + CommitEvents(uid)
  {
    var p := Payload(Some(sub), Some(email), Some(name), Some(url));
    var (s1, uid) := ResolveIn(s, sub, p);
    assert s1.users == s.users + [NewAccount(p)];
    assert FindByMail(s1.users, Some(email)) == Some(uid) by {
      FindByMailAppend(s.users, NewAccount(p), Some(email));
    }
    assert MailGuard(s1.users, uid, p.email);
    LoginUpdateLog(s, p, io);
    var reg := RegEvents(s, sub);
    var merge := MergeEvents(s1.users, uid, p);
    var picture := PictureEventsIf(p, io);
    var tail := CommitEvents(uid);
    assert reg == [Registered(uid, sub, Provider)];
    assert merge == [FieldSet(Name), FieldSet(Mail)];
    Assoc(s.log, reg, merge);
    Assoc(s.log, reg + merge, picture);
  }

  /** The picture trigger is `isset`: any picture claim that is present is
      fetched, even "" or "0", and whatever the fetch then does. */
  lemma PictureTriggerIsIsset(s: Site, p: Payload, io: PictureIo)
    requires p.sub.Some? && p.picture.Some?
    ensures var (t, out) := LoginUpdateIn(s, p, io);
      |t.log| >= |s.log| && HttpGet(p.picture.value) in t.log[|s.log|..]
  {
    var (s1, uid) := ResolveIn(s, p.sub.value, p);
    var (t, out) := LoginUpdateIn(s, p, io);
    LoginUpdateLog(s, p, io);
    var reg := RegEvents(s, p.sub.value);
    var merge := MergeEvents(s1.users, uid, p);
    var picture := PictureEventsIf(p, io);
    var tail := if out.Returned? then CommitEvents(uid) else [];
    Assoc(s.log, reg, merge);
    Assoc(s.log, reg + merge, picture);
    Assoc(s.log, reg + merge + picture, tail);
    var added := reg + merge + picture + tail;
    assert t.log[|s.log|..] == added;
    assert added[|reg| + |merge|] == HttpGet(p.picture.value);
  }

  lemma SuccessfulPictureEvents(url: string, io: PictureIo)
    requires IngestSucceeds(io)
    ensures PictureEvents(url, io) == [HttpGet(url),
      DataWritten(io.body.value, "public://user_pictures/" + "profile_" + io.uniqueId + ".jpg", ExistsReplace),
      FileSaved(io.written.value), FieldSet(UserPicture)]
  {
  }

  lemma {:induction false} FindByMailAppend(users: seq<Account>, a: Account, mail: Option<string>)
    requires FindByMail(users, mail).None? && a.mail == mail
    ensures FindByMail(users + [a], mail) == Some(|users| + 1)
  {
    if users != [] {
      assert (users + [a])[1..] == users[1..] + [a];
      FindByMailAppend(users[1..], a, mail);
    }
  }

  /** As written, the mail guard does not protect a first login: registering
      copies the payload email into the new account before the guard runs,
      so an email another account already holds ends up on two accounts. */
  lemma RegistrationDuplicatesMail(s: Site, p: Payload, io: PictureIo, other: nat)
    requires p.sub.Some? && FindByAuthname(s, p.sub.value, Provider).None?
    requires IsUid(s.users, other) && s.users[other - 1].mail == p.email
    ensures var (t, out) := LoginUpdateIn(s, p, io);
      t.users[other - 1].mail == p.email && t.users[|s.users|].mail == p.email && other - 1 != |s.users|
  {
    UnmappedSubjectRegistersOne(s, p, io);
  }

  // ---------------------------------------------------------------------
  // Phone numbers: /^\+?[0-9]{10,15}$/

  predicate AllDigits(s: string) {
    forall i :: 0 <= i < |s| ==> '0' <= s[i] <= '9'
  }

  /** PCRE's `$` without the D modifier also matches before one final "\n". */
  function DropFinalNewline(s: string): string {
    if |s| > 0 && s[|s| - 1] == '\n' then s[..|s| - 1] else s
  }

  function DropPlus(s: string): string {
    if |s| > 0 && s[0] == '+' then s[1..] else s
  }

  /** The digit run the pattern's `[0-9]{10,15}` must cover. */
  function PhoneDigits(phone: string): string {
    DropPlus(DropFinalNewline(phone))
  }

  predicate IsValidPhoneNumber(phone: string) {
    var d := PhoneDigits(phone);
    10 <= |d| <= 15 && AllDigits(d)
  }

  /** The strings the pattern describes: an optional "+", the digits, and
      an optional final newline. */
  function PhoneText(plus: bool, digits: string, newline: bool): string {
    (if plus then "+" else "") + digits + (if newline then "\n" else "")
  }

  lemma PhoneAccepts(plus: bool, digits: string, newline: bool)
    requires 10 <= |digits| <= 15 && AllDigits(digits)
    ensures IsValidPhoneNumber(PhoneText(plus, digits, newline))
  {
    var t := PhoneText(plus, digits, newline);
    var u := (if plus then "+" else "") + digits;
    assert DropFinalNewline(t) == u by {
      if newline {
        assert t[..|t| - 1] == u;
      } else if |t| > 0 {
        assert t[|t| - 1] == digits[|digits| - 1];
      }
    }
    if plus {
      assert u[1..] == digits;
    } else {
      assert u == digits && u[0] != '+';
    }
  }

  lemma PhoneAcceptsOnly(phone: string)
    requires IsValidPhoneNumber(phone)
    ensures var t := DropFinalNewline(phone);
      phone == PhoneText(t[0] == '+', PhoneDigits(phone), phone[|phone| - 1] == '\n')
  {
    var t := DropFinalNewline(phone);
    var d := PhoneDigits(phone);
    assert d[|d| - 1] != '\n';
    if phone[|phone| - 1] == '\n' {
      assert phone == t + "\n";
    } else {
      assert t == phone;
    }
    if t[0] == '+' {
      assert t == "+" + d;
    } else {
      assert t == d;
    }
  }

  /** Accepted: a leading "+". */
  lemma PhoneExampleWithPlus()
    ensures IsValidPhoneNumber("+14155552671")
  {
    var phone := "+14155552671";
    assert phone[|phone| - 1] == '1';
    assert DropFinalNewline(phone) == phone;
    assert PhoneDigits(phone) == phone[1..];
    assert |phone[1..]| == 11;
    var d := PhoneDigits(phone);
    assert forall i :: 0 <= i < |d| ==> d[i] == phone[i + 1];
  }

  /** Accepted: a single trailing newline. */
  lemma PhoneExampleWithNewline()
    ensures IsValidPhoneNumber("4155552671\n")
  {
    var d := "4155552671";
    assert AllDigits(d) by {
      assert d == ['4', '1', '5', '5', '5', '5', '2', '6', '7', '1'];
    }
    PhoneAccepts(false, d, true);
    assert PhoneText(false, d, true) == "4155552671\n";
  }

  /** Rejected: too few or too many digits, a second trailing newline. */
  lemma PhoneExamplesRejected()
    ensures !IsValidPhoneNumber("415555267")
    ensures !IsValidPhoneNumber("1234567890123456")
    ensures !IsValidPhoneNumber("+4155552671\n\n")
  {
    var twice := "+4155552671\n\n";
    assert DropFinalNewline(twice) == "+4155552671\n";
    assert PhoneDigits(twice) == "4155552671\n";
    assert "4155552671\n"[10] == '\n';
  }
}

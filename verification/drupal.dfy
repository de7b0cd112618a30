/**
 * The Drupal-side stores that the login code reads and writes, as plain
 * values: the user entity storage, the external-auth map, the file entities,
 * and a log of the observable side effects (field sets, saves, hooks,
 * session changes) in the order they happen. The class `Store` holds the
 * live state; the functions below say what each store primitive does to it.
 */
module Drupal {
  import opened Php

  /** The user entity fields the module touches. */
  datatype Account = Account(
    name: Option<string>,
    mail: Option<string>,
    init: Option<string>,
    status: int,
    picture: Option<nat>)

  datatype Field = Name | Mail | UserPicture

  /** `FileSystemInterface::EXISTS_*`: what a write does to an existing file. */
  datatype ExistsMode = ExistsRename | ExistsReplace | ExistsError

  datatype Event =
    | Registered(uid: nat, authname: string, provider: string)
    | FieldSet(field: Field)
    | HttpGet(url: string)
    | DataWritten(data: string, destination: string, mode: ExistsMode)
    | FileSaved(uri: string)
    | UserSaved(uid: nat)
    | HookInvoked(hook: string, user: Option<nat>)
    | LoginFinalized(uid: nat)
    | LoggedOut

  /** User ids start at 1: the account with id `uid` is `users[uid - 1]`.
      `authmap` maps (authname, provider) to a user id; `files` maps a file
      entity id to its URI. */
  datatype Site = Site(
    users: seq<Account>,
    authmap: map<(string, string), nat>,
    files: map<nat, string>,
    log: seq<Event>)

  predicate IsUid(users: seq<Account>, uid: nat) {
    1 <= uid <= |users|
  }

  // ---------------------------------------------------------------------
  // Lookups

  /** `loadByProperties(['mail' => $mail])` followed by `reset()`: the id of
      the first account (in id order) whose mail is `mail`, if any. */
  function FindByMail(users: seq<Account>, mail: Option<string>): (r: Option<nat>)
    ensures r.Some? ==> IsUid(users, r.value) && users[r.value - 1].mail == mail
    ensures r.Some? ==> forall i :: 0 <= i < r.value - 1 ==> users[i].mail != mail
    ensures r.None? ==> forall i :: 0 <= i < |users| ==> users[i].mail != mail
  {
    if users == [] then None
    else if users[0].mail == mail then Some(1)
    else match FindByMail(users[1..], mail)
      case None => None
      case Some(uid) => Some(uid + 1)
  }

  /** `ExternalAuth::load($authname, $provider)`: the account mapped to the
      pair, when the mapping exists and its account still exists. */
  function FindByAuthname(s: Site, authname: string, provider: string): (r: Option<nat>)
    ensures r.Some? <==> (authname, provider) in s.authmap && IsUid(s.users, s.authmap[(authname, provider)])
    ensures r.Some? ==> r.value == s.authmap[(authname, provider)]
  {
    var key := (authname, provider);
    if key in s.authmap && IsUid(s.users, s.authmap[key]) then Some(s.authmap[key]) else None
  }

  // ---------------------------------------------------------------------
  // Store primitives as state transformers

  function WithEvent(s: Site, e: Event): Site {
    s.(log := s.log + [e])
  }

  /** `ExternalAuth::register`: saves a new account and maps the pair to it. */
  function RegisterIn(s: Site, authname: string, provider: string, a: Account): Site {
    var uid := |s.users| + 1;
    s.(users := s.users + [a],
       authmap := s.authmap[(authname, provider) := uid],
       log := s.log + [Registered(uid, authname, provider)])
  }

  /** Every mapped id names an account the storage has or had: the auth map
      never points past the last account. */
  predicate AuthmapBounded(s: Site) {
    forall k :: k in s.authmap ==> s.authmap[k] <= |s.users|
  }

  /** After registering, `ExternalAuth::load` with the registered pair finds
      the new account, and every other pair finds what it found before;
      registering keeps the auth map bounded. */
  lemma RegisterThenLoad(s: Site, authname: string, provider: string, a: Account,
                         otherName: string, otherProvider: string)
    requires AuthmapBounded(s)
    ensures var t := RegisterIn(s, authname, provider, a);
      && AuthmapBounded(t)
      && FindByAuthname(t, authname, provider) == Some(|s.users| + 1)
      && ((otherName, otherProvider) != (authname, provider) ==>
            FindByAuthname(t, otherName, otherProvider) == FindByAuthname(s, otherName, otherProvider))
  {
    var t := RegisterIn(s, authname, provider, a);
    var k := (otherName, otherProvider);
    if k != (authname, provider) && k in s.authmap {
      assert t.authmap[k] == s.authmap[k] <= |s.users|;
    }
  }

  /** Regrouping joined sequences. */
  lemma Assoc<T>(a: seq<T>, b: seq<T>, c: seq<T>)
    ensures a + (b + c) == a + b + c
  {
  }

  /** `$user->save()` for an account that exists. */
  function SaveUserIn(s: Site, uid: nat, a: Account): Site
    requires IsUid(s.users, uid)
  {
    s.(users := s.users[uid - 1 := a], log := s.log + [UserSaved(uid)])
  }

  /** `$user->save()` for an account created with `User::create`. */
  function SaveNewUserIn(s: Site, a: Account): Site {
    s.(users := s.users + [a], log := s.log + [UserSaved(|s.users| + 1)])
  }

  /** `File::create(['uri' => $uri])->save()`: the storage hands out `fid`,
      0 when it assigned none. */
  function SaveFileIn(s: Site, uri: string, fid: nat): Site {
    s.(files := if fid != 0 then s.files[fid := uri] else s.files,
       log := s.log + [FileSaved(uri)])
  }

  // ---------------------------------------------------------------------
  // Reading the log

  function Count(log: seq<Event>, e: Event): nat {
    if log == [] then 0 else (if log[0] == e then 1 else 0) + Count(log[1..], e)
  }

  lemma {:induction false} CountAppend(a: seq<Event>, b: seq<Event>, e: Event)
    ensures Count(a + b, e) == Count(a, e) + Count(b, e)
  {
    if a == [] {
      assert a + b == b;
    } else {
      assert (a + b)[0] == a[0] && (a + b)[1..] == a[1..] + b;
      CountAppend(a[1..], b, e);
    }
  }

  /** The fields set on the user entity, in the order they were set. */
  function FieldsSet(log: seq<Event>): seq<Field> {
    if log == [] then []
    else (if log[0].FieldSet? then [log[0].field] else []) + FieldsSet(log[1..])
  }

  lemma {:induction false} FieldsSetAppend(a: seq<Event>, b: seq<Event>)
    ensures FieldsSet(a + b) == FieldsSet(a) + FieldsSet(b)
  {
    if a == [] {
      assert a + b == b;
    } else {
      assert (a + b)[0] == a[0] && (a + b)[1..] == a[1..] + b;
      FieldsSetAppend(a[1..], b);
    }
  }

  /** The events that make a login visible: saving an account, the login
      hook and session finalization. */
  predicate Commits(e: Event) {
    e.UserSaved? || e.HookInvoked? || e.LoginFinalized?
  }

  predicate NoCommits(log: seq<Event>) {
    forall i :: 0 <= i < |log| ==> !Commits(log[i])
  }

  lemma NoCommitsAppend(a: seq<Event>, b: seq<Event>)
    requires NoCommits(a) && NoCommits(b)
    ensures NoCommits(a + b)
  {
    forall i | 0 <= i < |a + b| ensures !Commits((a + b)[i]) {
      if i >= |a| {
        assert (a + b)[i] == b[i - |a|];
      }
    }
  }

  lemma {:induction false} CountWithoutCommits(log: seq<Event>, e: Event)
    requires NoCommits(log) && Commits(e)
    ensures Count(log, e) == 0
  {
    if log != [] {
      CountWithoutCommits(log[1..], e);
    }
  }

  // ---------------------------------------------------------------------
  // The live state

  class Store {
    var users: seq<Account>
    var authmap: map<(string, string), nat>
    var files: map<nat, string>
    var log: seq<Event>

    function Snapshot(): Site
      reads this
    {
      Site(users, authmap, files, log)
    }

    constructor (initial: Site)
      ensures Snapshot() == initial
    {
      users, authmap, files, log := initial.users, initial.authmap, initial.files, initial.log;
    }

    method Record(e: Event)
      modifies this
      ensures Snapshot() == WithEvent(old(Snapshot()), e)
    {
      log := log + [e];
    }

    method Register(authname: string, provider: string, a: Account) returns (uid: nat)
      modifies this
      ensures uid == |old(users)| + 1
      ensures Snapshot() == RegisterIn(old(Snapshot()), authname, provider, a)
    {
      uid := |users| + 1;
      users := users + [a];
      authmap := authmap[(authname, provider) := uid];
      log := log + [Registered(uid, authname, provider)];
    }

    method SaveUser(uid: nat, a: Account)
      requires IsUid(users, uid)
      modifies this
      ensures Snapshot() == SaveUserIn(old(Snapshot()), uid, a)
    {
      users := users[uid - 1 := a];
      log := log + [UserSaved(uid)];
    }

    method SaveNewUser(a: Account) returns (uid: nat)
      modifies this
      ensures uid == |old(users)| + 1
      ensures Snapshot() == SaveNewUserIn(old(Snapshot()), a)
    {
      uid := |users| + 1;
      users := users + [a];
      log := log + [UserSaved(uid)];
    }

    method SaveFile(uri: string, fid: nat)
      modifies this
      ensures Snapshot() == SaveFileIn(old(Snapshot()), uri, fid)
    {
      if fid != 0 {
        files := files[fid := uri];
      }
      log := log + [FileSaved(uri)];
    }
  }
}

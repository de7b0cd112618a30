/**
 * What both login variants share: the identity payload handed over by the
 * SDK, the callback's response array, the outcome of a login (normal return
 * or an exception), and the profile-picture ingestion that both
 * variants perform the same way: fetch the remote image, write it under
 * `public://user_pictures/`, create a file entity for it, and only then link
 * the file id from the account.
 */
module Identity {
  import opened Php
  import opened Drupal

  /** The claims the login code reads; None is an unset or null claim. */
  datatype Payload = Payload(
    sub: Option<string>,
    email: Option<string>,
    name: Option<string>,
    picture: Option<string>)

  /** The array the SDK passes to the login callback. `payload` is None when
      the entry is unset, null or an empty array (`empty()` is true). */
  datatype WalletResponse = WalletResponse(payload: Option<Payload>)

  /** How a login call ends: it returns, it throws a `LogicException` with
      one of the two messages below, or the entity query it runs throws an
      `InvalidQueryException` (a `mail IN ()` condition on a null email). */
  datatype Outcome = Returned | LogicException(message: string) | InvalidQuery

  const ImageFailure: string := "Failed to save external image as file."
  const FileIdFailure: string := "Failed to save file entity or retrieve its ID."

  /** What the outside world answers during one picture ingestion:
      `body` is the HTTP response body (None when the request throws),
      `written` the URI of the file `writeData` returns (None when it throws),
      `uniqueId` what `uniqid('profile_', TRUE)` adds after its prefix,
      `fileId` the id the file storage assigns on save (0 for none). */
  datatype PictureIo = PictureIo(
    body: Option<string>,
    written: Option<string>,
    uniqueId: string,
    fileId: nat)

  /** Where the fetched image is written. */
  function Destination(uniqueId: string): (d: string)
    ensures d == "public://user_pictures/" + "profile_" + uniqueId + ".jpg"
  {
    "public://user_pictures/" + ("profile_" + uniqueId) + ".jpg"
  }

  /** Different `uniqid` suffixes give different destinations: the write
      with `EXISTS_REPLACE` only ever replaces a file of its own name. */
  lemma DestinationInjective(a: string, b: string)
    ensures Destination(a) == Destination(b) <==> a == b
  {
    var n := |"public://user_pictures/" + "profile_"|;
    if Destination(a) == Destination(b) {
      assert |a| == |b|;
      assert Destination(a)[n..n + |a|] == a;
      assert Destination(b)[n..n + |b|] == b;
    }
  }

  /** Fetch the image and write it; any exception on the way becomes null. */
  function SaveImageIn(s: Site, url: string, io: PictureIo): (Site, Option<string>) {
    var s1 := WithEvent(s, HttpGet(url));
    match io.body
    case None => (s1, None)
    case Some(data) => (WithEvent(s1, DataWritten(data, Destination(io.uniqueId), ExistsReplace)), io.written)
  }

  /** The state of an ingestion: the site, the in-memory user entity, and
      whether it returned or threw. */
  datatype Step = Step(site: Site, user: Account, outcome: Outcome)

  /** Link a picture only after its bytes are written and its file entity
      has an id; otherwise throw. */
  function AttachPictureIn(s: Site, user: Account, url: string, io: PictureIo): (r: Step)
    ensures r.site.users == s.users && r.site.authmap == s.authmap
  {
    var (s1, image) := SaveImageIn(s, url, io);
    if image.Some? && Truthy(image.value) then
      var s2 := SaveFileIn(s1, image.value, io.fileId);
      if io.fileId != 0 then
        Step(WithEvent(s2, FieldSet(UserPicture)), user.(picture := Some(io.fileId)), Returned)
      else
        Step(s2, user, LogicException(FileIdFailure))
    else
      Step(s1, user, LogicException(ImageFailure))
  }

  /** The answers under which an ingestion succeeds. */
  predicate IngestSucceeds(io: PictureIo) {
    io.body.Some? && io.written.Some? && Truthy(io.written.value) && io.fileId != 0
  }

  /** The ingestion contract: it returns exactly when every step produced a
      usable result; it then links a file id that names a saved file entity
      with the written URI, and otherwise leaves the entity as it was and
      names the step that failed. Accounts, the auth map and every earlier
      file are left alone, and nothing is saved, hooked or finalized. */
  lemma AttachPictureContract(s: Site, user: Account, url: string, io: PictureIo)
    ensures var r := AttachPictureIn(s, user, url, io);
      && (r.outcome.Returned? <==> IngestSucceeds(io))
      && (r.outcome.Returned? ==>
            r.user == user.(picture := Some(io.fileId))
            && io.fileId in r.site.files && r.site.files[io.fileId] == io.written.value)
      && (r.outcome.LogicException? ==> r.user == user)
      && (r.outcome.LogicException? ==>
            r.outcome.message ==
              if io.body.Some? && io.written.Some? && Truthy(io.written.value)
              then FileIdFailure else ImageFailure)
      && r.site.users == s.users && r.site.authmap == s.authmap
      && (forall f :: f in s.files && f != io.fileId ==> f in r.site.files && r.site.files[f] == s.files[f])
      && |r.site.log| >= |s.log| && r.site.log[..|s.log|] == s.log
      && NoCommits(r.site.log[|s.log|..])
  {
  }

  /** The side effects of an ingestion in order: the request, the write to a
      fresh `profile_` path with replace, the file entity, and the field. */
  function PictureEvents(url: string, io: PictureIo): seq<Event> {
    [HttpGet(url)]
    + (if io.body.Some? then [DataWritten(io.body.value, Destination(io.uniqueId), ExistsReplace)] else [])
    + (if io.body.Some? && io.written.Some? && Truthy(io.written.value) then [FileSaved(io.written.value)] else [])
    + (if IngestSucceeds(io) then [FieldSet(UserPicture)] else [])
  }

  lemma AttachPictureEvents(s: Site, user: Account, url: string, io: PictureIo)
    ensures AttachPictureIn(s, user, url, io).site.log == s.log + PictureEvents(url, io)
  {
  }

  /** Ingestion sets the picture field at most once, last, and never saves
      an account, invokes a hook or finalizes a login. */
  lemma PictureEventsShape(url: string, io: PictureIo)
    ensures NoCommits(PictureEvents(url, io))
    ensures FieldsSet(PictureEvents(url, io)) == if IngestSucceeds(io) then [UserPicture] else []
  {
    var get: seq<Event> := [HttpGet(url)];
    var write: seq<Event> := if io.body.Some? then [DataWritten(io.body.value, Destination(io.uniqueId), ExistsReplace)] else [];
    var file: seq<Event> := if io.body.Some? && io.written.Some? && Truthy(io.written.value) then [FileSaved(io.written.value)] else [];
    var field: seq<Event> := if IngestSucceeds(io) then [FieldSet(UserPicture)] else [];
    assert PictureEvents(url, io) == get + write + file + field;
    FieldsSetAppend(get, write);
    FieldsSetAppend(get + write, file);
    FieldsSetAppend(get + write + file, field);
    assert get[1..] == [];
    assert |write| > 0 ==> write[1..] == [];
    assert |file| > 0 ==> file[1..] == [];
    assert |field| > 0 ==> field[1..] == [];
  }
}

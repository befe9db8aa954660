/**
 * `saveGeneratedImage` (functions/src/index.ts, lines 128-167): the object
 * path and the signed-URL expiry, and the four writes in their order, none of
 * them undone when a later one fails.
 */
module Persistence {
  import opened Wrappers
  import opened Errors
  import opened Effects

  const STORED_CONTENT_TYPE: string := "image/jpeg"
  const CACHE_CONTROL: string := "public,max-age=3600"

  /** Seven days, in milliseconds: `1000 * 60 * 60 * 24 * 7`. */
  const SIGNED_URL_LIFETIME_MS: int := 1000 * 60 * 60 * 24 * 7

  const USERS_PREFIX: string := "users/"
  const GENERATED_INFIX: string := "/generated/"
  const IMAGE_SUFFIX: string := ".jpg"

  /** `users/<uid>/generated/<resultId>.jpg`. */
  function ResultPath(uid: string, resultId: string): (p: string)
    ensures USERS_PREFIX + uid + "/" <= p
    ensures |p| == |uid| + |resultId| + 21 && p[|p| - 4..] == IMAGE_SUFFIX
  {
    USERS_PREFIX + uid + GENERATED_INFIX + resultId + IMAGE_SUFFIX
  }

  /** The signed URL's expiry: a week after `now`. */
  function SignedUrlExpiry(now: int): (t: int)
    ensures t == now + 604800000
  {
    now + SIGNED_URL_LIFETIME_MS
  }

  /** The result id read back out of a user's object path. */
  function ResultIdIn(uid: string, path: string): string {
    var from := |USERS_PREFIX + uid + GENERATED_INFIX|;
    if from + |IMAGE_SUFFIX| <= |path| then path[from..|path| - |IMAGE_SUFFIX|] else ""
  }

  /** A user's object path gives back the result id it was built from. */
  lemma ResultPathRoundTrip(uid: string, resultId: string)
    ensures ResultIdIn(uid, ResultPath(uid, resultId)) == resultId
  {
  }

  /** For one user, distinct result ids give distinct objects: two
      invocations are never deduplicated onto the same path. */
  lemma ResultPathInjective(uid: string, a: string, b: string)
    requires a != b
    ensures ResultPath(uid, a) != ResultPath(uid, b)
  {
    ResultPathRoundTrip(uid, a);
    ResultPathRoundTrip(uid, b);
  }

  /** Result ids are `uuidv4()` strings, which never contain `/`. For such
      ids the path determines both its user and its result id, whatever the
      uids contain: the id is the text between the last `/` and `.jpg`. */
  lemma ResultPathDeterminesOwner(uid1: string, id1: string, uid2: string, id2: string)
    requires forall i :: 0 <= i < |id1| ==> id1[i] != '/'
    requires forall i :: 0 <= i < |id2| ==> id2[i] != '/'
    requires ResultPath(uid1, id1) == ResultPath(uid2, id2)
    ensures uid1 == uid2 && id1 == id2
  {
    var p := ResultPath(uid1, id1);
    assert p == USERS_PREFIX + uid1 + GENERATED_INFIX + id1 + IMAGE_SUFFIX;
    assert p == USERS_PREFIX + uid2 + GENERATED_INFIX + id2 + IMAGE_SUFFIX;
    var n := |p|;
    assert forall i :: 0 <= i < |id1| ==> p[n - 4 - |id1| + i] == id1[i];
    assert forall i :: 0 <= i < |id2| ==> p[n - 4 - |id2| + i] == id2[i];
    assert p[n - 5 - |id1|] == '/';
    assert p[n - 5 - |id2|] == '/';
    // A longer id would hold the infix's final `/` at position n - 5 - |shorter id|.
    assert |id1| == |id2|;
    assert |uid1| == |uid2|;
    assert uid1 == p[6..6 + |uid1|] == uid2;
    ResultPathRoundTrip(uid1, id1);
  }

  /** The four writes of a save that gets as far as the result record. */
  function Writes(uid: string, image: string, prompt: string, resultId: string, now: int, signedUrl: string): (w: seq<Effect>)
    ensures |w| == 4 && w[0].SaveObject? && w[0].path == ResultPath(uid, resultId)
    ensures forall i :: 0 <= i < |w| ==> w[i].Stage() == Persisting
  {
    [SaveObject(ResultPath(uid, resultId), image, STORED_CONTENT_TYPE, CACHE_CONTROL),
     SignReadUrl(ResultPath(uid, resultId), SignedUrlExpiry(now)),
     MergeUserDoc(uid),
     SetResultDoc(uid, resultId, signedUrl, ResultPath(uid, resultId), prompt)]
  }

  /** How many of the four writes are issued: each one up to and including
      the first that throws. */
  function WritesAttempted(save: Call<()>, sign: Call<string>, mergeUser: Call<()>): (n: nat)
    ensures 1 <= n <= 4
    ensures n == 4 <==> save.Returned? && sign.Returned? && mergeUser.Returned?
  {
    if save.Threw? then 1 else if sign.Threw? then 2 else if mergeUser.Threw? then 3 else 4
  }

  /** The stored result's public reference and its id. */
  datatype Saved = Saved(imageUrl: string, resultId: string)

  /** `saveGeneratedImage`, with the fresh id and the clock as inputs: store the
      image under the user's namespace, sign a read URL for a week, merge the
      user's last-activity stamp, then write the result record. Each write is
      attempted only after the previous one returned; a failure leaves the
      earlier writes in place. */
  method SaveGeneratedImage(uid: string, image: string, prompt: string, resultId: string, now: int,
                            save: Call<()>, sign: Call<string>, mergeUser: Call<()>, writeResult: Call<()>)
    returns (r: Result<Saved, Thrown>, log: seq<Effect>)
    ensures log == Writes(uid, image, prompt, resultId, now, if sign.Returned? then sign.value else "")
                     [..WritesAttempted(save, sign, mergeUser)]
    ensures save.Threw? ==> r == Failure(Untyped(save.reason))
    ensures save.Returned? && sign.Threw? ==> r == Failure(Untyped(sign.reason))
    ensures save.Returned? && sign.Returned? && mergeUser.Threw? ==> r == Failure(Untyped(mergeUser.reason))
    ensures save.Returned? && sign.Returned? && mergeUser.Returned?
            ==> r == if writeResult.Threw? then Failure(Untyped(writeResult.reason))
                     else Success(Saved(sign.value, resultId))
    ensures r.Success? <==> save.Returned? && sign.Returned? && mergeUser.Returned? && writeResult.Returned?
    ensures r.Failure? ==> r.error.Untyped?
    ensures forall i :: 0 <= i < |log| ==> log[i].Stage() == Persisting
  {
    var path := ResultPath(uid, resultId);
    log := [SaveObject(path, image, STORED_CONTENT_TYPE, CACHE_CONTROL)];
    if save.Threw? {
      return Failure(Untyped(save.reason)), log;
    }
    log := log + [SignReadUrl(path, SignedUrlExpiry(now))];
    if sign.Threw? {
      return Failure(Untyped(sign.reason)), log;
    }
    var signedUrl := sign.value;
    log := log + [MergeUserDoc(uid)];
    if mergeUser.Threw? {
      return Failure(Untyped(mergeUser.reason)), log;
    }
    log := log + [SetResultDoc(uid, resultId, signedUrl, path, prompt)];
    if writeResult.Threw? {
      return Failure(Untyped(writeResult.reason)), log;
    }
    r := Success(Saved(signedUrl, resultId));
  }
}

/**
 * The descriptor cache and the match verdict of src/utils/compareFaces.js.
 *
 * The face detector (image loading, resizing, face-api detection) and
 * face-api's euclideanDistance are parameters; a detector call that throws
 * is the `DetectorError` result. The two descriptor fetches that the source
 * runs together are run one after the other, the stored image first: the
 * upload never touches the cache, so only the choice of which failure is
 * reported when both throw depends on this order.
 */
module CompareFaces {
  import opened Wrappers

  type UserId = string
  type ImageRef = string
  type Descriptor = seq<real>

  /** What one run of the detector on an image gives. */
  datatype Detection =
    | Detected(descriptor: Descriptor)
    | NoFace
    | DetectorError(reason: string)

  /** A result, or the exception that escaped. */
  datatype Outcome<T> = Done(value: T) | Thrown(reason: string)

  const MatchThreshold: real := 0.6
  const NoFaceMessage: string := "Could not detect face in one or both images"

  /** The object compareFaces resolves to. */
  datatype Comparison =
    | NotDetected(message: string)
    | Compared(matched: bool, distance: real, threshold: real)
  {
    /** The `matched` field, which is false in the no-face object. */
    predicate Matched() { Compared? && matched }
  }

  /** The cache is consulted and written only for a present, truthy key: a non-empty id. */
  predicate IsCacheKey(key: Option<UserId>) {
    key.Some? && key.value != ""
  }

  /** Only truthy keys are ever stored. */
  ghost predicate KeysTruthy(cache: map<UserId, Descriptor>) {
    forall k :: k in cache ==> k != ""
  }

  /** The descriptor a detection gives to the caller: null when no face is found. */
  function FromDetection(detection: Detection): (r: Outcome<Option<Descriptor>>)
    ensures r.Thrown? <==> detection.DetectorError?
    ensures detection.DetectorError? ==> r == Thrown(detection.reason)
    ensures r.Done? ==> (r.value.Some? <==> detection.Detected?)
    ensures detection.Detected? ==> r == Done(Some(detection.descriptor))
  {
    match detection
    case Detected(d) => Done(Some(d))
    case NoFace => Done(None)
    case DetectorError(e) => Thrown(e)
  }

  datatype Fetched = Fetched(descriptor: Outcome<Option<Descriptor>>, cache: map<UserId, Descriptor>)

  /** getFaceDescriptor as a function: its result and the cache after it. */
  function Fetch(cache: map<UserId, Descriptor>, image: ImageRef, cacheKey: Option<UserId>,
                 detect: ImageRef -> Detection): (r: Fetched)
    // a hit returns the cached descriptor and leaves the cache as it was
    ensures IsCacheKey(cacheKey) && cacheKey.value in cache ==>
      r == Fetched(Done(Some(cache[cacheKey.value])), cache)
    // a miss reports the detector's result
    ensures !(IsCacheKey(cacheKey) && cacheKey.value in cache) ==> r.descriptor == FromDetection(detect(image))
    // without a key the cache is untouched; with one, at most that key changes, to the returned descriptor
    ensures !IsCacheKey(cacheKey) ==> r.cache == cache
    ensures r.cache == cache || (IsCacheKey(cacheKey) && r.descriptor.Done? && r.descriptor.value.Some?
                                 && r.cache == cache[cacheKey.value := r.descriptor.value.value])
    // a miss under a truthy key that detects a face stores exactly key |-> descriptor
    ensures IsCacheKey(cacheKey) && cacheKey.value !in cache && detect(image).Detected? ==>
      r.cache == cache[cacheKey.value := detect(image).descriptor]
    // a thrown or empty detection stores nothing
    ensures (r.descriptor.Thrown? || r.descriptor.value.None?) ==> r.cache == cache
    ensures KeysTruthy(cache) ==> KeysTruthy(r.cache)
  {
    if IsCacheKey(cacheKey) && cacheKey.value in cache then
      Fetched(Done(Some(cache[cacheKey.value])), cache)
    else
      match detect(image)
      case DetectorError(e) => Fetched(Thrown(e), cache)
      case NoFace => Fetched(Done(None), cache)
      case Detected(d) => Fetched(Done(Some(d)), if IsCacheKey(cacheKey) then cache[cacheKey.value := d] else cache)
  }

  /** The verdict on the two descriptors. */
  function Verdict(stored: Option<Descriptor>, uploaded: Option<Descriptor>,
                   euclidean: (Descriptor, Descriptor) -> real): (c: Comparison)
    ensures stored.None? || uploaded.None? <==> c == NotDetected(NoFaceMessage)
    ensures stored.Some? && uploaded.Some? ==>
      && c.Compared?
      && c.distance == euclidean(stored.value, uploaded.value)
      && c.threshold == MatchThreshold
    ensures c.Matched() <==> stored.Some? && uploaded.Some? && euclidean(stored.value, uploaded.value) <= MatchThreshold
  {
    if stored.None? || uploaded.None? then NotDetected(NoFaceMessage)
    else
      var distance := euclidean(stored.value, uploaded.value);
      Compared(distance <= MatchThreshold, distance, MatchThreshold)
  }

  datatype Run = Run(result: Outcome<Comparison>, cache: map<UserId, Descriptor>)

  /** compareFaces as a function: the stored image is fetched under `userId`, the upload under no key. */
  function Compare(cache: map<UserId, Descriptor>, cloudinaryUrl: ImageRef, uploadedImagePath: ImageRef,
                   userId: Option<UserId>, detect: ImageRef -> Detection,
                   euclidean: (Descriptor, Descriptor) -> real): (r: Run)
    // the uploaded image is never cached: only the stored fetch changes the cache
    ensures r.cache == Fetch(cache, cloudinaryUrl, userId, detect).cache
    // an exception from either fetch is rethrown
    ensures r.result.Thrown? <==>
      Fetch(cache, cloudinaryUrl, userId, detect).descriptor.Thrown? || detect(uploadedImagePath).DetectorError?
    // the error rethrown is the failing fetch's own: the stored fetch's first, else the upload's
    ensures Fetch(cache, cloudinaryUrl, userId, detect).descriptor.Thrown? ==>
      r.result == Thrown(Fetch(cache, cloudinaryUrl, userId, detect).descriptor.reason)
    ensures Fetch(cache, cloudinaryUrl, userId, detect).descriptor.Done? && detect(uploadedImagePath).DetectorError? ==>
      r.result == Thrown(detect(uploadedImagePath).reason)
    ensures r.result.Done? ==>
      r.result.value == Verdict(Fetch(cache, cloudinaryUrl, userId, detect).descriptor.value,
                                FromDetection(detect(uploadedImagePath)).value, euclidean)
  {
    var stored := Fetch(cache, cloudinaryUrl, userId, detect);
    var uploaded := Fetch(stored.cache, uploadedImagePath, None, detect);
    match stored.descriptor
    case Thrown(e) => Run(Thrown(e), stored.cache)
    case Done(s) =>
      match uploaded.descriptor
      case Thrown(e) => Run(Thrown(e), uploaded.cache)
      case Done(u) => Run(Done(Verdict(s, u, euclidean)), uploaded.cache)
  }

  /** The module-level Map of the source. */
  class DescriptorCache {
    var entries: map<UserId, Descriptor>

    /**
     * Kept by every method: an empty id is falsy in the source, so it never
     * reaches `set` and is never a key.
     */
    ghost predicate Valid()
      reads this
    {
      KeysTruthy(entries)
    }

    constructor ()
      ensures Valid() && entries == map[]
    {
      entries := map[];
    }

    method GetFaceDescriptor(image: ImageRef, cacheKey: Option<UserId>, detect: ImageRef -> Detection)
      returns (descriptor: Outcome<Option<Descriptor>>)
      requires Valid()
      modifies this
      ensures Valid()
      ensures Fetched(descriptor, entries) == Fetch(old(entries), image, cacheKey, detect)
    {
      if IsCacheKey(cacheKey) && cacheKey.value in entries {
        return Done(Some(entries[cacheKey.value]));
      }
      var detection := detect(image);
      match detection {
        case DetectorError(e) =>
          return Thrown(e);
        case NoFace =>
          return Done(None);
        case Detected(d) =>
          if IsCacheKey(cacheKey) {
            entries := entries[cacheKey.value := d];
          }
          return Done(Some(d));
      }
    }

    /** The hourly timer callback: an empty cache is left alone, any other is cleared. */
    method ClearIfNotEmpty()
      requires Valid()
      modifies this
      ensures Valid() && entries == map[]
    {
      if |entries| > 0 {
        entries := map[];
      }
    }
  }

  method CompareFaces(cache: DescriptorCache, cloudinaryUrl: ImageRef, uploadedImagePath: ImageRef,
                      userId: Option<UserId>, detect: ImageRef -> Detection,
                      euclidean: (Descriptor, Descriptor) -> real)
    returns (result: Outcome<Comparison>)
    requires cache.Valid()
    modifies cache
    ensures cache.Valid()
    ensures Run(result, cache.entries) ==
      Compare(old(cache.entries), cloudinaryUrl, uploadedImagePath, userId, detect, euclidean)
  {
    var stored := cache.GetFaceDescriptor(cloudinaryUrl, userId, detect);
    var uploaded := cache.GetFaceDescriptor(uploadedImagePath, None, detect);
    match stored {
      case Thrown(e) =>
        return Thrown(e);
      case Done(s) =>
        match uploaded {
          case Thrown(e) =>
            return Thrown(e);
          case Done(u) =>
            return Done(Verdict(s, u, euclidean));
        }
    }
  }

  // ---------------------------------------------------------------------
  // Properties across calls
  // ---------------------------------------------------------------------

  /** A cache hit does not depend on the image or the detector: detection is not run. */
  lemma CacheHitSkipsDetection(cache: map<UserId, Descriptor>, key: Option<UserId>,
                               image1: ImageRef, detect1: ImageRef -> Detection,
                               image2: ImageRef, detect2: ImageRef -> Detection)
    requires IsCacheKey(key) && key.value in cache
    ensures Fetch(cache, image1, key, detect1) == Fetch(cache, image2, key, detect2)
  {
  }

  /** Without a key the cache is not even read: any two caches give the same descriptor. */
  lemma NoKeyIgnoresCache(cache1: map<UserId, Descriptor>, cache2: map<UserId, Descriptor>,
                          image: ImageRef, key: Option<UserId>, detect: ImageRef -> Detection)
    requires !IsCacheKey(key)
    ensures Fetch(cache1, image, key, detect).descriptor == Fetch(cache2, image, key, detect).descriptor
  {
  }

  /**
   * After a comparison that got as far as a distance, the user's stored
   * descriptor is cached and is the one that was compared; the next fetch
   * for that user, of any image and with any detector, returns it.
   */
  lemma StoredDescriptorReused(cache: map<UserId, Descriptor>, cloudinaryUrl: ImageRef, uploadedImagePath: ImageRef,
                               userId: Option<UserId>, detect: ImageRef -> Detection,
                               euclidean: (Descriptor, Descriptor) -> real,
                               nextImage: ImageRef, nextDetect: ImageRef -> Detection)
    requires IsCacheKey(userId)
    requires Compare(cache, cloudinaryUrl, uploadedImagePath, userId, detect, euclidean).result.Done?
    requires Compare(cache, cloudinaryUrl, uploadedImagePath, userId, detect, euclidean).result.value.Compared?
    ensures userId.value in Compare(cache, cloudinaryUrl, uploadedImagePath, userId, detect, euclidean).cache
    ensures
      var run := Compare(cache, cloudinaryUrl, uploadedImagePath, userId, detect, euclidean);
      var d := run.cache[userId.value];
      && run.result.value.distance == euclidean(d, detect(uploadedImagePath).descriptor)
      && Fetch(run.cache, nextImage, userId, nextDetect) == Fetched(Done(Some(d)), run.cache)
  {
    var stored := Fetch(cache, cloudinaryUrl, userId, detect);
    assert stored.descriptor.Done? && stored.descriptor.value.Some?;
    assert stored.cache[userId.value] == stored.descriptor.value.value;
  }

  /**
   * Two images whose faces give the same descriptor match at distance 0,
   * unless the stored image is served from the cache.
   */
  lemma SameDescriptorMatches(cache: map<UserId, Descriptor>, cloudinaryUrl: ImageRef, uploadedImagePath: ImageRef,
                              userId: Option<UserId>, detect: ImageRef -> Detection,
                              euclidean: (Descriptor, Descriptor) -> real, d: Descriptor)
    requires forall x :: euclidean(x, x) == 0.0
    requires !(IsCacheKey(userId) && userId.value in cache)
    requires detect(cloudinaryUrl) == Detected(d) && detect(uploadedImagePath) == Detected(d)
    ensures Compare(cache, cloudinaryUrl, uploadedImagePath, userId, detect, euclidean).result
            == Done(Compared(true, 0.0, MatchThreshold))
  {
    assert euclidean(d, d) == 0.0;
  }

  /** After the periodic clear every user's stored image is detected again. */
  lemma ClearedCacheDetectsAgain(cloudinaryUrl: ImageRef, userId: Option<UserId>, detect: ImageRef -> Detection)
    ensures Fetch(map[], cloudinaryUrl, userId, detect).descriptor == FromDetection(detect(cloudinaryUrl))
  {
  }
}

/**
 * `extractCloudinaryPublicId` (src/utils/imageUtils.js): the public id of an
 * image is the part of the URL's path after the first `upload` segment, less
 * an optional version segment and the file extension.
 */
module ImageUtils {
  import opened Wrappers
  import opened Sequences

  const UploadSegment: string := "upload"
  const PathSeparator: char := '/'

  /** A non-empty segment starting with `v` (a version tag such as `v1712345678`). */
  predicate IsVersionSegment(segment: string) {
    segment != "" && segment[0] == 'v'
  }

  /** Where the public id starts: just past `upload`, or one further over a version segment. */
  function StartIndex(parts: seq<string>, uploadIndex: nat): (start: nat)
    requires uploadIndex < |parts|
    ensures uploadIndex < start <= |parts| && start <= uploadIndex + 2
    ensures start == uploadIndex + 2 <==> uploadIndex + 1 < |parts| && IsVersionSegment(parts[uploadIndex + 1])
  {
    var next := uploadIndex + 1;
    if next < |parts| && parts[next] != "" && parts[next][0] == 'v' then next + 1 else next
  }

  /** Drops everything from the last `.` on; a string without a dot is kept whole. */
  function StripExtension(s: string): (r: string)
    ensures |r| <= |s| && r == s[..|r|]
    ensures '.' !in s ==> r == s
    ensures '.' in s ==> |r| < |s| && s[|r|] == '.' && '.' !in s[|r| + 1..]
  {
    if '.' in s then s[..LastIndexOf(s, '.')] else s
  }

  /** The public id read off the segments of a URL path; None when no segment is `upload`. */
  function PublicIdFromSegments(parts: seq<string>): (r: Option<string>)
    ensures r.None? <==> UploadSegment !in parts
  {
    var uploadIndex := IndexOf(parts, UploadSegment);
    if uploadIndex == -1 then None
    else
      var publicIdParts := parts[StartIndex(parts, uploadIndex)..];
      Some(StripExtension(Join(publicIdParts, PathSeparator)))
  }

  /** The public id read off a URL's `pathname`. */
  function PublicIdFromPathname(pathname: string): (r: Option<string>)
    ensures r.None? <==> UploadSegment !in Split(pathname, PathSeparator)
  {
    PublicIdFromSegments(Split(pathname, PathSeparator))
  }

  /**
   * The whole extraction. `pathnameOf` is the URL parser's `pathname`, None
   * when the URL constructor throws (the code catches that and returns null).
   */
  function ExtractCloudinaryPublicId(url: Option<string>, pathnameOf: string -> Option<string>): (r: Option<string>)
    ensures url.None? || url.value == "" ==> r.None?
    ensures url.Some? && url.value != "" && pathnameOf(url.value).None? ==> r.None?
    ensures url.Some? && url.value != "" && pathnameOf(url.value).Some? ==>
              r == PublicIdFromPathname(pathnameOf(url.value).value)
  {
    if url.None? || url.value == "" then None
    else
      match pathnameOf(url.value)
      case None => None
      case Some(pathname) => PublicIdFromPathname(pathname)
  }

  /** What follows the first `upload` segment, less a leading version segment. */
  function AfterVersion(rest: seq<string>): seq<string>
  {
    if rest != [] && IsVersionSegment(rest[0]) then rest[1..] else rest
  }

  /**
   * Only the first `upload` segment counts: whatever precedes it is ignored,
   * a version segment right after it is skipped, any other segment is kept,
   * and the rest is joined with `/` and cut at its last dot.
   */
  lemma PublicIdOfFirstUpload(pre: seq<string>, rest: seq<string>)
    requires UploadSegment !in pre
    ensures PublicIdFromSegments(pre + [UploadSegment] + rest)
            == Some(StripExtension(Join(AfterVersion(rest), PathSeparator)))
  {
    var parts := pre + [UploadSegment] + rest;
    assert parts[|pre|] == UploadSegment;
    assert parts[..|pre|] == pre;
    assert IndexOf(parts, UploadSegment) == |pre|;
    assert parts[|pre| + 1..] == rest;
    if rest != [] {
      assert parts[|pre| + 1] == rest[0];
      assert parts[|pre| + 2..] == rest[1..];
    }
  }

  /** A version segment right after `upload` never reaches the result. */
  lemma VersionSegmentSkipped(pre: seq<string>, version: string, rest: seq<string>)
    requires UploadSegment !in pre && IsVersionSegment(version)
    ensures PublicIdFromSegments(pre + [UploadSegment, version] + rest)
            == Some(StripExtension(Join(rest, PathSeparator)))
  {
    PublicIdOfFirstUpload(pre, [version] + rest);
    assert pre + [UploadSegment] + ([version] + rest) == pre + [UploadSegment, version] + rest;
    assert ([version] + rest)[1..] == rest;
  }

  /** When `upload` is the last segment the public id is the empty string, not null. */
  lemma UploadLastGivesEmptyId(pre: seq<string>)
    requires UploadSegment !in pre
    ensures PublicIdFromSegments(pre + [UploadSegment]) == Some("")
  {
    PublicIdOfFirstUpload(pre, []);
    assert pre + [UploadSegment] + [] == pre + [UploadSegment];
  }

  /** The same statement on the path string itself, for `/`-free segments. */
  lemma {:induction false} PublicIdOfPathname(pre: seq<string>, rest: seq<string>)
    requires UploadSegment !in pre
    requires forall i :: 0 <= i < |pre| ==> PathSeparator !in pre[i]
    requires forall i :: 0 <= i < |rest| ==> PathSeparator !in rest[i]
    ensures PublicIdFromPathname(Join(pre + [UploadSegment] + rest, PathSeparator))
            == Some(StripExtension(Join(AfterVersion(rest), PathSeparator)))
  {
    var parts := pre + [UploadSegment] + rest;
    forall i | 0 <= i < |parts| ensures PathSeparator !in parts[i] {
      if i < |pre| { assert parts[i] == pre[i]; }
      else if i > |pre| { assert parts[i] == rest[i - |pre| - 1]; }
    }
    SplitJoin(parts, PathSeparator);
    PublicIdOfFirstUpload(pre, rest);
  }

  /** A path none of whose segments is `upload` has no public id. */
  lemma NoUploadSegmentNoId(pathname: string)
    requires forall i :: 0 <= i < |Split(pathname, PathSeparator)| ==> Split(pathname, PathSeparator)[i] != UploadSegment
    ensures PublicIdFromPathname(pathname) == None
  {
  }
}

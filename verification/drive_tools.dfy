/** Locator parsing and folder-name matching from the Drive utilities:
    `get_id_from_url`, `normalize_name` and the matching loop of
    `find_subfolder`. */
module DriveTools {
  import opened Wrappers
  import opened Text

  // ---------------------------------------------------------------------------
  // get_id_from_url
  // ---------------------------------------------------------------------------

  /** The character class `[a-zA-Z0-9_-]` of the id patterns. */
  predicate IsIdChar(c: char) {
    'a' <= c <= 'z' || 'A' <= c <= 'Z' || '0' <= c <= '9' || c == '_' || c == '-'
  }

  predicate AllIdChars(s: string) {
    forall k :: 0 <= k < |s| ==> IsIdChar(s[k])
  }

  const DocMarker: string := "/d/"
  const FolderMarker: string := "folders/"

  /** The regular expression `pat([a-zA-Z0-9_-]+)` can match at index `p` of
      `s`: `pat` occurs there and at least one id character follows it. */
  predicate CaptureStartsAt(s: string, pat: string, p: int) {
    0 <= p && p + |pat| < |s| && s[p..p + |pat|] == pat && IsIdChar(s[p + |pat|])
  }

  ghost predicate HasCapture(s: string, pat: string) {
    exists p :: CaptureStartsAt(s, pat, p)
  }

  /** `p` is where `re.search` finds its match: the leftmost possible start. */
  predicate IsLeftmostCapture(s: string, pat: string, p: int) {
    CaptureStartsAt(s, pat, p) && forall q :: 0 <= q < p ==> !CaptureStartsAt(s, pat, q)
  }

  /** `id` is the maximal non-empty run of id characters of `s` starting at
      index `a`, which is what the greedy `+` captures. */
  predicate MaximalIdRun(s: string, a: int, id: string) {
    0 <= a && a + |id| <= |s| && |id| > 0 && s[a..a + |id|] == id && AllIdChars(id)
    && (a + |id| == |s| || !IsIdChar(s[a + |id|]))
  }

  /** `id` is group 1 of `re.search(pat + '([a-zA-Z0-9_-]+)', s)`. */
  ghost predicate CapturedId(s: string, pat: string, id: string) {
    exists p :: IsLeftmostCapture(s, pat, p) && MaximalIdRun(s, p + |pat|, id)
  }

  /** The leftmost capture start is unique. */
  lemma LeftmostUnique(s: string, pat: string, p1: int, p2: int)
    requires IsLeftmostCapture(s, pat, p1) && IsLeftmostCapture(s, pat, p2)
    ensures p1 == p2
  {
  }

  /** A maximal run is determined by its start. */
  lemma MaximalIdRunUnique(s: string, a: int, id1: string, id2: string)
    requires MaximalIdRun(s, a, id1) && MaximalIdRun(s, a, id2)
    ensures id1 == id2
  {
    forall j | a <= j < a + |id2| ensures IsIdChar(s[j]) {
      assert s[j] == s[a..a + |id2|][j - a];
    }
    forall j | a <= j < a + |id1| ensures IsIdChar(s[j]) {
      assert s[j] == s[a..a + |id1|][j - a];
    }
    assert |id1| == |id2|;
    assert id1 == s[a..a + |id1|] == id2;
  }

  /** The search has at most one answer, so `CapturedId` pins the id down. */
  lemma CapturedIdUnique(s: string, pat: string, id1: string, id2: string)
    requires CapturedId(s, pat, id1) && CapturedId(s, pat, id2)
    ensures id1 == id2
  {
    var p1 :| IsLeftmostCapture(s, pat, p1) && MaximalIdRun(s, p1 + |pat|, id1);
    var p2 :| IsLeftmostCapture(s, pat, p2) && MaximalIdRun(s, p2 + |pat|, id2);
    LeftmostUnique(s, pat, p1, p2);
    MaximalIdRunUnique(s, p1 + |pat|, id1, id2);
  }

  /** Index just past the run of id characters that starts at `a`. */
  function RunEnd(s: string, a: nat): (b: nat)
    requires a <= |s|
    ensures a <= b <= |s|
    ensures forall k :: a <= k < b ==> IsIdChar(s[k])
    ensures b == |s| || !IsIdChar(s[b])
    decreases |s| - a
  {
    if a < |s| && IsIdChar(s[a]) then RunEnd(s, a + 1) else a
  }

  /** The first index at or after `from` where a capture can start. */
  function FindCapture(s: string, pat: string, from: nat): (r: Option<nat>)
    ensures r.Some? ==> from <= r.value && CaptureStartsAt(s, pat, r.value)
    ensures r.Some? ==> forall q :: from <= q < r.value ==> !CaptureStartsAt(s, pat, q)
    ensures r.None? ==> forall q :: from <= q ==> !CaptureStartsAt(s, pat, q)
    decreases |s| - from
  {
    if from + |pat| >= |s| then None
    else if CaptureStartsAt(s, pat, from) then Some(from)
    else FindCapture(s, pat, from + 1)
  }

  /** `re.search(pat + '([a-zA-Z0-9_-]+)', s).group(1)`, or `None` when the
      search finds nothing. */
  function SearchId(s: string, pat: string): (r: Option<string>)
    ensures r.Some? <==> HasCapture(s, pat)
    ensures r.Some? ==> CapturedId(s, pat, r.value)
  {
    match FindCapture(s, pat, 0)
    case None => None
    case Some(p) =>
      var a := p + |pat|;
      var b := RunEnd(s, a);
      assert IsLeftmostCapture(s, pat, p);
      assert MaximalIdRun(s, a, s[a..b]);
      Some(s[a..b])
  }

  /** A captured id is a non-empty run of id characters that occurs in `s`. */
  lemma CapturedIdShape(s: string, pat: string, id: string)
    requires CapturedId(s, pat, id)
    ensures |id| > 0 && AllIdChars(id) && IsSubstring(id, s)
  {
    var p :| IsLeftmostCapture(s, pat, p) && MaximalIdRun(s, p + |pat|, id);
    assert OccursAt(id, s, p + |pat|);
  }

  /** The bare-id rule: long enough and free of path separators. */
  predicate LooksLikeBareId(url: string) {
    |url| > 20 && '/' !in url
  }

  /** `get_id_from_url`: the `/d/<id>` rule first, then `folders/<id>`, then a
      bare id; `None` when no rule applies. A Python `None` locator is falsy
      exactly like the empty string and is represented by it. */
  function IdFromUrl(url: string): (r: Option<string>)
    ensures url == [] ==> r == None
    ensures HasCapture(url, DocMarker) ==> r.Some? && CapturedId(url, DocMarker, r.value)
    ensures !HasCapture(url, DocMarker) && HasCapture(url, FolderMarker) ==>
              r.Some? && CapturedId(url, FolderMarker, r.value)
    ensures !HasCapture(url, DocMarker) && !HasCapture(url, FolderMarker) ==>
              (r.Some? <==> LooksLikeBareId(url)) && (r.Some? ==> r.value == url)
    ensures r.Some? ==> |r.value| > 0 && IsSubstring(r.value, url)
  {
    if url == [] then None
    else match SearchId(url, DocMarker)
      case Some(id) =>
        CapturedIdShape(url, DocMarker, id);
        Some(id)
      case None =>
        match SearchId(url, FolderMarker)
        case Some(id) =>
          CapturedIdShape(url, FolderMarker, id);
          Some(id)
        case None =>
          if LooksLikeBareId(url) then
            assert OccursAt(url, url, 0);
            Some(url)
          else None
  }

  /** No `/d/` inside `prefix`, and `prefix` does not end in `/d`: appending
      `/d/` cannot create an earlier match. */
  predicate FreeOfDocMarker(prefix: string) {
    !IsSubstring(DocMarker, prefix) && !EndsWith(prefix, "/d")
  }

  /** A document link built from an id parses back to that id:
      `prefix + "/d/" + id + suffix` yields `id` whenever the id is a non-empty
      run of id characters not continued by `suffix`. This covers links such
      as `https://docs.google.com/document/d/<id>/edit?usp=sharing`, whatever
      `suffix` contains. */
  lemma {:induction false} DocLinkYieldsId(prefix: string, id: string, suffix: string)
    requires FreeOfDocMarker(prefix)
    requires |id| > 0 && AllIdChars(id)
    requires suffix == [] || !IsIdChar(suffix[0])
    ensures IdFromUrl(prefix + DocMarker + id + suffix) == Some(id)
  {
    var url := prefix + DocMarker + id + suffix;
    var n := |prefix|;
    assert url[n..n + 3] == DocMarker;
    assert url[n + 3] == id[0];
    assert CaptureStartsAt(url, DocMarker, n);
    forall q | 0 <= q < n
      ensures !CaptureStartsAt(url, DocMarker, q)
    {
      if q + 3 <= n {
        assert url[q..q + 3] == prefix[q..q + 3];
        assert !OccursAt(DocMarker, prefix, q);
      } else if q == n - 2 {
        assert url[q..q + 3] == [prefix[n - 2], prefix[n - 1], '/'];
        assert prefix[n - 2..] == [prefix[n - 2], prefix[n - 1]];
      } else {
        assert url[q + 1] == '/';
      }
    }
    assert IsLeftmostCapture(url, DocMarker, n);
    assert url[n + 3..n + 3 + |id|] == id;
    if n + 3 + |id| < |url| {
      assert url[n + 3 + |id|] == suffix[0];
    }
    assert MaximalIdRun(url, n + 3, id);
    assert CapturedId(url, DocMarker, id);
    CapturedIdUnique(url, DocMarker, id, IdFromUrl(url).value);
  }

  // ---------------------------------------------------------------------------
  // normalize_name
  // ---------------------------------------------------------------------------

  /** `normalize_name`: accents removed, lower case, surrounding whitespace
      stripped; `""` for an empty name. Unicode NFD decomposition is the
      parameter `nfd`; the ASCII projection, `lower` and `strip` are modelled.
      */
  function NormalizeName(nfd: string -> string, name: string): (r: string)
    ensures name == [] ==> r == []
    ensures AllAscii(r) && IsTrimmed(r)
    ensures forall k :: 0 <= k < |r| ==> !IsUpperAscii(r[k])
    ensures name != [] ==>
              exists i, j :: 0 <= i <= j <= |AsciiOnly(nfd(name))| &&
                r == Lower(AsciiOnly(nfd(name)))[i..j] &&
                AllSpace(Lower(AsciiOnly(nfd(name)))[..i]) && AllSpace(Lower(AsciiOnly(nfd(name)))[j..])
  {
    if name == [] then []
    else
      var ascii := AsciiOnly(nfd(name));
      var lowered := Lower(ascii);
      StripBounds(lowered);
      var i, j := StripStart(lowered), StripEnd(lowered);
      assert forall k :: 0 <= k < |lowered| ==> IsAscii(lowered[k]) && !IsUpperAscii(lowered[k]);
      assert forall k :: 0 <= k < j - i ==> lowered[i..j][k] == lowered[i + k];
      Strip(lowered)
  }

  // ---------------------------------------------------------------------------
  // find_subfolder: the match over the folder listing
  // ---------------------------------------------------------------------------

  datatype Folder = Folder(id: string, name: string)

  /** What the paginated folder listing produced: the folders in listing
      order, an `HttpError` with its status code, or any other exception. */
  datatype Listing = Listed(folders: seq<Folder>) | HttpFailure(status: int) | OtherFailure

  /** `any(t in name for t in targets)`. */
  predicate ContainsSomeTarget(targets: seq<string>, name: string) {
    exists k :: 0 <= k < |targets| && IsSubstring(targets[k], name)
  }

  /** Some normalised target occurs inside the normalised folder name. */
  predicate NameMatches(nfd: string -> string, targetsNorm: seq<string>, folder: Folder) {
    ContainsSomeTarget(targetsNorm, NormalizeName(nfd, folder.name))
  }

  function NormalizeAll(nfd: string -> string, names: seq<string>): (r: seq<string>)
    ensures |r| == |names|
    ensures forall k :: 0 <= k < |names| ==> r[k] == NormalizeName(nfd, names[k])
  {
    seq(|names|, k requires 0 <= k < |names| => NormalizeName(nfd, names[k]))
  }

  /** The normalised names of the folders, in listing order. */
  function FolderNames(nfd: string -> string, folders: seq<Folder>): (r: seq<string>)
    ensures |r| == |folders|
    ensures forall k :: 0 <= k < |folders| ==> r[k] == NormalizeName(nfd, folders[k].name)
  {
    seq(|folders|, k requires 0 <= k < |folders| => NormalizeName(nfd, folders[k].name))
  }

  /** The first index at or after `from` of a name containing some target. */
  function FirstMatch(targetsNorm: seq<string>, names: seq<string>, from: nat): (r: Option<nat>)
    ensures r.Some? ==> from <= r.value < |names| && ContainsSomeTarget(targetsNorm, names[r.value])
    ensures r.Some? ==> forall j :: from <= j < r.value ==> !ContainsSomeTarget(targetsNorm, names[j])
    ensures r.None? ==> forall j :: from <= j < |names| ==> !ContainsSomeTarget(targetsNorm, names[j])
    decreases |names| - from
  {
    if from >= |names| then None
    else if ContainsSomeTarget(targetsNorm, names[from]) then Some(from)
    else FirstMatch(targetsNorm, names, from + 1)
  }

  /** Quota errors (403, 429) are re-raised so that the caller's retry policy
      can try again. */
  predicate IsQuotaStatus(status: int) {
    status == 403 || status == 429
  }

  /** `find_subfolder` after the listing: the first folder, in listing order,
      whose normalised name contains some normalised target; `Success(None)`
      stands for `(None, None)` and `Failure(status)` for a re-raised quota
      error. */
  function FindSubfolder(nfd: string -> string, listing: Listing, targetNames: seq<string>): (r: Result<Option<Folder>, int>)
    ensures r.Failure? <==> listing.HttpFailure? && IsQuotaStatus(listing.status)
    ensures r.Failure? ==> r.error == listing.status
    ensures !listing.Listed? && r.Success? ==> r.value == None
    ensures listing.Listed? && r.value.Some? ==>
              exists i :: 0 <= i < |listing.folders| && listing.folders[i] == r.value.value
                && NameMatches(nfd, NormalizeAll(nfd, targetNames), listing.folders[i])
                && forall j :: 0 <= j < i ==> !NameMatches(nfd, NormalizeAll(nfd, targetNames), listing.folders[j])
    ensures listing.Listed? && r.value.None? ==>
              forall j :: 0 <= j < |listing.folders| ==> !NameMatches(nfd, NormalizeAll(nfd, targetNames), listing.folders[j])
  {
    match listing
    case HttpFailure(status) => if IsQuotaStatus(status) then Failure(status) else Success(None)
    case OtherFailure => Success(None)
    case Listed(folders) =>
      match FirstMatch(NormalizeAll(nfd, targetNames), FolderNames(nfd, folders), 0)
      case None => Success(None)
      case Some(i) => Success(Some(folders[i]))
  }

  /** Python's `"" in s` is always true, so a target that normalises to the
      empty string (an empty or all-blank name) makes the first listed folder
      match, whatever its name. */
  lemma BlankTargetMatchesFirstFolder(nfd: string -> string, folders: seq<Folder>, targetNames: seq<string>, k: nat)
    requires k < |targetNames| && NormalizeName(nfd, targetNames[k]) == []
    requires |folders| > 0
    ensures FindSubfolder(nfd, Listed(folders), targetNames) == Success(Some(folders[0]))
  {
    var norm := NormalizeAll(nfd, targetNames);
    assert OccursAt(norm[k], NormalizeName(nfd, folders[0].name), 0);
    assert ContainsSomeTarget(norm, NormalizeName(nfd, folders[0].name));
  }
}

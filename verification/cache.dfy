/** Selection of the reference documents ("fundamentos") and the request that
    builds the shared context cache from them (`ensure_fundamentos_cache`).
    The directory listing and the cache backend are pre-decided outcomes. */
module Cache {
  import opened Wrappers
  import opened Text

  const CACHE_NAME: string := "vawa-fundamentos-cache"
  const TTL_HOURS: nat := 12
  const PDF_SUFFIX: string := ".pdf"

  /** The fixed system instruction stored with the cache, with the leading
      newline and the eight-space indentation of its source literal. */
  const CACHE_INSTRUCTION: string :=
    "\n        Eres un experto analista legal especializado en casos VAWA y Visa T."
    + "\n        Tu conocimiento base proviene estrictamente de los documentos adjuntos en este contexto."
    + "\n        Utiliza esta informaci\U{f3}n para auditar y clasificar casos."
    + "\n        "

  /** The reference directory as the filesystem presents it: absent, present
      but not listable, or listed (names in listing order). */
  datatype Directory = Missing | Unlistable | Listed(names: seq<string>)

  /** The arguments of the one cache-creation call. */
  datatype CacheRequest = CacheRequest(name: string, paths: seq<string>, instruction: string, ttlHours: nat)

  datatype CacheError =
    | DirectoryMissing     // FileNotFoundError before any listing
    | ListingFailed        // the listing itself raised
    | NoPdfs               // ValueError: nothing to cache
    | CreationFailed(reason: string)

  /** What the operation did: the creation requests it issued (zero or one)
      and the cache handle or the error raised. */
  datatype CacheRun = CacheRun(requests: seq<CacheRequest>, outcome: Result<string, CacheError>)

  /** The name ends with `.pdf` in any letter case. */
  predicate HasPdfExtension(name: string) {
    EndsWith(Lower(name), PDF_SUFFIX)
  }

  /** The names with a `.pdf` extension, in listing order. */
  function SelectPdfs(names: seq<string>): (r: seq<string>)
    ensures |r| <= |names|
    ensures forall k :: 0 <= k < |r| ==> HasPdfExtension(r[k]) && r[k] in names
    ensures forall k :: 0 <= k < |names| && HasPdfExtension(names[k]) ==> names[k] in r
  {
    if names == [] then []
    else if HasPdfExtension(names[0]) then [names[0]] + SelectPdfs(names[1..])
    else SelectPdfs(names[1..])
  }

  /** Selection keeps listing order: selecting from a concatenation is
      selecting from each part in turn. */
  lemma {:induction false} SelectPdfsConcat(a: seq<string>, b: seq<string>)
    ensures SelectPdfs(a + b) == SelectPdfs(a) + SelectPdfs(b)
    decreases |a|
  {
    if a == [] {
      assert a + b == b;
    } else {
      assert (a + b)[0] == a[0];
      assert (a + b)[1..] == a[1..] + b;
      SelectPdfsConcat(a[1..], b);
    }
  }

  /** A name whose last four characters spell `.pdf` in any mix of cases is
      selected. */
  lemma AnyCaseExtensionSelected(stem: string, ext: string)
    requires |ext| == 4 && Lower(ext) == PDF_SUFFIX
    ensures HasPdfExtension(stem + ext)
  {
    var s := stem + ext;
    assert Lower(s)[|s| - 4..] == Lower(ext);
  }

  /** The paths handed to the cache: the directory joined with each selected
      name, same count, same order. */
  function ReferencePaths(dir: string, files: seq<string>): (r: seq<string>)
    ensures |r| == |files|
    ensures forall k :: 0 <= k < |files| ==> EndsWith(r[k], files[k])
    ensures forall k :: 0 <= k < |files| && !StartsWith(files[k], "/") ==> StartsWith(r[k], dir)
    ensures forall k :: 0 <= k < |files| && !StartsWith(files[k], "/") && dir != [] && dir[|dir| - 1] != '/' ==>
              r[k] == dir + "/" + files[k]
  {
    seq(|files|, k requires 0 <= k < |files| => PathJoin(dir, files[k]))
  }

  /** `ensure_fundamentos_cache` against a directory and a cache backend. */
  function EnsureFundamentosCache(dir: string, listing: Directory,
                                  create: CacheRequest -> Result<string, string>): (r: CacheRun)
    ensures listing.Missing? ==> r == CacheRun([], Failure(DirectoryMissing))
    ensures listing.Unlistable? ==> r == CacheRun([], Failure(ListingFailed))
    ensures listing.Listed? && SelectPdfs(listing.names) == [] ==> r == CacheRun([], Failure(NoPdfs))
    ensures listing.Listed? && SelectPdfs(listing.names) != [] ==>
              && |r.requests| == 1
              && r.requests[0].name == CACHE_NAME
              && r.requests[0].ttlHours == TTL_HOURS
              && r.requests[0].instruction == CACHE_INSTRUCTION
              && r.requests[0].paths == ReferencePaths(dir, SelectPdfs(listing.names))
              && (r.outcome.Success? <==> create(r.requests[0]).Success?)
              && (r.outcome.Success? ==> r.outcome.value == create(r.requests[0]).value)
              && (r.outcome.Failure? ==> r.outcome.error == CreationFailed(create(r.requests[0]).error))
    // A cache is produced only from a non-empty PDF selection.
    ensures r.outcome.Success? ==> |r.requests| == 1 && |r.requests[0].paths| >= 1
  {
    match listing
    case Missing => CacheRun([], Failure(DirectoryMissing))
    case Unlistable => CacheRun([], Failure(ListingFailed))
    case Listed(names) =>
      var files := SelectPdfs(names);
      if files == [] then CacheRun([], Failure(NoPdfs))
      else
        var request := CacheRequest(CACHE_NAME, ReferencePaths(dir, files), CACHE_INSTRUCTION, TTL_HOURS);
        match create(request)
        case Success(handle) => CacheRun([request], Success(handle))
        case Failure(e) => CacheRun([request], Failure(CreationFailed(e)))
  }
}

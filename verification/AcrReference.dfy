/** Azure Container Registry references.

Models internal/master/acr_manifest.go: the parser of module registry URLs and the
printer of blob URLs, over the URL shapes of the sections "Pulling manifests" and
"Pulling blobs" of the OCI Distribution Specification. A URL is a host name, a decoded
path and the parts that the printer clears; net/url itself is assumed to round-trip.
None stands for a string that net/url rejects.
*/
module AcrReference {
  import opened Text

  datatype Url = Url(hostname: string, path: string, rawQuery: string, fragment: string)

  datatype Kind = Repository | Manifest | Blob | Tags | Referrers

  datatype Reference = Reference(registryName: string, repositoryName: string, reference: string, kind: Kind)

  datatype Error =
    | BadUrl | NotAcr | MissingPath | MissingRepository | MissingReference
    | UnsupportedDigest | ManifestUnavailable | NoLayers | NoWasmLayer

  datatype Result<+T> = Ok(value: T) | Err(error: Error)

  const HOST_SUFFIX := ".azurecr.io"

  // ---------------------------------------------------------------------------
  // Parsing
  // ---------------------------------------------------------------------------

  /** The OCI keywords that end a repository name, and the kind of reference each introduces. */
  function KindOf(segment: string): Option<Kind> {
    if segment == "manifests" then Some(Manifest)
    else if segment == "blobs" then Some(Blob)
    else if segment == "tags" then Some(Tags)
    else if segment == "referrers" then Some(Referrers)
    else None
  }

  function Keyword(kind: Kind): string
    requires !kind.Repository?
  {
    match kind
    case Manifest => "manifests"
    case Blob => "blobs"
    case Tags => "tags"
    case Referrers => "referrers"
  }

  /** No keyword among the first `n` segments. */
  ghost predicate KeywordFree(segments: seq<string>, n: nat)
    requires n <= |segments|
  {
    forall i :: 0 <= i < n ==> KindOf(segments[i]).None?
  }

  /** The position of the first keyword, or the number of segments. */
  function RepositoryEnd(segments: seq<string>): (n: nat)
    ensures n <= |segments| && KeywordFree(segments, n)
    ensures n < |segments| ==> KindOf(segments[n]).Some?
  {
    if segments == [] || KindOf(segments[0]).Some? then 0
    else 1 + RepositoryEnd(segments[1..])
  }

  function DropV2(segments: seq<string>): seq<string> {
    if segments != [] && segments[0] == "v2" then segments[1..] else segments
  }

  /** Cuts the segments at `end`, the first keyword if there is one. */
  function ParseAt(registryName: string, segments: seq<string>, end: nat): Result<Reference>
    requires end <= |segments| && (end < |segments| ==> KindOf(segments[end]).Some?)
  {
    var repository := Join(segments[..end], '/');
    if repository == "" then Err(MissingRepository)
    else if end == |segments| then Ok(Reference(registryName, repository, "", Repository))
    else if end + 1 >= |segments| then Err(MissingReference)
    else Ok(Reference(registryName, repository, Join(segments[end + 1..], '/'), KindOf(segments[end]).value))
  }

  function ParseSegments(registryName: string, segments: seq<string>): Result<Reference> {
    ParseAt(registryName, segments, RepositoryEnd(segments))
  }

  function Parse(u: Option<Url>): Result<Reference> {
    if u.None? then Err(BadUrl)
    else if !HasSuffix(u.value.hostname, HOST_SUFFIX) then Err(NotAcr)
    else
      var path := Trim(u.value.path, IsSlash);
      if path == "" then Err(MissingPath)
      else
        var segments := DropV2(Split(path, '/'));
        if segments == [] then Err(MissingPath)
        else ParseSegments(u.value.hostname[..|u.value.hostname| - |HOST_SUFFIX|], segments)
  }

  /** The scanning loop. */
  method ScanForKeyword(segments: seq<string>) returns (repositoryEnd: nat, kind: Kind)
    ensures repositoryEnd == RepositoryEnd(segments)
    ensures kind.Repository? <==> repositoryEnd == |segments|
    ensures !kind.Repository? ==> KindOf(segments[repositoryEnd]) == Some(kind)
    ensures forall i :: 0 <= i < repositoryEnd ==> segments[i] !in {"manifests", "blobs", "tags", "referrers"}
    ensures (kind.Manifest? ==> segments[repositoryEnd] == "manifests")
          && (kind.Blob? ==> segments[repositoryEnd] == "blobs")
    ensures (kind.Tags? ==> segments[repositoryEnd] == "tags")
          && (kind.Referrers? ==> segments[repositoryEnd] == "referrers")
  {
    repositoryEnd, kind := |segments|, Repository;
    for i := 0 to |segments|
      invariant repositoryEnd == |segments| && kind == Repository
      invariant KeywordFree(segments, i)
    {
      var segment := segments[i];
      if segment == "manifests" {
        repositoryEnd, kind := i, Manifest;
      } else if segment == "blobs" {
        repositoryEnd, kind := i, Blob;
      } else if segment == "tags" {
        repositoryEnd, kind := i, Tags;
      } else if segment == "referrers" {
        repositoryEnd, kind := i, Referrers;
      }
      if repositoryEnd == i {
        break;
      }
    }
    FirstKeyword(segments, repositoryEnd);
  }

  method ParseACRModuleReference(u: Option<Url>) returns (r: Result<Reference>)
    ensures r == Parse(u)
  {
    if u.None? {
      return Err(BadUrl);
    }
    var hostname := u.value.hostname;
    if !HasSuffix(hostname, HOST_SUFFIX) {
      return Err(NotAcr);
    }
    var registryName := hostname[..|hostname| - |HOST_SUFFIX|];
    var path := Trim(u.value.path, IsSlash);
    if path == "" {
      return Err(MissingPath);
    }
    var segments := Split(path, '/');
    if segments[0] == "v2" {
      segments := segments[1..];
    }
    if |segments| == 0 {
      return Err(MissingPath);
    }
    var repositoryEnd, kind := ScanForKeyword(segments);
    var repositoryName := Join(segments[..repositoryEnd], '/');
    if repositoryName == "" {
      return Err(MissingRepository);
    }
    var reference := "";
    if kind != Repository {
      if repositoryEnd + 1 >= |segments| {
        return Err(MissingReference);
      }
      reference := Join(segments[repositoryEnd + 1..], '/');
    }
    return Ok(Reference(registryName, repositoryName, reference, kind));
  }

  lemma FirstKeyword(segments: seq<string>, n: nat)
    requires n <= |segments| && KeywordFree(segments, n) && (n < |segments| ==> KindOf(segments[n]).Some?)
    ensures RepositoryEnd(segments) == n
  {
  }

  // ---------------------------------------------------------------------------
  // Printing
  // ---------------------------------------------------------------------------

  function Path(repository: string, keyword: string, reference: string): string {
    repository + ("/" + keyword + "/" + reference)
  }

  /** The path below /v2/ that names a reference. */
  function Print(ref: Reference): string {
    if ref.kind.Repository? then ref.repositoryName else Path(ref.repositoryName, Keyword(ref.kind), ref.reference)
  }

  predicate EndsInSlash(s: string) {
    s != "" && s[|s| - 1] == '/'
  }

  ghost predicate KeywordFreeName(name: string) {
    KeywordFree(Split(name, '/'), |Split(name, '/')|)
  }

  /** What a parse can produce. */
  ghost predicate WellFormed(ref: Reference) {
    && ref.repositoryName != "" && KeywordFreeName(ref.repositoryName)
    && if ref.kind.Repository? then ref.reference == "" && !EndsInSlash(ref.repositoryName)
       else ref.reference != "" && !EndsInSlash(ref.reference)
  }

  /** The segments that a well-formed reference prints as. */
  function Segments(ref: Reference): seq<string> {
    var repository := Split(ref.repositoryName, '/');
    if ref.kind.Repository? then repository else repository + ([Keyword(ref.kind)] + Split(ref.reference, '/'))
  }

  lemma PartsPrint(repository: seq<string>, keyword: string, reference: seq<string>)
    requires repository != [] && reference != []
    ensures Join(repository + ([keyword] + reference), '/') ==
          Path(Join(repository, '/'), keyword, Join(reference, '/'))
  {
    JoinAppend([keyword], reference, '/');
    JoinAppend(repository, [keyword] + reference, '/');
  }

  lemma SegmentsPrint(ref: Reference)
    ensures Join(Segments(ref), '/') == Print(ref)
    ensures SepFree(Segments(ref), '/')
  {
    JoinSplit(ref.repositoryName, '/');
    SplitSepFree(ref.repositoryName, '/');
    if !ref.kind.Repository? {
      JoinSplit(ref.reference, '/');
      SplitSepFree(ref.reference, '/');
      PartsPrint(Split(ref.repositoryName, '/'), Keyword(ref.kind), Split(ref.reference, '/'));
    }
  }

  lemma ParseParts(registryName: string, repository: seq<string>, keyword: string, reference: seq<string>)
    requires KeywordFree(repository, |repository|) && KindOf(keyword).Some? && Join(repository, '/') != ""
          && reference != []
    ensures ParseSegments(registryName, repository + ([keyword] + reference)) ==
            Ok(Reference(registryName, Join(repository, '/'), Join(reference, '/'), KindOf(keyword).value))
  {
    var segments := repository + ([keyword] + reference);
    FirstKeyword(segments, |repository|);
    assert segments[..|repository|] == repository && segments[|repository| + 1..] == reference;
  }

  lemma ParseName(registryName: string, repository: seq<string>)
    requires KeywordFree(repository, |repository|) && Join(repository, '/') != ""
    ensures ParseSegments(registryName, repository) ==
          Ok(Reference(registryName, Join(repository, '/'), "", Repository))
  {
    FirstKeyword(repository, |repository|);
    assert repository[..|repository|] == repository;
  }

  lemma SegmentsParse(ref: Reference)
    requires WellFormed(ref)
    ensures ParseSegments(ref.registryName, Segments(ref)) == Ok(ref)
  {
    var repository := Split(ref.repositoryName, '/');
    JoinSplit(ref.repositoryName, '/');
    if ref.kind.Repository? {
      ParseName(ref.registryName, repository);
    } else {
      JoinSplit(ref.reference, '/');
      KindNamesKeyword(ref.kind);
      ParseParts(ref.registryName, repository, Keyword(ref.kind), Split(ref.reference, '/'));
    }
  }

  /** Trimming "/v2/" + p, for a p without a final slash, and splitting it. */
  lemma V2Segments(p: string)
    requires p != "" && !EndsInSlash(p)
    ensures Trim("/v2/" + p, IsSlash) == "v2/" + p
    ensures DropV2(Split("v2/" + p, '/')) == Split(p, '/')
  {
    var t := "v2/" + p;
    assert ("/v2/" + p)[1..] == t;
    assert t[0] == 'v' && t[|t| - 1] == p[|p| - 1];
    assert TrimLeft("/v2/" + p, IsSlash) == TrimLeft(t, IsSlash);
    TrimIsTrimmed(t, IsSlash);
    assert t == "v2" + ['/'] + p;
    IndexAfter("v2", '/', p);
    assert t[..2] == "v2" && t[3..] == p;
  }

  lemma PrintEnds(ref: Reference)
    requires WellFormed(ref)
    ensures Print(ref) != "" && !EndsInSlash(Print(ref))
  {
    var last := if ref.kind.Repository? then ref.repositoryName else ref.reference;
    assert Print(ref)[|Print(ref)| - 1] == last[|last| - 1];
  }

  /** Printing any well-formed reference and parsing it gives the reference back. */
  lemma PrintThenParse(ref: Reference, rawQuery: string, fragment: string)
    requires WellFormed(ref)
    ensures Parse(Some(Url(ref.registryName + HOST_SUFFIX, "/v2/" + Print(ref), rawQuery, fragment))) == Ok(ref)
  {
    var host := ref.registryName + HOST_SUFFIX;
    assert host[|host| - |HOST_SUFFIX|..] == HOST_SUFFIX && host[..|host| - |HOST_SUFFIX|] == ref.registryName;
    PrintEnds(ref);
    V2Segments(Print(ref));
    SegmentsPrint(ref);
    SplitJoin(Segments(ref), '/');
    SegmentsParse(ref);
  }

  /** Dropping a leading "v2" from the segments drops it from the path. */
  lemma DropV2Path(path: string)
    ensures var segments := DropV2(Split(path, '/'));
            && SepFree(segments, '/')
            && (path == Join(segments, '/') || segments == [] || path == "v2/" + Join(segments, '/'))
  {
    var all := Split(path, '/');
    SplitSepFree(path, '/');
    JoinSplit(path, '/');
    if all[0] == "v2" && |all| > 1 {
      assert all == ["v2"] + all[1..];
      JoinAppend(["v2"], all[1..], '/');
    }
  }

  lemma SuffixEnds(prefix: string, s: string)
    ensures s != "" ==> EndsInSlash(prefix + s) == EndsInSlash(s)
    ensures s == "" && EndsInSlash(prefix) ==> EndsInSlash(prefix + s)
  {
    assert s == "" ==> prefix + s == prefix;
  }

  lemma DropV2Ends(path: string)
    requires Trimmed(path, IsSlash)
    ensures var segments := DropV2(Split(path, '/'));
            && SepFree(segments, '/') && !EndsInSlash(Join(segments, '/'))
            && (path == Join(segments, '/') || segments == [] || path == "v2/" + Join(segments, '/'))
  {
    DropV2Path(path);
    SuffixEnds("v2/", Join(DropV2(Split(path, '/')), '/'));
  }

  /** A parse succeeds only with a well-formed reference, and that reference prints as the trimmed path, after "v2". */
  lemma ParseThenPrint(u: Url, ref: Reference)
    requires Parse(Some(u)) == Ok(ref)
    ensures WellFormed(ref) && u.hostname == ref.registryName + HOST_SUFFIX == ref.registryName + ".azurecr.io"
    ensures Trim(u.path, IsSlash) == Print(ref) || Trim(u.path, IsSlash) == "v2/" + Print(ref)
  {
    var registryName := ParsedPath(u, ref);
    var path := Trim(u.path, IsSlash);
    TrimIsTrimmed(u.path, IsSlash);
    DropV2Ends(path);
    PrintBack(registryName, DropV2(Split(path, '/')), ref);
  }

  lemma ParsedPath(u: Url, ref: Reference) returns (registryName: string)
    requires Parse(Some(u)) == Ok(ref)
    ensures u.hostname == registryName + HOST_SUFFIX && HOST_SUFFIX == ".azurecr.io"
    ensures var segments := DropV2(Split(Trim(u.path, IsSlash), '/'));
            segments != [] && ParseSegments(registryName, segments) == Ok(ref)
  {
    registryName := u.hostname[..|u.hostname| - |HOST_SUFFIX|];
  }

  lemma PartsPrintBack(repository: seq<string>, keyword: string, reference: seq<string>)
    requires repository != [] && reference != []
    requires !EndsInSlash(Join(repository + ([keyword] + reference), '/'))
    ensures Join(reference, '/') != "" && !EndsInSlash(Join(reference, '/'))
  {
    PartsPrint(repository, keyword, reference);
    var prefix := Join(repository, '/') + ("/" + keyword + "/");
    assert Path(Join(repository, '/'), keyword, Join(reference, '/')) == prefix + Join(reference, '/');
    SuffixEnds(prefix, Join(reference, '/'));
  }

  lemma KeywordNamesKind(segment: string)
    requires KindOf(segment).Some?
    ensures !KindOf(segment).value.Repository? && Keyword(KindOf(segment).value) == segment
  {
  }

  lemma KindNamesKeyword(kind: Kind)
    requires !kind.Repository?
    ensures KindOf(Keyword(kind)) == Some(kind)
  {
  }

  lemma KeywordFreePrefix(segments: seq<string>, n: nat)
    requires n <= |segments| && KeywordFree(segments, n) && SepFree(segments, '/') && n > 0
    ensures SepFree(segments[..n], '/') && KeywordFreeName(Join(segments[..n], '/'))
  {
    SplitJoin(segments[..n], '/');
  }

  lemma PartsWellFormed(ref: Reference, repository: seq<string>, reference: seq<string>)
    requires !ref.kind.Repository? && repository != [] && reference != []
    requires ref.repositoryName == Join(repository, '/') && ref.reference == Join(reference, '/')
    requires ref.repositoryName != "" && KeywordFreeName(ref.repositoryName)
    requires !EndsInSlash(Join(repository + ([Keyword(ref.kind)] + reference), '/'))
    ensures WellFormed(ref) && Print(ref) == Join(repository + ([Keyword(ref.kind)] + reference), '/')
  {
    PartsPrint(repository, Keyword(ref.kind), reference);
    PartsPrintBack(repository, Keyword(ref.kind), reference);
  }

  /** What a successful parse of segments says about them. */
  lemma ParsedParts(registryName: string, segments: seq<string>, end: nat, ref: Reference)
    requires end <= |segments| && (end < |segments| ==> KindOf(segments[end]).Some?)
    requires ParseAt(registryName, segments, end) == Ok(ref)
    ensures ref.registryName == registryName
    ensures end > 0 && ref.repositoryName == Join(segments[..end], '/') != ""
    ensures end == |segments| ==> ref.kind.Repository? && ref.reference == ""
    ensures end < |segments| ==> end + 1 < |segments| && ref.reference == Join(segments[end + 1..], '/')
    ensures end < |segments| ==> !ref.kind.Repository? && Keyword(ref.kind) == segments[end]
  {
    if end < |segments| {
      KeywordNamesKind(segments[end]);
    }
  }

  lemma CutAt(segments: seq<string>, end: nat)
    requires end < |segments|
    ensures segments == segments[..end] + ([segments[end]] + segments[end + 1..])
  {
  }

  lemma PrintBack(registryName: string, segments: seq<string>, ref: Reference)
    requires SepFree(segments, '/') && ParseSegments(registryName, segments) == Ok(ref)
    requires !EndsInSlash(Join(segments, '/'))
    ensures WellFormed(ref) && Print(ref) == Join(segments, '/') && ref.registryName == registryName
  {
    ParsedParts(registryName, segments, RepositoryEnd(segments), ref);
    PrintBackAt(segments, RepositoryEnd(segments), ref);
  }

  lemma PrintBackAt(segments: seq<string>, end: nat, ref: Reference)
    requires 0 < end <= |segments| && SepFree(segments, '/') && KeywordFree(segments, end)
    requires ref.repositoryName == Join(segments[..end], '/') != "" && !EndsInSlash(Join(segments, '/'))
    requires end == |segments| ==> ref.kind.Repository? && ref.reference == ""
    requires end < |segments| ==> end + 1 < |segments| && ref.reference == Join(segments[end + 1..], '/')
    requires end < |segments| ==> !ref.kind.Repository? && Keyword(ref.kind) == segments[end]
    ensures WellFormed(ref) && Print(ref) == Join(segments, '/')
  {
    KeywordFreePrefix(segments, end);
    if end == |segments| {
      assert segments[..end] == segments;
    } else {
      CutAt(segments, end);
      PartsWellFormed(ref, segments[..end], segments[end + 1..]);
    }
  }

  // ---------------------------------------------------------------------------
  // Blob URLs
  // ---------------------------------------------------------------------------

  const DIGEST_PREFIX := "sha256:"

  function BuildACRBlobURL(u: Option<Url>, repositoryName: string, digest: string): Result<Url> {
    if repositoryName == "" then Err(MissingRepository)
    else if !(DIGEST_PREFIX <= digest) then Err(UnsupportedDigest)
    else if u.None? then Err(BadUrl)
    else if !HasSuffix(u.value.hostname, HOST_SUFFIX) then Err(NotAcr)
    else Ok(u.value.(path := "/v2/" + Path(repositoryName, "blobs", digest), rawQuery := "", fragment := ""))
  }

  lemma {:induction false} TrimRightKeepsHead(s: string)
    requires s != "" && s[0] != '/'
    ensures TrimRight(s, IsSlash) != "" && !EndsInSlash(TrimRight(s, IsSlash))
    ensures TrimRight(s, IsSlash) == s <==> !EndsInSlash(s)
    decreases |s|
  {
    if IsSlash(s[|s| - 1]) {
      TrimRightKeepsHead(s[..|s| - 1]);
      TrimRightStops(s[..|s| - 1], IsSlash);
    }
  }

  lemma {:induction false} TrimRightAfter(prefix: string, s: string)
    requires s != "" && s[0] != '/'
    ensures TrimRight(prefix + s, IsSlash) == prefix + TrimRight(s, IsSlash)
    decreases |s|
  {
    assert (prefix + s)[|prefix + s| - 1] == s[|s| - 1];
    if IsSlash(s[|s| - 1]) {
      assert (prefix + s)[..|prefix + s| - 1] == prefix + s[..|s| - 1];
      TrimRightAfter(prefix, s[..|s| - 1]);
    }
  }

  /** Slashes at the end of a digest do not survive the trimming of the path. */
  lemma TrimBlobPath(repository: string, digest: string)
    requires digest != "" && digest[0] != '/'
    ensures Trim("/v2/" + Path(repository, "blobs", digest), IsSlash) ==
            Trim("/v2/" + Path(repository, "blobs", TrimRight(digest, IsSlash)), IsSlash)
  {
    var prefix := "v2/" + (repository + "/blobs/");
    var t := TrimRight(digest, IsSlash);
    TrimRightKeepsHead(digest);
    TrimRightStops(digest, IsSlash);
    TrimRightKeepsHead(t);
    SlashPath(repository, digest);
    SlashPath(repository, t);
    TrimRightAfter(prefix, digest);
    TrimRightAfter(prefix, t);
  }

  lemma SlashPath(repository: string, digest: string)
    ensures TrimLeft("/v2/" + Path(repository, "blobs", digest), IsSlash) == ("v2/" + (repository + "/blobs/")) + digest
  {
    var p := "/v2/" + Path(repository, "blobs", digest);
    var q := ("v2/" + (repository + "/blobs/")) + digest;
    assert p == "/" + q;
    assert p[1..] == q && q[0] == 'v';
    assert TrimLeft(q, IsSlash) == q;
  }

  lemma ParseByTrimmedPath(hostname: string, p: string, q: string)
    requires Trim(p, IsSlash) == Trim(q, IsSlash)
    ensures Parse(Some(Url(hostname, p, "", ""))) == Parse(Some(Url(hostname, q, "", "")))
  {
  }

  /** For every URL that parses and every sha256 digest, the blob URL is built and parses back to the same registry
  and repository, with kind blob; the reference is the digest exactly when the digest does not end in a slash. */
  lemma BlobUrlRoundTrip(u: Url, ref: Reference, digest: string)
    requires Parse(Some(u)) == Ok(ref) && "sha256:" <= digest
    ensures var blob := BuildACRBlobURL(Some(u), ref.repositoryName, digest);
            && blob.Ok?
            && blob.value == Url(ref.registryName + ".azurecr.io",
                                 "/v2/" + (ref.repositoryName + ("/blobs/" + digest)), "", "")
            && Parse(Some(blob.value)) == Ok(ref.(kind := Blob, reference := TrimRight(digest, IsSlash)))
            && (Parse(Some(blob.value)) == Ok(ref.(kind := Blob, reference := digest)) <==> !EndsInSlash(digest))
  {
    ParseThenPrint(u, ref);
    assert digest[0] == DIGEST_PREFIX[0];
    BlobUrlShape(ref.repositoryName, digest);
    BlobUrlParses(ref, digest);
    HostHasSuffix(ref.registryName);
    TrimRightKeepsHead(digest);
  }

  lemma BlobUrlShape(repository: string, digest: string)
    ensures "/v2/" + Path(repository, "blobs", digest) == "/v2/" + (repository + ("/blobs/" + digest))
  {
    assert "/" + "blobs" + "/" + digest == "/blobs/" + digest;
  }

  lemma HostHasSuffix(registryName: string)
    ensures HasSuffix(registryName + HOST_SUFFIX, HOST_SUFFIX)
  {
  }

  lemma BlobUrlParses(ref: Reference, digest: string)
    requires WellFormed(ref) && digest != "" && digest[0] == 's'
    ensures Parse(Some(Url(ref.registryName + HOST_SUFFIX, "/v2/" + Path(ref.repositoryName, "blobs", digest),
                           "", ""))) ==
            Ok(ref.(kind := Blob, reference := TrimRight(digest, IsSlash)))
  {
    var kept := TrimRight(digest, IsSlash);
    var blob := ref.(kind := Blob, reference := kept);
    TrimRightKeepsHead(digest);
    PrintThenParse(blob, "", "");
    TrimBlobPath(ref.repositoryName, digest);
    ParseByTrimmedPath(ref.registryName + HOST_SUFFIX, "/v2/" + Path(ref.repositoryName, "blobs", digest),
                       "/v2/" + Print(blob));
  }

  // ---------------------------------------------------------------------------
  // Resolving a module URL
  // ---------------------------------------------------------------------------

  datatype Layer = Layer(mediaType: string, digest: string)

  predicate IsWasmLayerMediaType(mediaType: string) {
    || mediaType == "application/wasm"
    || mediaType == "application/vnd.module.wasm.content.layer.v1+wasm"
    || mediaType == "application/vnd.wasm.content.layer.v1+wasm"
  }

  /** The only layer whatever its type, or the first WebAssembly layer of several. */
  ghost predicate Selects(layers: seq<Layer>, i: int) {
    && 0 <= i < |layers|
    && (|layers| > 1 ==> IsWasmLayerMediaType(layers[i].mediaType)
                         && forall j :: 0 <= j < i ==> !IsWasmLayerMediaType(layers[j].mediaType))
  }

  method SelectWASMLayer(layers: seq<Layer>) returns (r: Result<Layer>)
    ensures r.Ok? <==> exists i :: Selects(layers, i)
    ensures r.Ok? ==> exists i :: Selects(layers, i) && r.value == layers[i]
    ensures r == Err(NoLayers) <==> layers == []
    ensures |layers| == 1 ==> r == Ok(layers[0])
    ensures |layers| > 1 ==>
              var wasm := {"application/wasm", "application/vnd.module.wasm.content.layer.v1+wasm",
                           "application/vnd.wasm.content.layer.v1+wasm"};
              && (r.Ok? ==> r.value in layers && r.value.mediaType in wasm)
              && (r.Err? ==> forall i :: 0 <= i < |layers| ==> layers[i].mediaType !in wasm)
  {
    if |layers| == 0 {
      return Err(NoLayers);
    }
    if |layers| == 1 {
      assert Selects(layers, 0);
      return Ok(layers[0]);
    }
    for i := 0 to |layers|
      invariant forall j :: 0 <= j < i ==> !IsWasmLayerMediaType(layers[j].mediaType)
    {
      if IsWasmLayerMediaType(layers[i].mediaType) {
        assert Selects(layers, i);
        return Ok(layers[i]);
      }
    }
    return Err(NoWasmLayer);
  }

  /** A resolved URL and digest, given the layer that the manifest yields. */
  function Resolve(u: Url, ref: Reference, layer: Result<Layer>): Result<(Url, string)> {
    if !ref.kind.Manifest? then Ok((u, ref.reference))
    else if layer.Err? then Err(layer.error)
    else
      var blob := BuildACRBlobURL(Some(u), ref.repositoryName, layer.value.digest);
      if blob.Err? then Err(blob.error) else Ok((blob.value, layer.value.digest))
  }

  /** A manifest resolves to the blob of the selected layer in the same repository, or fails. */
  lemma ManifestResolvesToBlob(u: Url, ref: Reference, layer: Result<Layer>)
    requires Parse(Some(u)) == Ok(ref) && ref.kind.Manifest?
    ensures Resolve(u, ref, layer).Ok? <==> layer.Ok? && DIGEST_PREFIX <= layer.value.digest
    ensures Resolve(u, ref, layer).Ok? ==>
              var (blob, digest) := Resolve(u, ref, layer).value;
              digest == layer.value.digest
                  && Parse(Some(blob)) == Ok(ref.(kind := Blob, reference := TrimRight(digest, IsSlash)))
  {
    if layer.Ok? && DIGEST_PREFIX <= layer.value.digest {
      BlobUrlRoundTrip(u, ref, layer.value.digest);
    } else {
      ParseThenPrint(u, ref);
    }
  }

  /** Everything that is not a manifest is handed on as it is, with its own reference for a digest. */
  lemma OtherKindsPassThrough(u: Url, ref: Reference, layer: Result<Layer>)
    requires !ref.kind.Manifest?
    ensures Resolve(u, ref, layer) == Ok((u, ref.reference))
  {
  }

  /** Resolving what was resolved changes nothing, exactly when the digest does not end in a slash. */
  lemma ResolveIsIdempotent(u: Url, ref: Reference, layer: Result<Layer>, again: Result<Layer>)
    requires Parse(Some(u)) == Ok(ref) && ref.kind.Manifest? && Resolve(u, ref, layer).Ok?
    ensures var (blob, digest) := Resolve(u, ref, layer).value;
            && Parse(Some(blob)).Ok?
            && (Resolve(blob, Parse(Some(blob)).value, again) == Ok((blob, digest)) <==> !EndsInSlash(digest))
  {
    ManifestResolvesToBlob(u, ref, layer);
    var digest := layer.value.digest;
    assert digest[0] == DIGEST_PREFIX[0];
    TrimRightKeepsHead(digest);
  }

  /** A digest whose final slash is lost, whatever the manifest URL. */
  lemma TrailingSlashIsLost(u: Url, ref: Reference)
    requires Parse(Some(u)) == Ok(ref)
    ensures var blob := BuildACRBlobURL(Some(u), ref.repositoryName, "sha256:ab/");
            blob.Ok? && Parse(Some(blob.value)) == Ok(ref.(kind := Blob, reference := "sha256:ab"))
  {
    BlobUrlRoundTrip(u, ref, "sha256:ab/");
    TrimOneSlash();
  }

  lemma TrimOneSlash()
    ensures TrimRight("sha256:ab/", IsSlash) == "sha256:ab"
  {
    var s := "sha256:ab/";
    assert s[..|s| - 1] == "sha256:ab" && s[|s| - 1] == '/' && s[|s| - 2] == 'b';
  }
}

/** Cache keys and digest checks: which bytes a cache key stands for.

Models `ModuleCacheKey.String` and `verifyModuleDigest` of internal/worker/engine.go.
SHA-256 followed by hex encoding is a parameter.
*/
module ModuleIdentity {
  import opened Text

  newtype uint8 = x: int | 0 <= x < 256
  type Bytes = seq<uint8>
  /** hex.EncodeToString(sha256.Sum256(bytes)) */
  type HexSha256 = Bytes -> string

  datatype CacheKey = CacheKey(moduleName: string, moduleURL: string, digest: string)

  const DIGEST_TAG: string := "@digest:"
  const URL_TAG: string := "@url:"

  function KeyString(k: CacheKey): string {
    if k.digest != "" then k.moduleName + DIGEST_TAG + k.digest
    else if k.moduleURL != "" then k.moduleName + URL_TAG + k.moduleURL
    else k.moduleName
  }

  datatype Verdict = Accepted | Invalid | Mismatch

  predicate IsHexDigit(c: char) {
    '0' <= c <= '9' || 'a' <= c <= 'f' || 'A' <= c <= 'F'
  }

  function LowerChar(c: char): char {
    if 'A' <= c <= 'Z' then (c as int + 32) as char else c
  }

  function Lower(s: string): string {
    seq(|s|, i requires 0 <= i < |s| => LowerChar(s[i]))
  }

  /** The lower-case hex digits of a digest that names SHA-256, or None when it is malformed. */
  function ParseDigest(digest: string): Option<string> {
    match Cut(digest, ':')
    case None => None
    case Some((algorithm, text)) =>
      if algorithm != "sha256" || text == "" then None
      else
        var expected := Lower(Trim(text, IsSpace));
        if |expected| != 64 || exists i :: 0 <= i < 64 && !IsHexDigit(expected[i]) then None else Some(expected)
  }

  function VerifyDigest(hash: HexSha256, bytes: Bytes, moduleDigest: string): Verdict {
    var d := Trim(moduleDigest, IsSpace);
    if d == "" then Accepted
    else match ParseDigest(d)
      case None => Invalid
      case Some(expected) => if hash(bytes) != expected then Mismatch else Accepted
  }

  /** Trimming the digest first, as the cache key does, does not change the verdict. */
  lemma VerifyTrimmed(hash: HexSha256, bytes: Bytes, moduleDigest: string)
    ensures VerifyDigest(hash, bytes, Trim(moduleDigest, IsSpace)) == VerifyDigest(hash, bytes, moduleDigest)
  {
    TrimIsTrimmed(moduleDigest, IsSpace);
    TrimIsTrimmed(Trim(moduleDigest, IsSpace), IsSpace);
  }

  /** `lower` spells the hex digits `text` in lower case. */
  predicate LowerCaseOf(text: string, lower: string) {
    && |text| == |lower|
    && forall i :: 0 <= i < |text| ==>
         if 'A' <= text[i] <= 'F' then lower[i] as int == text[i] as int + 32
         else lower[i] == text[i] && ('0' <= text[i] <= '9' || 'a' <= text[i] <= 'f')
  }

  /** A digest in the form of the OCI specification, in either case, is accepted exactly for bytes that hash to it. */
  lemma Sha256DigestIsChecked(hash: HexSha256, bytes: Bytes, text: string, lower: string)
    requires |text| == 64 && LowerCaseOf(text, lower)
    ensures VerifyDigest(hash, bytes, "sha256:" + text) == if hash(bytes) == lower then Accepted else Mismatch
  {
    var d := "sha256:" + text;
    assert d[0] == 's' && d[|d| - 1] == text[63];
    TrimIsTrimmed(d, IsSpace);
    Sha256DigestParses(text, lower);
  }

  lemma Sha256DigestParses(text: string, lower: string)
    requires |text| == 64 && LowerCaseOf(text, lower)
    ensures ParseDigest("sha256:" + text) == Some(lower)
  {
    Sha256DigestCuts(text);
    HexIsTrimmed(text, lower);
    assert forall i :: 0 <= i < 64 ==> IsHexDigit(lower[i]);
  }

  lemma Sha256DigestCuts(text: string)
    ensures Cut("sha256:" + text, ':') == Some(("sha256", text))
  {
    var d := "sha256:" + text;
    assert d == "sha256" + [':'] + text;
    IndexAfter("sha256", ':', text);
    assert d[..6] == "sha256" && d[7..] == text;
  }

  lemma HexIsTrimmed(text: string, lower: string)
    requires |text| > 0 && LowerCaseOf(text, lower)
    ensures Lower(Trim(text, IsSpace)) == lower
  {
    assert !IsSpace(text[0]) && !IsSpace(text[|text| - 1]);
    TrimIsTrimmed(text, IsSpace);
    assert forall i :: 0 <= i < |text| ==> LowerChar(text[i]) == lower[i];
  }

  /** A well-formed digest holds no '@': it is "sha256:", spaces, hex digits, spaces. */
  lemma WellFormedHasNoAt(digest: string)
    requires ParseDigest(digest).Some?
    ensures '@' !in digest
  {
    var i := Index(digest, ':');
    var text := digest[i + 1..];
    var hex := Trim(text, IsSpace);
    assert forall j :: 0 <= j < |hex| ==> Lower(hex)[j] == LowerChar(hex[j]);
    assert '@' !in hex;
    TrimKeepsOthers(text, '@');
    assert digest == digest[..i] + [':'] + text;
  }

  /** No bytes at all pass a digest that holds an '@'. */
  lemma AcceptedHasNoAt(hash: HexSha256, bytes: Bytes, digest: string)
    requires Trimmed(digest, IsSpace)
    requires VerifyDigest(hash, bytes, digest) == Accepted
    ensures '@' !in digest
  {
    TrimIsTrimmed(digest, IsSpace);
    if digest != "" {
      WellFormedHasNoAt(digest);
    }
  }

  /** Trimming spaces never drops a character that is not a space. */
  lemma {:induction false} TrimKeepsOthers(s: string, c: char)
    requires !IsSpace(c)
    ensures c in s ==> c in Trim(s, IsSpace)
  {
    TrimLeftKeepsOthers(s, c);
    TrimRightKeepsOthers(TrimLeft(s, IsSpace), c);
  }

  lemma {:induction false} TrimLeftKeepsOthers(s: string, c: char)
    requires !IsSpace(c)
    ensures c in s ==> c in TrimLeft(s, IsSpace)
  {
    if s != [] && IsSpace(s[0]) {
      TrimLeftKeepsOthers(s[1..], c);
    }
  }

  lemma {:induction false} TrimRightKeepsOthers(s: string, c: char)
    requires !IsSpace(c)
    ensures c in s ==> c in TrimRight(s, IsSpace)
  {
    if s != [] && IsSpace(s[|s| - 1]) {
      TrimRightKeepsOthers(s[..|s| - 1], c);
    }
  }

  // ---------------------------------------------------------------------------
  // When two keys share a cache slot
  // ---------------------------------------------------------------------------

  /** The identity a key is meant to stand for: a digest makes the URL irrelevant. */
  predicate SameModule(a: CacheKey, b: CacheKey) {
    a.moduleName == b.moduleName && a.digest == b.digest && (a.digest == "" ==> a.moduleURL == b.moduleURL)
  }

  lemma SplitAtFirst(a: string, c: char, x: string, b: string, y: string)
    requires c !in a && c !in b
    requires a + [c] + x == b + [c] + y
    ensures a == b && x == y
  {
    IndexAfter(a, c, x);
    IndexAfter(b, c, y);
    var s := a + [c] + x;
    assert s[..|a|] == a && s[|a| + 1..] == x;
    assert (b + [c] + y)[..|b|] == b && (b + [c] + y)[|b| + 1..] == y;
  }

  lemma SplitAtLast(a: string, c: char, x: string, b: string, y: string)
    requires c !in x && c !in y
    requires a + [c] + x == b + [c] + y
    ensures a == b && x == y
  {
    var s, t := a + [c] + x, b + [c] + y;
    assert forall i :: 0 <= i < |x| ==> s[|a| + 1 + i] == x[i];
    assert forall i :: 0 <= i < |y| ==> t[|b| + 1 + i] == y[i];
    assert s[|a|] == c && t[|b|] == c;
    assert |a| == |b|;
    assert s[..|a|] == a && s[|a| + 1..] == x;
    assert t[..|b|] == b && t[|b| + 1..] == y;
  }

  function Tail(k: CacheKey): string {
    if k.digest != "" then "digest:" + k.digest
    else if k.moduleURL != "" then "url:" + k.moduleURL
    else ""
  }

  lemma KeyStringShape(k: CacheKey)
    ensures KeyString(k) == if Tail(k) == "" then k.moduleName else k.moduleName + ['@'] + Tail(k)
  {
    assert DIGEST_TAG == ['@'] + "digest:";
    assert URL_TAG == ['@'] + "url:";
  }

  lemma TailInjective(a: CacheKey, b: CacheKey)
    requires Tail(a) == Tail(b)
    ensures a.digest == b.digest
    ensures a.digest == "" ==> a.moduleURL == b.moduleURL
  {
    if Tail(a) != "" {
      assert Tail(a)[0] == 'd' <==> a.digest != "";
      assert Tail(b)[0] == 'd' <==> b.digest != "";
      if a.digest != "" {
        assert Tail(a)[7..] == a.digest && Tail(b)[7..] == b.digest;
      } else {
        assert Tail(a)[4..] == a.moduleURL && Tail(b)[4..] == b.moduleURL;
      }
    }
  }

  /** For names without '@', two keys share a slot exactly when they mean the same module. */
  lemma KeyStringSeparates(a: CacheKey, b: CacheKey)
    requires '@' !in a.moduleName && '@' !in b.moduleName
    ensures KeyString(a) == KeyString(b) <==> SameModule(a, b)
  {
    KeyStringShape(a);
    KeyStringShape(b);
    if KeyString(a) == KeyString(b) {
      if Tail(a) != "" {
        assert KeyString(a)[|a.moduleName|] == '@';
      }
      if Tail(b) != "" {
        assert KeyString(b)[|b.moduleName|] == '@';
      }
      if Tail(a) != "" && Tail(b) != "" {
        SplitAtFirst(a.moduleName, '@', Tail(a), b.moduleName, Tail(b));
      }
      TailInjective(a, b);
    }
  }

  /** A key under which an entry can have been inserted: the engine trims its parts, downloads from its URL and
  accepts its digest. */
  predicate Insertable(k: CacheKey) {
    && k.moduleURL != ""
    && Trimmed(k.moduleName, IsSpace) && Trimmed(k.moduleURL, IsSpace) && Trimmed(k.digest, IsSpace)
    && (k.digest == "" || ParseDigest(k.digest).Some?)
  }

  /** `other` can be inserted in the slot of `k` without having passed the digest of `k`. */
  predicate Alias(k: CacheKey, other: CacheKey) {
    Insertable(other) && KeyString(other) == KeyString(k) && other.digest != k.digest
  }

  /** Cutting the slot at this "@url:" leaves a name and a URL that the engine would use. */
  predicate UrlAliasAt(slot: string, i: nat) {
    && i <= |slot| && URL_TAG <= slot[i..]
    && Trimmed(slot[..i], IsSpace) && slot[i + 5..] != "" && Trimmed(slot[i + 5..], IsSpace)
  }

  /** Cutting the slot at this "@digest:" leaves a name and a digest, not the given one, that the engine would use. */
  predicate DigestAliasAt(slot: string, i: nat, digest: string) {
    && i <= |slot| && DIGEST_TAG <= slot[i..]
    && Trimmed(slot[..i], IsSpace) && Trimmed(slot[i + 8..], IsSpace)
    && slot[i + 8..] != digest && ParseDigest(slot[i + 8..]).Some?
  }

  predicate AliasAt(k: CacheKey, i: nat) {
    UrlAliasAt(KeyString(k), i) || DigestAliasAt(KeyString(k), i, k.digest)
  }

  /** Some tag in the slot can be read as the separator of another key. A caller can check this before the call. */
  predicate HasAlias(k: CacheKey) {
    exists i: nat :: i <= |KeyString(k)| && AliasAt(k, i)
  }

  lemma CutAtTag(s: string, i: nat, tag: string)
    requires i <= |s| && tag <= s[i..]
    ensures s == s[..i] + tag + s[i + |tag|..]
  {
    assert s[i..] == tag + s[i..][|tag|..];
    assert s[i..][|tag|..] == s[i + |tag|..];
  }

  lemma TagAfter(name: string, tag: string, rest: string)
    ensures var s := name + tag + rest; tag <= s[|name|..] && s[..|name|] == name && s[|name| + |tag|..] == rest
  {
    var s := name + tag + rest;
    assert s[|name|..] == tag + rest;
  }

  /** The alias that a tag in the slot stands for. */
  lemma AliasFrom(k: CacheKey, i: nat) returns (other: CacheKey)
    requires k.digest != "" && AliasAt(k, i)
    ensures Alias(k, other)
    ensures other.digest == "" <==> UrlAliasAt(KeyString(k), i)
  {
    var s := KeyString(k);
    if UrlAliasAt(s, i) {
      other := CacheKey(s[..i], s[i + 5..], "");
      CutAtTag(s, i, URL_TAG);
    } else {
      other := CacheKey(s[..i], "u", s[i + 8..]);
      CutAtTag(s, i, DIGEST_TAG);
    }
  }

  /** The tag that an alias puts in the slot. */
  lemma AliasTo(k: CacheKey, other: CacheKey)
    requires k.digest != "" && Alias(k, other)
    ensures |other.moduleName| <= |KeyString(k)| && AliasAt(k, |other.moduleName|)
  {
    if other.digest == "" {
      TagAfter(other.moduleName, URL_TAG, other.moduleURL);
    } else {
      TagAfter(other.moduleName, DIGEST_TAG, other.digest);
    }
  }

  /** Exactly which requests for a digest can find their slot filled by an entry that was not checked against it. */
  lemma DigestSlotIsExclusive(k: CacheKey)
    requires k.digest != ""
    ensures HasAlias(k) <==> exists other :: Alias(k, other)
  {
    if HasAlias(k) {
      var i: nat :| i <= |KeyString(k)| && AliasAt(k, i);
      var other := AliasFrom(k, i);
    }
    if other :| Alias(k, other) {
      AliasTo(k, other);
    }
  }

  /** Keys that share a slot and a digest share the name. */
  lemma SameDigestSameName(a: CacheKey, b: CacheKey)
    requires a.digest == b.digest != "" && KeyString(a) == KeyString(b)
    ensures a.moduleName == b.moduleName
  {
    var s, t := KeyString(a), KeyString(b);
    assert s[..|a.moduleName|] == a.moduleName && t[..|b.moduleName|] == b.moduleName;
  }

  // --- digests without '@' ---------------------------------------------------

  /** A "@url:" inside the name with no space on either side. */
  predicate TagInName(name: string, i: nat) {
    && i + 5 <= |name| && URL_TAG <= name[i..]
    && (i == 0 || !IsSpace(name[i - 1])) && (i + 5 == |name| || !IsSpace(name[i + 5]))
  }

  /** For a digest without '@', as every well-formed one is, the name decides: there is an alias exactly when the
  name holds a "@url:" with no space on either side. */
  lemma PlainDigestAlias(k: CacheKey)
    requires k.digest != "" && '@' !in k.digest && Trimmed(k.moduleName, IsSpace) && Trimmed(k.digest, IsSpace)
    ensures HasAlias(k) <==> exists i: nat :: i <= |k.moduleName| && TagInName(k.moduleName, i)
  {
    if i: nat :| i <= |KeyString(k)| && AliasAt(k, i) {
      AliasIsInName(k, i);
    }
    if i: nat :| i <= |k.moduleName| && TagInName(k.moduleName, i) {
      NameTagIsAlias(k, i);
      assert AliasAt(k, i);
    }
  }

  /** A request shares its slot with a key that has no digest, whatever its name, when its digest holds the tag: for
  instance name "m" and digest "sha256:x@url:e". */
  lemma TagInDigestIsAlias(name: string, head: string, url: string)
    requires Trimmed(name, IsSpace) && head != "" && !IsSpace(head[|head| - 1])
    requires url != "" && Trimmed(url, IsSpace)
    ensures HasAlias(CacheKey(name, "", head + URL_TAG + url))
  {
    var k := CacheKey(name, "", head + URL_TAG + url);
    var prefix := name + DIGEST_TAG + head;
    assert KeyString(k) == prefix + URL_TAG + url;
    assert prefix[0] == (if name == "" then '@' else name[0]) && prefix[|prefix| - 1] == head[|head| - 1];
    TagAfter(prefix, URL_TAG, url);
    assert AliasAt(k, |prefix|);
  }

  /** A name that holds "@url:" and still shares its slot with no one, because of the space before the tag. */
  lemma SpacedTagIsNoAlias(digest: string)
    requires digest != "" && '@' !in digest && Trimmed(digest, IsSpace)
    ensures !HasAlias(CacheKey("x @url:y", "", digest))
  {
    var name := "x @url:y";
    PlainDigestAlias(CacheKey(name, "", digest));
    forall i: nat | i <= |name|
      ensures !TagInName(name, i)
    {
      if i + 5 <= |name| && URL_TAG <= name[i..] {
        assert name[i] == URL_TAG[0];
        assert i == 2;
      }
    }
  }

  lemma NameTagIsAlias(k: CacheKey, i: nat)
    requires k.digest != "" && Trimmed(k.moduleName, IsSpace) && Trimmed(k.digest, IsSpace)
    requires TagInName(k.moduleName, i)
    ensures i <= |KeyString(k)| && UrlAliasAt(KeyString(k), i)
  {
    var name := k.moduleName;
    var rest := name[i + 5..] + (DIGEST_TAG + k.digest);
    CutAtTag(name, i, URL_TAG);
    Regroup(name[..i], URL_TAG, name[i + 5..], DIGEST_TAG, k.digest);
    TagAfter(name[..i], URL_TAG, rest);
    TrimmedEnds(name[i + 5..], k.digest);
  }

  lemma Regroup(a: string, b: string, c: string, d: string, e: string)
    ensures (a + b + c) + d + e == a + b + (c + (d + e))
  {
  }

  lemma TrimmedEnds(head: string, digest: string)
    requires digest != "" && Trimmed(digest, IsSpace) && (head == "" || !IsSpace(head[0]))
    ensures Trimmed(head + (DIGEST_TAG + digest), IsSpace)
  {
    var s := head + (DIGEST_TAG + digest);
    assert s[0] == if head == "" then '@' else head[0];
    assert s[|s| - 1] == digest[|digest| - 1];
  }

  lemma AliasIsInName(k: CacheKey, i: nat)
    requires k.digest != "" && '@' !in k.digest && i <= |KeyString(k)| && AliasAt(k, i)
    ensures TagInName(k.moduleName, i)
  {
    KeyStringShape(k);
    var name, tail, s := k.moduleName, Tail(k), KeyString(k);
    assert '@' !in tail && tail[0] == 'd';
    if UrlAliasAt(s, i) {
      CutAtTag(s, i, URL_TAG);
      assert s[i..i + 5] == URL_TAG;
      UrlTagStarts(name, tail, i);
      UrlTagFits(name, tail, i);
      assert i > 0 ==> s[..i][i - 1] == name[i - 1];
      assert i + 5 < |name| ==> s[i + 5..][0] == name[i + 5];
    } else {
      DigestTagIsOwn(k, i);
      assert false;
    }
  }

  lemma DigestTagIsOwn(k: CacheKey, i: nat)
    requires k.digest != "" && '@' !in k.digest
    requires i <= |KeyString(k)| && DIGEST_TAG <= KeyString(k)[i..]
    requires ParseDigest(KeyString(k)[i + 8..]).Some?
    ensures KeyString(k)[i + 8..] == k.digest
  {
    var s := KeyString(k);
    CutAtTag(s, i, DIGEST_TAG);
    WellFormedHasNoAt(s[i + 8..]);
    SplitAtDigestTag(s[..i], s[i + 8..], k.moduleName, k.digest);
  }

  lemma DigestTagShape(name: string, digest: string)
    ensures name + DIGEST_TAG + digest == name + ['@'] + ("digest:" + digest)
    ensures ("digest:" + digest)[7..] == digest
  {
    assert DIGEST_TAG == ['@'] + "digest:";
  }

  lemma SplitAtDigestTag(a: string, x: string, b: string, y: string)
    requires '@' !in x && '@' !in y && a + DIGEST_TAG + x == b + DIGEST_TAG + y
    ensures a == b && x == y
  {
    DigestTagShape(a, x);
    DigestTagShape(b, y);
    SplitAtLast(a, '@', "digest:" + x, b, "digest:" + y);
  }

  /** Before a tail without '@' that starts with 'd', an "@url:" can only start inside the name. */
  lemma UrlTagStarts(name: string, tail: string, n: nat)
    requires '@' !in tail && tail != "" && tail[0] == 'd'
    requires n + 5 <= |name + ['@'] + tail| && (name + ['@'] + tail)[n..n + 5] == URL_TAG
    ensures n < |name|
  {
    var s := name + ['@'] + tail;
    assert s[n] == s[n..n + 5][0] && s[n + 1] == s[n..n + 5][1];
    assert forall i :: |name| < i < |s| ==> s[i] == tail[i - |name| - 1];
  }

  /** An "@url:" that starts inside the name also ends inside it. */
  lemma UrlTagFits(name: string, tail: string, n: nat)
    requires n < |name| && n + 5 <= |name + ['@'] + tail|
    requires (name + ['@'] + tail)[n..n + 5] == URL_TAG
    ensures n + 5 <= |name| && URL_TAG <= name[n..]
  {
    var s := name + ['@'] + tail;
    assert forall i :: 0 <= i < 5 ==> s[n + i] == URL_TAG[i];
    assert s[|name|] == '@';
    assert n + 5 <= |name|;
    assert name[n..][..5] == URL_TAG;
  }
}

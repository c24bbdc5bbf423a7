/** The policy a build's evidence has to meet before its image may be registered. */
module AzureEvidence {
  import opened Wrappers
  import opened ByteStrings
  import opened UrlText
  import opened AzureBuildRef

  const SCHEME: Bytes := "oci://"
  const MARKER: Bytes := "@sha256:"

  /** The text before and after the first occurrence of `sep`, and whether there is one. */
  function CutString(s: Bytes, sep: Bytes): (r: (Bytes, Bytes, bool))
    requires sep != []
    ensures r.2 ==> |r.1| < |s|
  {
    if sep <= s then ([], s[|sep|..], true)
    else if s == [] then ([], [], false)
    else
      var t := CutString(s[1..], sep);
      ([s[0]] + t.0, t.1, t.2)
  }

  /** strings.Split. */
  function Split(s: Bytes, sep: Bytes): (parts: seq<Bytes>)
    requires sep != []
    ensures parts != []
    decreases |s|
  {
    var c := CutString(s, sep);
    if c.2 then [c.0] + Split(c.1, sep) else [s]
  }

  /** immutableAzureEvidenceRef. */
  predicate Immutable(ref: Bytes) {
    var parts := Split(ref, MARKER);
    HasPrefix(ref, SCHEME) && |parts| == 2 && TrimSpace(parts[0]) != SCHEME && |parts[1]| == 64
    && forall c :: c in parts[1] ==> IsHex(c)
  }

  function TrimSlash(s: Bytes): Bytes {
    if s != [] && s[|s| - 1] == '/' then s[..|s| - 1] else s
  }

  /** One reference of validateAzureEvidence: pinned, and in the policy's registry repository. */
  predicate AcceptedRef(registry: Bytes, ref: Bytes) {
    var prefix := TrimSlash(registry);
    var repository := CutString(ref, MARKER).0;
    Immutable(ref) && (repository == prefix || HasPrefix(repository, prefix + "/"))
  }

  /** validateAzureEvidence for a policy that requires evidence. */
  predicate Accepted(registry: Bytes, evidence: Option<Evidence>) {
    && evidence.Some?
    && ToLower(TrimSpace(evidence.value.status)) == "passed"
    && AcceptedRef(registry, evidence.value.sbomRef)
    && AcceptedRef(registry, evidence.value.vulnerabilityRef)
    && AcceptedRef(registry, evidence.value.provenanceRef)
    && AcceptedRef(registry, evidence.value.signatureRef)
  }

  ghost predicate Occurs(s: Bytes, sep: Bytes, i: nat) {
    i <= |s| && sep <= s[i..]
  }

  /** `repository@sha256:digest`, where the marker occurs nowhere else and the digest is 64 hex digits. */
  ghost predicate Pinned(ref: Bytes, repository: Bytes, digest: Bytes) {
    && ref == repository + MARKER + digest
    && (forall i: nat :: i < |repository| ==> !Occurs(ref, MARKER, i))
    && |digest| == 64 && (forall c :: c in digest ==> IsHex(c))
  }

  lemma OccursInTail(s: Bytes, sep: Bytes)
    requires s != [] && !(sep <= s)
    ensures forall i: nat :: Occurs(s, sep, i) <==> i > 0 && Occurs(s[1..], sep, i - 1)
  {
    assert s[0..] == s;
    forall i: nat | 0 < i <= |s| ensures s[i..] == s[1..][i - 1..] {
    }
  }

  lemma HeadAndTail(s: Bytes)
    requires s != []
    ensures [s[0]] + s[1..] == s
  {
  }

  lemma HeadAndParts(head: Bytes, a: Bytes, b: Bytes, c: Bytes)
    ensures head + (a + b + c) == head + a + b + c
  {
  }

  lemma {:induction false} CutStringFirst(s: Bytes, sep: Bytes)
    requires sep != []
    ensures var c := CutString(s, sep);
      if c.2 then s == c.0 + sep + c.1 && forall i: nat :: i < |c.0| ==> !Occurs(s, sep, i)
      else c.0 == s && forall i: nat :: !Occurs(s, sep, i)
  {
    if sep <= s {
      assert s == [] + sep + s[|sep|..];
    } else if s != [] {
      CutStringFirst(s[1..], sep);
      var t := CutString(s[1..], sep);
      OccursInTail(s, sep);
      HeadAndTail(s);
      if t.2 {
        HeadAndParts([s[0]], t.0, sep, t.1);
      }
    }
  }

  lemma {:induction false} CutStringAt(before: Bytes, sep: Bytes, after: Bytes)
    requires sep != []
    requires forall i: nat :: i < |before| ==> !Occurs(before + sep + after, sep, i)
    ensures CutString(before + sep + after, sep) == (before, after, true)
  {
    var s := before + sep + after;
    if before == [] {
      assert s == sep + after;
    } else {
      assert s[1..] == before[1..] + sep + after;
      assert s[0..] == s && !Occurs(s, sep, 0);
      forall i: nat | i < |before[1..]| ensures !Occurs(s[1..], sep, i) {
        assert s[1..][i..] == s[i + 1..] && !Occurs(s, sep, i + 1);
      }
      CutStringAt(before[1..], sep, after);
      assert [s[0]] + before[1..] == before;
    }
  }

  lemma {:induction false} CutStringAbsent(s: Bytes, sep: Bytes)
    requires sep != [] && sep[0] !in s
    ensures !CutString(s, sep).2
  {
    if s != [] {
      CutStringAbsent(s[1..], sep);
    }
  }

  lemma DigestHasNoMarker(digest: Bytes)
    requires forall c :: c in digest ==> IsHex(c)
    ensures Split(digest, MARKER) == [digest]
  {
    CutStringAbsent(digest, MARKER);
  }

  /** Splitting in two is the same as being pinned by one marker. */
  lemma ImmutableIsPinned(ref: Bytes)
    ensures Immutable(ref)
      <==> exists repository, digest :: Pinned(ref, repository, digest) && HasPrefix(ref, SCHEME)
             && TrimSpace(repository) != SCHEME
  {
    CutStringFirst(ref, MARKER);
    var c := CutString(ref, MARKER);
    if Immutable(ref) {
      var parts := Split(ref, MARKER);
      var tail := Split(c.1, MARKER);
      assert parts == [c.0] + tail && |tail| == 1;
      assert !CutString(c.1, MARKER).2;
      assert Pinned(ref, c.0, c.1);
    }
    forall repository, digest | Pinned(ref, repository, digest) && HasPrefix(ref, SCHEME)
      && TrimSpace(repository) != SCHEME
      ensures Immutable(ref)
    {
      CutStringAt(repository, MARKER, digest);
      DigestHasNoMarker(digest);
      assert Split(ref, MARKER) == [repository, digest];
    }
  }

  /**
   What the gate lets through, reference by reference: `oci://...@sha256:<64 hex>` with one marker, whose
   repository is the policy's registry repository or lies under it.
   */
  lemma AcceptedRefIsPinnedUnderRegistry(registry: Bytes, ref: Bytes)
    ensures AcceptedRef(registry, ref)
      <==> exists repository, digest :: Pinned(ref, repository, digest) && HasPrefix(ref, SCHEME)
             && TrimSpace(repository) != SCHEME
             && (repository == TrimSlash(registry) || HasPrefix(repository, TrimSlash(registry) + "/"))
  {
    ImmutableIsPinned(ref);
    CutStringFirst(ref, MARKER);
    if AcceptedRef(registry, ref) {
      var repository, digest :| Pinned(ref, repository, digest) && HasPrefix(ref, SCHEME)
        && TrimSpace(repository) != SCHEME;
      CutStringAt(repository, MARKER, digest);
    }
    forall repository, digest | Pinned(ref, repository, digest)
      ensures CutString(ref, MARKER).0 == repository
    {
      CutStringAt(repository, MARKER, digest);
    }
  }
}

/** The https URL an uploaded Cloud Storage object is registered under, and how it is taken apart again. */
module GcsImportUrl {
  import opened Wrappers
  import opened ByteStrings
  import opened UrlText

  const HOST: Bytes := "storage.googleapis.com"

  function EscapeAll(pieces: seq<Bytes>): (escaped: seq<Bytes>)
    ensures |escaped| == |pieces|
  {
    if pieces == [] then [] else [Escape(pieces[0], Segment)] + EscapeAll(pieces[1..])
  }

  /** gcsImportURL: the bucket escaped as one segment, the object segment by segment. */
  function ImportURL(bucket: Bytes, object_: Bytes): Bytes {
    "https://" + HOST + "/" + Escape(bucket, Segment) + "/" + Join(EscapeAll(Split(object_, '/')), '/')
  }

  /** parseGCSImportURL */
  function ParseImportURL(value: Bytes): Option<(Bytes, Bytes)> {
    var parsed := ParseUrl(value);
    if parsed.None? || parsed.value.scheme != "https" || parsed.value.host != HOST then None
    else
      var parts := Cut(TrimByte(EscapedPath(parsed.value), '/'), '/');
      var bucket, object_ := Unescape(parts.0, Segment), Unescape(parts.1, Segment);
      if !parts.2 || bucket.None? || object_.None? || bucket.value == [] || object_.value == [] then None
      else Some((bucket.value, object_.value))
  }

  lemma SlashThenUnescape(rest: Bytes, mode: Mode)
    requires Unescape(rest, mode).Some?
    ensures Unescape(['/'] + rest, mode) == Some(['/'] + Unescape(rest, mode).value)
  {
    assert (['/'] + rest)[1..] == rest;
  }

  /** A segment, a slash and the rest unescape to their values around a slash. */
  lemma UnescapeSegments(first: Bytes, rest: Bytes, value: Bytes, mode: Mode)
    requires mode != Query && Unescape(rest, mode) == Some(value)
    ensures Unescape(Escape(first, Segment) + ['/'] + rest, mode) == Some(first + ['/'] + value)
  {
    SlashThenUnescape(rest, mode);
    UnescapePrefix(first, ['/'] + rest, ['/'] + value, Segment, mode);
    Regroup(Escape(first, Segment), ['/'], rest);
    Regroup(first, ['/'], value);
  }

  lemma {:induction false} UnescapeJoined(pieces: seq<Bytes>, mode: Mode)
    requires mode != Query
    ensures Unescape(Join(EscapeAll(pieces), '/'), mode) == Some(Join(pieces, '/'))
  {
    if |pieces| == 1 {
      UnescapePrefix(pieces[0], [], [], Segment, mode);
      assert Escape(pieces[0], Segment) + [] == Escape(pieces[0], Segment) && pieces[0] + [] == pieces[0];
    } else if |pieces| > 1 {
      UnescapeJoined(pieces[1..], mode);
      UnescapeSegments(pieces[0], Join(EscapeAll(pieces[1..]), '/'), Join(pieces[1..], '/'), mode);
      assert EscapeAll(pieces)[1..] == EscapeAll(pieces[1..]);
    }
  }

  /** Text that can follow the host unchanged: no query, fragment or control byte, and already escaped. */
  predicate PathText(s: Bytes) {
    forall c :: c in s ==> PathByte(c)
  }

  predicate PathByte(c: byte) {
    c == '%' || (c != '?' && c != '#' && !IsControl(c) && !ShouldEscape(c, Path))
  }

  lemma SegmentByte(c: byte)
    requires Escaped(c, Segment)
    ensures c != '/' && PathByte(c)
  {
  }

  lemma SegmentText(s: Bytes)
    ensures '/' !in Escape(s, Segment) && PathText(Escape(s, Segment))
  {
    EscapeAlphabet(s, Segment);
    forall c | c in Escape(s, Segment) ensures c != '/' && PathByte(c) {
      SegmentByte(c);
    }
  }

  lemma {:induction false} JoinedText(pieces: seq<Bytes>)
    ensures PathText(Join(EscapeAll(pieces), '/'))
  {
    if pieces != [] {
      SegmentText(pieces[0]);
      JoinedText(pieces[1..]);
      assert EscapeAll(pieces)[1..] == EscapeAll(pieces[1..]);
    }
  }

  /** The path of an import URL, and what it unescapes to. */
  function RawPath(bucket: Bytes, escaped: Bytes): Bytes {
    ['/'] + (Escape(bucket, Segment) + ['/'] + escaped)
  }

  lemma RawPathText(bucket: Bytes, escaped: Bytes, object_: Bytes)
    requires PathText(escaped) && Unescape(escaped, Path) == Some(object_)
    ensures PathText(RawPath(bucket, escaped))
    ensures Unescape(RawPath(bucket, escaped), Path) == Some(['/'] + (bucket + ['/'] + object_))
  {
    SegmentText(bucket);
    UnescapeSegments(bucket, escaped, object_, Path);
    SlashThenUnescape(Escape(bucket, Segment) + ['/'] + escaped, Path);
  }

  lemma PathTextIsParsed(rawPath: Bytes, path: Bytes)
    requires PathText(rawPath) && "/" <= rawPath && Unescape(rawPath, Path) == Some(path)
    ensures var u := ParseUrl("https" + "://" + HOST + rawPath + QueryPart([]));
      u == Some(URL("https", HOST, rawPath, path, [])) && EscapedPath(u.value) == rawPath
  {
    assert Printable(rawPath) && '?' !in rawPath;
    ParseUrlOfParts("https", HOST, rawPath, path, []);
    assert forall c :: c in rawPath ==> PathByte(c);
  }

  lemma ImportURLParts(bucket: Bytes, object_: Bytes)
    ensures ImportURL(bucket, object_)
      == "https" + "://" + HOST + RawPath(bucket, Join(EscapeAll(Split(object_, '/')), '/')) + QueryPart([])
  {
  }

  /** Whatever bytes bucket and object hold, the URL names exactly them; an empty one is never accepted. */
  lemma ParseOfImportURL(bucket: Bytes, object_: Bytes)
    ensures ParseImportURL(ImportURL(bucket, object_))
      == if bucket != [] && object_ != [] then Some((bucket, object_)) else None
  {
    var first, rest := Escape(bucket, Segment), Join(EscapeAll(Split(object_, '/')), '/');
    JoinedText(Split(object_, '/'));
    UnescapeJoined(Split(object_, '/'), Path);
    UnescapeJoined(Split(object_, '/'), Segment);
    RawPathText(bucket, rest, object_);
    ImportURLParts(bucket, object_);
    PathTextIsParsed(RawPath(bucket, rest), ['/'] + (bucket + ['/'] + object_));
    SegmentText(bucket);
    CutPath(first, rest);
    UnescapeOfEscape(bucket, Segment);
  }

  lemma CutPath(first: Bytes, rest: Bytes)
    requires '/' !in first
    ensures Cut(TrimByte(['/'] + (first + ['/'] + rest), '/'), '/') == (first, rest, true)
  {
    assert TrimByte(['/'] + (first + ['/'] + rest), '/') == first + ['/'] + rest;
    CutAt(first, '/', rest);
  }
}

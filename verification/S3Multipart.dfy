/**
 Resumable S3 uploads: a file is cut into parts, the list of parts is rebuilt from ListParts on every
 attempt, and a crash may fall between any two calls.
 */
module S3Parts {
  import opened Wrappers
  import opened ByteStrings
  import opened ArtifactFile

  const PART_SIZE: int := 64 * 1024 * 1024
  const MAX_PARTS: int := 10_000

  datatype CompletedPart = CompletedPart(number: int, etag: Bytes)

  /** The resume token. */
  datatype Session = Session(uploadID: Bytes, size: int, offset: int, parts: seq<CompletedPart>)

  /** One entry of a ListParts page; None is a nil pointer in the reply. */
  datatype ListedPart = ListedPart(number: Option<int>, size: Option<int>, etag: Option<Bytes>)

  datatype Page =
    | Parts(parts: seq<ListedPart>, truncated: Option<bool>, nextMarker: Option<Bytes>)
    | NoSuchUpload
    | ApiError

  datatype ListError = UploadMissing | OtherError

  /** The listing the pages add up to; None when a page is an error or a continuation is missing. */
  function Listing(pages: seq<Page>): Option<seq<ListedPart>> {
    if pages == [] || !pages[0].Parts? then None
    else if pages[0].truncated != Some(true) then Some(pages[0].parts)
    else if pages[0].nextMarker.None? || pages[0].nextMarker.value == [] then None
    else
      var rest := Listing(pages[1..]);
      if rest.None? then None else Some(pages[0].parts + rest.value)
  }

  datatype Rebuilt = Rebuilt(parts: seq<CompletedPart>, offset: int)

  /** The checks made on one listed part, given what was accepted before it. */
  predicate Acceptable(part: ListedPart, before: Rebuilt, size: int) {
    && part.number == Some(|before.parts| + 1)
    && part.size.Some? && part.size.value > 0
    && part.etag.Some? && part.etag.value != []
    && (part.size.value == PART_SIZE || before.offset + part.size.value == size)
  }

  function Extend(part: ListedPart, before: Rebuilt): Rebuilt
    requires part.size.Some? && part.etag.Some?
  {
    Rebuilt(before.parts + [CompletedPart(|before.parts| + 1, part.etag.value)], before.offset + part.size.value)
  }

  /** Accepting a listing from a given start; a listing cut into pages is accepted page by page. */
  function Rebuild(listed: seq<ListedPart>, size: int, start: Rebuilt): Option<Rebuilt> {
    if listed == [] then Some(start)
    else if !Acceptable(listed[0], start, size) then None
    else Rebuild(listed[1..], size, Extend(listed[0], start))
  }

  const NOTHING := Rebuilt([], 0)

  lemma {:induction false} RebuildSplits(a: seq<ListedPart>, b: seq<ListedPart>, size: int, start: Rebuilt)
    ensures var first := Rebuild(a, size, start);
      Rebuild(a + b, size, start) == if first.None? then None else Rebuild(b, size, first.value)
  {
    if a == [] {
      assert a + b == b;
    } else {
      assert (a + b)[1..] == a[1..] + b;
      if Acceptable(a[0], start, size) {
        RebuildSplits(a[1..], b, size, Extend(a[0], start));
      }
    }
  }

  /** The checks on the parts of one page, after the parts in `seen` were accepted. */
  method TakePage(page: seq<ListedPart>, size: int, before: Rebuilt, ghost seen: seq<ListedPart>)
    returns (ok: bool, r: Rebuilt)
    requires Rebuild(seen, size, NOTHING) == Some(before)
    ensures Rebuild(seen + page, size, NOTHING) == if ok then Some(r) else None
  {
    r := before;
    var j := 0;
    assert seen + page[..0] == seen;
    while j < |page|
      invariant 0 <= j <= |page|
      invariant Rebuild(seen + page[..j], size, NOTHING) == Some(r)
    {
      var part := page[j];
      var expected := |r.parts| + 1;
      PageStep(seen, page, j, size, r);
      if part.number != Some(expected) || part.size.None? || part.size.value <= 0
        || part.etag.None? || part.etag.value == []
      {
        RejectedPage(seen, page[..j + 1], page[j + 1..], size);
        assert page[..j + 1] + page[j + 1..] == page;
        return false, r;
      }
      if part.size.value != PART_SIZE && r.offset + part.size.value != size {
        RejectedPage(seen, page[..j + 1], page[j + 1..], size);
        assert page[..j + 1] + page[j + 1..] == page;
        return false, r;
      }
      r := Rebuilt(r.parts + [CompletedPart(expected, part.etag.value)], r.offset + part.size.value);
      j := j + 1;
    }
    assert page[..j] == page;
    return true, r;
  }

  /** reconstructMultipartSession, over the replies to its ListParts calls. */
  method Reconstruct(pages: seq<Page>, state: Session) returns (r: Result<Session, ListError>)
    ensures r.Success? <==>
      Listing(pages).Some? && Rebuild(Listing(pages).value, state.size, NOTHING).Some?
      && Rebuild(Listing(pages).value, state.size, NOTHING).value.offset <= state.size
    ensures r.Success? ==>
      var rebuilt := Rebuild(Listing(pages).value, state.size, NOTHING).value;
      r.value == state.(parts := rebuilt.parts, offset := rebuilt.offset)
    ensures r == Failure(UploadMissing) ==> NoSuchUpload in pages
    ensures pages != [] && pages[0].NoSuchUpload? ==> r == Failure(UploadMissing)
  {
    var rebuilt := NOTHING;
    var i := 0;
    ghost var seen: seq<ListedPart> := [];
    assert pages[0..] == pages;
    assert forall rest: seq<ListedPart> :: seen + rest == rest;
    while true
      invariant 0 <= i <= |pages| && (i > 0 ==> pages[0].Parts?)
      invariant Rebuild(seen, state.size, NOTHING) == Some(rebuilt)
      invariant Listing(pages) == Remaining(seen, pages[i..])
      decreases |pages| - i
    {
      if i == |pages| || pages[i].ApiError? {
        return Failure(OtherError);
      }
      if pages[i].NoSuchUpload? {
        return Failure(UploadMissing);
      }
      var page := pages[i];
      var ok, after := TakePage(page.parts, state.size, rebuilt, seen);
      RemainingStep(seen, pages, i);
      if !ok {
        RejectedRest(seen, pages, i, state.size);
        return Failure(OtherError);
      }
      seen, rebuilt := seen + page.parts, after;
      if page.truncated != Some(true) {
        break;
      }
      if page.nextMarker.None? || page.nextMarker.value == [] {
        return Failure(OtherError);
      }
      i := i + 1;
    }
    if rebuilt.offset > state.size {
      return Failure(OtherError);
    }
    return Success(state.(parts := rebuilt.parts, offset := rebuilt.offset));
  }

  /** The listing when `seen` came before these pages. */
  function Remaining(seen: seq<ListedPart>, pages: seq<Page>): Option<seq<ListedPart>> {
    var rest := Listing(pages);
    if rest.None? then None else Some(seen + rest.value)
  }

  lemma RemainingStep(seen: seq<ListedPart>, pages: seq<Page>, i: nat)
    requires i < |pages| && pages[i].Parts?
    ensures var page := pages[i];
      Remaining(seen, pages[i..]) ==
        if page.truncated != Some(true) then Some(seen + page.parts)
        else if page.nextMarker.None? || page.nextMarker.value == [] then None
        else Remaining(seen + page.parts, pages[i + 1..])
  {
    assert pages[i..][1..] == pages[i + 1..];
    var rest := Listing(pages[i + 1..]);
    if rest.Some? {
      assert seen + (pages[i].parts + rest.value) == seen + pages[i].parts + rest.value;
    }
  }

  lemma PageStep(seen: seq<ListedPart>, parts: seq<ListedPart>, j: nat, size: int, before: Rebuilt)
    requires j < |parts| && Rebuild(seen + parts[..j], size, NOTHING) == Some(before)
    ensures Rebuild(seen + parts[..j + 1], size, NOTHING)
      == if Acceptable(parts[j], before, size) then Some(Extend(parts[j], before)) else None
  {
    assert seen + parts[..j + 1] == (seen + parts[..j]) + [parts[j]];
    RebuildSplits(seen + parts[..j], [parts[j]], size, NOTHING);
  }

  /** What was rejected stays rejected whatever comes after it. */
  lemma RejectedPage(seen: seq<ListedPart>, parts: seq<ListedPart>, more: seq<ListedPart>, size: int)
    requires Rebuild(seen + parts, size, NOTHING).None?
    ensures Rebuild(seen + (parts + more), size, NOTHING).None?
  {
    assert seen + (parts + more) == seen + parts + more;
    RebuildSplits(seen + parts, more, size, NOTHING);
  }

  lemma RejectedRest(seen: seq<ListedPart>, pages: seq<Page>, i: nat, size: int)
    requires i < |pages| && pages[i].Parts? && Rebuild(seen + pages[i].parts, size, NOTHING).None?
    ensures Remaining(seen, pages[i..]).Some? ==> Rebuild(Remaining(seen, pages[i..]).value, size, NOTHING).None?
  {
    var rest := Listing(pages[i..]);
    if rest.Some? {
      var more := rest.value[|pages[i].parts|..];
      assert rest.value == pages[i].parts + more;
      RejectedPage(seen, pages[i].parts, more, size);
    }
  }

  function SumSizes(listed: seq<ListedPart>): int {
    if listed == [] then 0
    else
      var last := listed[|listed| - 1];
      SumSizes(listed[..|listed| - 1]) + (if last.size.Some? then last.size.value else 0)
  }

  /** What any accepted listing looks like, whatever the server answered. */
  ghost predicate WellFormedListing(listed: seq<ListedPart>, size: int, r: Rebuilt) {
    && |r.parts| == |listed|
    && (forall i :: 0 <= i < |listed| ==>
          listed[i].number == Some(i + 1) && listed[i].size.Some? && listed[i].etag == Some(r.parts[i].etag)
          && r.parts[i].number == i + 1 && r.parts[i].etag != [])
    && (forall i :: 0 <= i < |listed| - 1 ==> listed[i].size == Some(PART_SIZE))
    && r.offset == SumSizes(listed) && 0 <= r.offset <= size
    && (r.offset == |listed| * PART_SIZE || r.offset == size)
  }

  /**
   If ListParts pages are accepted, the parts are numbered 1..n with ETags, all but possibly the last have
   the part size, and the offset is the sum of the sizes, part-aligned or at the end of the file.
   */
  lemma AcceptedListingIsWellFormed(listed: seq<ListedPart>, size: int)
    requires Rebuild(listed, size, NOTHING).Some? && Rebuild(listed, size, NOTHING).value.offset <= size
    ensures WellFormedListing(listed, size, Rebuild(listed, size, NOTHING).value)
  {
    RebuildShape(listed, size);
  }

  /** The shape without the final size check: once a part ended the file, one more would overshoot it. */
  lemma {:induction false} RebuildShape(listed: seq<ListedPart>, size: int)
    requires Rebuild(listed, size, NOTHING).Some?
    ensures var r := Rebuild(listed, size, NOTHING).value;
      && (r.offset <= size ==> WellFormedListing(listed, size, r))
      && |r.parts| == |listed| && r.offset >= 0
  {
    if listed != [] {
      var n := |listed| - 1;
      RebuildSplits(listed[..n], [listed[n]], size, NOTHING);
      assert listed == listed[..n] + [listed[n]];
      RebuildShape(listed[..n], size);
      ShapeGrows(listed, size, Rebuild(listed[..n], size, NOTHING).value);
    }
  }

  lemma ShapeGrows(listed: seq<ListedPart>, size: int, b: Rebuilt)
    requires listed != [] && |b.parts| == |listed| - 1 && b.offset >= 0
    requires b.offset <= size ==> WellFormedListing(listed[..|listed| - 1], size, b)
    requires Acceptable(listed[|listed| - 1], b, size)
    ensures var r := Extend(listed[|listed| - 1], b); r.offset <= size ==> WellFormedListing(listed, size, r)
  {
    var n := |listed| - 1;
    if Extend(listed[n], b).offset <= size {
      assert b.offset == n * PART_SIZE;
      AllFull(listed[..n], size, b);
    }
  }

  lemma AllFull(listed: seq<ListedPart>, size: int, r: Rebuilt)
    requires WellFormedListing(listed, size, r) && r.offset == |listed| * PART_SIZE
    ensures forall i :: 0 <= i < |listed| ==> listed[i].size == Some(PART_SIZE)
  {
    if listed != [] {
      SumFull(listed[..|listed| - 1]);
    }
  }

  lemma {:induction false} SumFull(listed: seq<ListedPart>)
    ensures (forall i :: 0 <= i < |listed| ==> listed[i].size == Some(PART_SIZE)) ==>
      SumSizes(listed) == |listed| * PART_SIZE
  {
    if listed != [] {
      SumFull(listed[..|listed| - 1]);
    }
  }
}

/**
 The part of Go's net/url that carries the build references: percent-encoding (RFC 3986, sections 2.1
 and 3.3), query strings, and splitting `scheme://host/path?query#fragment`.
 */
module UrlText {
  import opened Wrappers
  import opened ByteStrings

  /** The three positions a value is escaped for: url.URL.String's path, url.PathEscape, url.QueryEscape. */
  datatype Mode = Path | Segment | Query

  predicate IsAlpha(c: byte) {
    'a' <= c <= 'z' || 'A' <= c <= 'Z'
  }

  predicate IsNumeral(c: byte) {
    '0' <= c <= '9'
  }

  predicate IsMark(c: byte) {
    c == '-' || c == '_' || c == '.' || c == '~'
  }

  predicate IsReserved(c: byte) {
    || c == '$' || c == '&' || c == '+' || c == ',' || c == '/'
    || c == ':' || c == ';' || c == '=' || c == '?' || c == '@'
  }

  predicate ShouldEscape(c: byte, mode: Mode) {
    if IsAlpha(c) || IsNumeral(c) || IsMark(c) then false
    else if IsReserved(c) then
      match mode
      case Path => c == '?'
      case Segment => c == '/' || c == ';' || c == ',' || c == '?'
      case Query => true
    else true
  }

  function HexDigit(d: nat): (c: byte)
    requires d < 16
  {
    if d < 10 then (('0' as int) + d) as char else (('A' as int) + d - 10) as char
  }

  predicate IsHex(c: byte) {
    IsNumeral(c) || 'a' <= c <= 'f' || 'A' <= c <= 'F'
  }

  function Unhex(c: byte): (d: nat)
    requires IsHex(c)
    ensures d < 16
  {
    if IsNumeral(c) then (c as int) - ('0' as int)
    else if 'a' <= c <= 'f' then (c as int) - ('a' as int) + 10
    else (c as int) - ('A' as int) + 10
  }

  function EscapeByte(c: byte, mode: Mode): Bytes {
    if mode == Query && c == ' ' then "+"
    else if ShouldEscape(c, mode) then ['%', HexDigit((c as int) / 16), HexDigit((c as int) % 16)]
    else [c]
  }

  function Escape(s: Bytes, mode: Mode): Bytes {
    if s == [] then [] else EscapeByte(s[0], mode) + Escape(s[1..], mode)
  }

  function Unescape(s: Bytes, mode: Mode): (r: Option<Bytes>) {
    if s == [] then Some([])
    else if s[0] == '%' then
      if |s| < 3 || !IsHex(s[1]) || !IsHex(s[2]) then None
      else
        var rest := Unescape(s[3..], mode);
        if rest.None? then None
        else Some([(Unhex(s[1]) * 16 + Unhex(s[2])) as char] + rest.value)
    else
      var rest := Unescape(s[1..], mode);
      if rest.None? then None
      else Some([if mode == Query && s[0] == '+' then ' ' else s[0]] + rest.value)
  }

  predicate IsControl(c: byte) {
    c as int < 0x20 || c as int == 0x7f
  }

  /** What escaped text can contain. */
  predicate Escaped(c: byte, mode: Mode) {
    c == '%' || !ShouldEscape(c, mode) || (mode == Query && c == '+')
  }

  lemma {:induction false} EscapeAlphabet(s: Bytes, mode: Mode)
    ensures forall c :: c in Escape(s, mode) ==> Escaped(c, mode)
  {
    if s != [] {
      EscapeAlphabet(s[1..], mode);
    }
  }

  lemma HexByteRoundTrip(c: byte)
    ensures var hi, lo := HexDigit((c as int) / 16), HexDigit((c as int) % 16);
      IsHex(hi) && IsHex(lo) && Unhex(hi) * 16 + Unhex(lo) == c as int
  {
  }

  /** What was escaped for one mode can be unescaped in another; only Query treats a plus sign as a space. */
  predicate Readable(written: Mode, read: Mode) {
    written == read || (written != Query && read != Query)
  }

  lemma UnescapeByte(c: byte, rest: Bytes, written: Mode, read: Mode)
    requires Readable(written, read) && Unescape(rest, read).Some?
    ensures Unescape(EscapeByte(c, written) + rest, read) == Some([c] + Unescape(rest, read).value)
  {
    var first := EscapeByte(c, written);
    if |first| == 3 {
      HexByteRoundTrip(c);
      UnescapeHex(first[1], first[2], rest, read);
      assert first + rest == ['%', first[1], first[2]] + rest;
    } else {
      assert (first + rest)[1..] == rest;
    }
  }

  lemma UnescapeHex(hi: byte, lo: byte, rest: Bytes, read: Mode)
    requires IsHex(hi) && IsHex(lo) && Unescape(rest, read).Some?
    ensures Unescape(['%', hi, lo] + rest, read)
      == Some([(Unhex(hi) * 16 + Unhex(lo)) as char] + Unescape(rest, read).value)
  {
    assert (['%', hi, lo] + rest)[3..] == rest;
  }

  lemma {:induction false} UnescapePrefix(s: Bytes, rest: Bytes, value: Bytes, written: Mode, read: Mode)
    requires Readable(written, read) && Unescape(rest, read) == Some(value)
    ensures Unescape(Escape(s, written) + rest, read) == Some(s + value)
  {
    if s == [] {
      assert Escape(s, written) + rest == rest && s + value == value;
    } else {
      var first, middle := EscapeByte(s[0], written), Escape(s[1..], written);
      UnescapePrefix(s[1..], rest, value, written, read);
      UnescapeByte(s[0], middle + rest, written, read);
      Regroup(first, middle, rest);
      Regroup([s[0]], s[1..], value);
      assert [s[0]] + s[1..] == s;
    }
  }

  /** Unescaping undoes escaping, for every byte string and every position in a URL. */
  lemma UnescapeOfEscape(s: Bytes, mode: Mode)
    ensures Unescape(Escape(s, mode), mode) == Some(s)
  {
    UnescapePrefix(s, [], [], mode, mode);
    assert Escape(s, mode) + [] == Escape(s, mode) && s + [] == s;
  }

  type Pair = (Bytes, Bytes)

  /** url.Values.Encode for keys already in the order Encode sorts them into. */
  function EncodeQuery(pairs: seq<Pair>): Bytes {
    if pairs == [] then []
    else
      var first := Escape(pairs[0].0, Query) + "=" + Escape(pairs[0].1, Query);
      if |pairs| == 1 then first else first + "&" + EncodeQuery(pairs[1..])
  }

  function ParsePair(segment: Bytes): Option<Pair> {
    var kv := Cut(segment, '=');
    var key, value := Unescape(kv.0, Query), Unescape(kv.1, Query);
    if segment == [] || ';' in segment || key.None? || value.None? then None
    else Some((key.value, value.value))
  }

  /** url.ParseQuery as URL.Query uses it: segments that do not parse are dropped. */
  function ParseQuery(query: Bytes): seq<Pair>
    decreases |query|
  {
    if query == [] then []
    else
      var split := Cut(query, '&');
      var first := ParsePair(split.0);
      (if first.Some? then [first.value] else []) + ParseQuery(split.1)
  }

  /** url.Values.Get: the first value stored for the key, or the empty string. */
  function Get(pairs: seq<Pair>, key: Bytes): Bytes {
    if pairs == [] then [] else if pairs[0].0 == key then pairs[0].1 else Get(pairs[1..], key)
  }

  /** Escaped query text holds none of the characters that structure a URL. */
  lemma QueryAlphabet(s: Bytes)
    ensures forall c :: c in Escape(s, Query) ==> c !in "&=;?#/" && !IsControl(c)
  {
    EscapeAlphabet(s, Query);
  }

  lemma ParsePairOfEncoded(p: Pair)
    ensures ParsePair(Escape(p.0, Query) + "=" + Escape(p.1, Query)) == Some(p)
    ensures '&' !in Escape(p.0, Query) + "=" + Escape(p.1, Query)
  {
    var key, value := Escape(p.0, Query), Escape(p.1, Query);
    QueryAlphabet(p.0);
    QueryAlphabet(p.1);
    JoinedPair(key, value);
    UnescapeOfEscape(p.0, Query);
    UnescapeOfEscape(p.1, Query);
  }

  lemma JoinedPair(key: Bytes, value: Bytes)
    requires '=' !in key && ';' !in key && ';' !in value && '&' !in key && '&' !in value
    ensures var segment := key + "=" + value;
      segment != [] && ';' !in segment && '&' !in segment && Cut(segment, '=') == (key, value, true)
  {
    CutAt(key, '=', value);
  }

  /** A query string keeps every pair, in order, whatever bytes its keys and values hold. */
  lemma {:induction false} ParseQueryOfEncode(pairs: seq<Pair>)
    ensures ParseQuery(EncodeQuery(pairs)) == pairs
  {
    if pairs != [] {
      var first := Escape(pairs[0].0, Query) + "=" + Escape(pairs[0].1, Query);
      ParsePairOfEncoded(pairs[0]);
      if |pairs| == 1 {
        CutAbsent(first, '&');
      } else {
        ParseQueryOfEncode(pairs[1..]);
        CutAt(first, '&', EncodeQuery(pairs[1..]));
        assert EncodeQuery(pairs) == first + ['&'] + EncodeQuery(pairs[1..]);
      }
    }
  }

  lemma {:induction false} EncodeQueryAlphabet(pairs: seq<Pair>)
    ensures forall c :: c in EncodeQuery(pairs) ==> c != '#' && !IsControl(c)
  {
    if pairs != [] {
      QueryAlphabet(pairs[0].0);
      QueryAlphabet(pairs[0].1);
      EncodeQueryAlphabet(pairs[1..]);
    }
  }

  /** One key a reference may put into its query: `isSet` says whether url.Values.Set was called for it. */
  datatype Entry = Entry(key: Bytes, value: Bytes, isSet: bool)

  function Optional(key: Bytes, value: Bytes): Entry {
    Entry(key, value, value != [])
  }

  function Present(entries: seq<Entry>): seq<Pair> {
    if entries == [] then []
    else (if entries[0].isSet then [(entries[0].key, entries[0].value)] else []) + Present(entries[1..])
  }

  /** The order url.Values.Encode prints keys in; it leaves no key twice. */
  ghost predicate Ascending(entries: seq<Entry>) {
    forall i :: 0 <= i < |entries| - 1 ==> Less(entries[i].key, entries[i + 1].key)
  }

  lemma {:induction false} AscendingFrom(entries: seq<Entry>, i: nat, j: nat)
    requires Ascending(entries) && i < j < |entries|
    ensures Less(entries[i].key, entries[j].key)
    decreases j
  {
    if i + 1 < j {
      AscendingFrom(entries, i, j - 1);
      LessIsTransitive(entries[i].key, entries[j - 1].key, entries[j].key);
    }
  }

  lemma {:induction false} GetAbsent(entries: seq<Entry>, key: Bytes)
    requires forall e :: e in entries ==> e.key != key
    ensures Get(Present(entries), key) == []
  {
    if entries != [] {
      GetAbsent(entries[1..], key);
      assert Present(entries) == Present(entries[1..]) || Present(entries)[1..] == Present(entries[1..]);
    }
  }

  /** Every key reads back its own value, and the empty string when it was not set. */
  lemma {:induction false} GetPresent(entries: seq<Entry>, i: nat)
    requires Ascending(entries) && i < |entries|
    ensures Get(Present(entries), entries[i].key) == if entries[i].isSet then entries[i].value else []
    decreases i
  {
    var rest := entries[1..];
    assert entries[0].isSet ==> Present(entries)[1..] == Present(rest);
    assert !entries[0].isSet ==> Present(entries) == Present(rest);
    if i == 0 {
      if !entries[0].isSet {
        forall j | 0 <= j < |rest| ensures rest[j].key != entries[0].key {
          AscendingFrom(entries, 0, j + 1);
          LessIsTotal(entries[0].key, rest[j].key);
        }
        GetAbsent(rest, entries[0].key);
      }
    } else {
      AscendingFrom(entries, 0, i);
      LessIsTotal(entries[0].key, entries[i].key);
      GetPresent(rest, i - 1);
    }
  }

  datatype URL = URL(scheme: Bytes, host: Bytes, rawPath: Bytes, path: Bytes, rawQuery: Bytes)

  function QueryPart(rawQuery: Bytes): Bytes {
    if rawQuery == [] then [] else "?" + rawQuery
  }

  /** url.URL.String for a URL that has a scheme, a host, and a path starting with a slash. */
  function UrlString(scheme: Bytes, host: Bytes, path: Bytes, rawQuery: Bytes): Bytes {
    scheme + "://" + host + Escape(path, Path) + QueryPart(rawQuery)
  }

  /** The scheme and what follows its colon; None when the text does not start with a scheme. */
  function GetScheme(s: Bytes): Option<Pair> {
    var split := Cut(s, ':');
    if split.2 && split.0 != [] && IsAlpha(split.0[0])
       && forall c :: c in split.0 ==> IsAlpha(c) || IsNumeral(c) || c in "+-."
    then Some((split.0, split.1)) else None
  }

  /** Host and escaped path of what stands between the scheme and the query. */
  function SplitHost(rest: Bytes): Pair {
    if "//" <= rest then
      var authority := Cut(rest[2..], '/');
      (authority.0, if authority.2 then "/" + authority.1 else [])
    else ([], if "/" <= rest then rest else [])
  }

  function ParseHostPathQuery(scheme: Bytes, rest: Bytes): Option<URL> {
    var query := Cut(rest, '?');
    var (host, rawPath) := SplitHost(query.0);
    var path := Unescape(rawPath, Path);
    if path.None? then None else Some(URL(ToLower(scheme), host, rawPath, path.value, query.1))
  }

  predicate HasControl(s: Bytes) {
    exists c :: c in s && IsControl(c)
  }

  /** url.Parse, with None for errors and for references without a scheme, which every caller rejects. */
  function ParseUrl(raw: Bytes): Option<URL> {
    var fragment := Cut(raw, '#');
    var scheme := GetScheme(fragment.0);
    if HasControl(fragment.0) || Unescape(fragment.1, Path).None? || scheme.None? then None
    else ParseHostPathQuery(scheme.value.0, scheme.value.1)
  }

  /** URL.EscapedPath: the path as it was written when that is a valid encoding, else a fresh one. */
  function EscapedPath(u: URL): Bytes {
    if forall c :: c in u.rawPath ==> !ShouldEscape(c, Path) || c in "!'()*[]%" then u.rawPath
    else Escape(u.path, Path)
  }

  predicate PlainHost(host: Bytes) {
    forall c :: c in host ==> IsAlpha(c) || IsNumeral(c) || c in "-."
  }

  predicate PlainScheme(scheme: Bytes) {
    scheme != [] && forall c :: c in scheme ==> 'a' <= c <= 'z'
  }

  lemma SplitPrintedHost(host: Bytes, rawPath: Bytes)
    requires PlainHost(host) && "/" <= rawPath
    ensures SplitHost("//" + host + rawPath) == (host, rawPath)
  {
    var rest := "//" + host + rawPath;
    assert rest[2..] == host + ['/'] + rawPath[1..];
    CutAt(host, '/', rawPath[1..]);
    assert "/" + rawPath[1..] == rawPath;
  }

  lemma CutPrintedQuery(rest: Bytes, rawQuery: Bytes)
    requires '?' !in rest
    ensures Cut(rest + QueryPart(rawQuery), '?').0 == rest && Cut(rest + QueryPart(rawQuery), '?').1 == rawQuery
  {
    if rawQuery == [] {
      assert rest + QueryPart(rawQuery) == rest;
      CutAbsent(rest, '?');
    } else {
      assert rest + QueryPart(rawQuery) == rest + ['?'] + rawQuery;
      CutAt(rest, '?', rawQuery);
    }
  }

  lemma GetPrintedScheme(scheme: Bytes, rest: Bytes)
    requires PlainScheme(scheme)
    ensures GetScheme(scheme + [':'] + rest) == Some((scheme, rest)) && ToLower(scheme) == scheme
  {
    CutAt(scheme, ':', rest);
    ToLowerFixes(scheme);
    assert scheme[0] in scheme;
  }

  predicate Printable(s: Bytes) {
    forall c :: c in s ==> c != '#' && !IsControl(c)
  }

  lemma PrintedParts(scheme: Bytes, host: Bytes, rawPath: Bytes, rawQuery: Bytes)
    requires PlainScheme(scheme) && PlainHost(host) && Printable(rawPath) && Printable(rawQuery)
    ensures var raw := scheme + "://" + host + rawPath + QueryPart(rawQuery);
      Cut(raw, '#') == (raw, [], false) && !HasControl(raw)
      && raw == scheme + [':'] + ("//" + host + rawPath + QueryPart(rawQuery))
  {
    var rest := "//" + host + rawPath + QueryPart(rawQuery);
    assert "://" == [':'] + "//";
    assert scheme + "://" + host + rawPath + QueryPart(rawQuery) == scheme + [':'] + rest;
    PrintableParts(scheme, host, rawPath, rawQuery);
    CutAbsent(scheme + [':'] + rest, '#');
  }

  lemma PrintableParts(scheme: Bytes, host: Bytes, rawPath: Bytes, rawQuery: Bytes)
    requires PlainScheme(scheme) && PlainHost(host) && Printable(rawPath) && Printable(rawQuery)
    ensures Printable(scheme + [':'] + ("//" + host + rawPath + QueryPart(rawQuery)))
  {
    assert Printable("//") && Printable(QueryPart(rawQuery)) && Printable(host) && Printable(scheme + [':']);
  }

  /** Splitting a printed URL again: `path` may hold any bytes, already escaped in `rawPath`. */
  lemma ParseUrlOfParts(scheme: Bytes, host: Bytes, rawPath: Bytes, path: Bytes, rawQuery: Bytes)
    requires PlainScheme(scheme) && PlainHost(host)
    requires "/" <= rawPath && Unescape(rawPath, Path) == Some(path)
    requires '?' !in rawPath && Printable(rawPath) && Printable(rawQuery)
    ensures ParseUrl(scheme + "://" + host + rawPath + QueryPart(rawQuery))
      == Some(URL(scheme, host, rawPath, path, rawQuery))
  {
    var rest := "//" + host + rawPath;
    PrintedParts(scheme, host, rawPath, rawQuery);
    GetPrintedScheme(scheme, rest + QueryPart(rawQuery));
    assert ParseHostPathQuery(scheme, rest + QueryPart(rawQuery))
      == Some(URL(scheme, host, rawPath, path, rawQuery)) by {
      CutPrintedQuery(rest, rawQuery);
      SplitPrintedHost(host, rawPath);
    }
  }

  lemma PathAlphabet(path: Bytes)
    ensures '?' !in Escape(path, Path) && Printable(Escape(path, Path))
    ensures "/" <= path ==> "/" <= Escape(path, Path)
  {
    EscapeAlphabet(path, Path);
    if "/" <= path {
      assert EscapeByte(path[0], Path) == "/";
    }
  }

  /** Parsing what URL.String printed returns the path and the query unchanged. */
  lemma ParseUrlOfString(scheme: Bytes, host: Bytes, path: Bytes, pairs: seq<Pair>)
    requires PlainScheme(scheme) && PlainHost(host) && "/" <= path
    ensures var u := ParseUrl(UrlString(scheme, host, path, EncodeQuery(pairs)));
      u.Some? && u.value.scheme == scheme && u.value.host == host && u.value.path == path
      && ParseQuery(u.value.rawQuery) == pairs
  {
    PathAlphabet(path);
    UnescapeOfEscape(path, Path);
    EncodeQueryAlphabet(pairs);
    ParseQueryOfEncode(pairs);
    ParseUrlOfParts(scheme, host, Escape(path, Path), path, EncodeQuery(pairs));
  }
}

/** Boot commands: text with tokens such as <enter>, <f2> or <wait5> in it, parsed into keyboard events. */
module BootCommand {
  import opened Wrappers
  import opened ByteStrings
  import opened Decimal

  /** The text of a wait is in nanoseconds, as Go's time.Duration counts. */
  datatype Event = Key(name: Bytes) | Text(value: Bytes) | Wait(duration: int)

  datatype ParseError = Unterminated(command: Bytes) | BadToken(token: Bytes)

  type Parsed = Result<seq<Event>, ParseError>

  const SECOND: int := 1_000_000_000

  const WAIT: Bytes := "wait"

  function TokenKeys(): seq<Bytes> {
    ["enter", "tab", "esc", "up", "down", "left", "right", "ctrl-x"]
  }

  predicate FunctionKey(token: Bytes) {
    token != [] && token[0] == 'f' && Atoi(token[1..]).Some? && 1 <= Atoi(token[1..]).value <= 12
  }

  /** bootTokenEvent. The product is a 64-bit one. */
  function TokenEvent(token: Bytes): Result<Event, ParseError> {
    if token == WAIT then Success(Wait(SECOND))
    else if HasPrefix(token, WAIT) then
      var seconds := Atoi(token[|WAIT|..]);
      if seconds.None? || seconds.value <= 0 then Failure(BadToken(token))
      else Success(Wait(Wrap64(seconds.value * SECOND)))
    else if FunctionKey(token) || token in TokenKeys() then Success(Key(token))
    else Failure(BadToken(token))
  }

  /** strings.Index for one byte. */
  function Index(s: Bytes, c: byte): (i: int)
    ensures -1 <= i < |s|
    ensures i >= 0 ==> s[i] == c && c !in s[..i]
    ensures i < 0 ==> c !in s
  {
    if s == [] then -1
    else if s[0] == c then 0
    else
      var i := Index(s[1..], c);
      if i < 0 then -1 else i + 1
  }

  /** One more event in front of what follows, unless that fails. */
  function Prepend(events: seq<Event>, r: Parsed): Parsed {
    if r.Failure? then r else Success(events + r.value)
  }

  /** What one command stands for. */
  function ParseOne(command: Bytes): Parsed
    decreases |command|
  {
    if command == [] then Success([])
    else if command[0] == '<' then
      var end := Index(command, '>');
      if end < 0 then Failure(Unterminated(command))
      else
        var event := TokenEvent(ToLower(command[1..end]));
        if event.Failure? then Failure(event.error)
        else Prepend([event.value], ParseOne(command[end + 1..]))
    else
      var start := Index(command, '<');
      if start < 0 then Success([Text(command)])
      else Prepend([Text(command[..start])], ParseOne(command[start..]))
  }

  function ParseAll(commands: seq<Bytes>): Parsed {
    if commands == [] then Success([])
    else
      var first := ParseOne(commands[0]);
      if first.Failure? then first else Prepend(first.value, ParseAll(commands[1..]))
  }

  lemma PrependNothing(r: Parsed)
    ensures Prepend([], r) == r
  {
    assert r.Success? ==> [] + r.value == r.value;
  }

  lemma PrependTwice(a: seq<Event>, b: seq<Event>, r: Parsed)
    ensures Prepend(a, Prepend(b, r)) == Prepend(a + b, r)
  {
    assert r.Success? ==> a + (b + r.value) == a + b + r.value;
  }

  /** The inner loop: one command, shortened from the front. */
  method ParseCommand(command: Bytes, events: seq<Event>) returns (r: Parsed)
    ensures r == Prepend(events, ParseOne(command))
  {
    var command := command;
    var events := events;
    ghost var whole := Prepend(events, ParseOne(command));
    while |command| > 0
      invariant whole == Prepend(events, ParseOne(command))
      decreases |command|
    {
      var start := Index(command, '<');
      if start < 0 {
        events := events + [Text(command)];
        return Success(events);
      }
      if start > 0 {
        PrependTwice(events, [Text(command[..start])], ParseOne(command[start..]));
        events := events + [Text(command[..start])];
        command := command[start..];
        continue;
      }
      var end := Index(command, '>');
      if end < 0 {
        return Failure(Unterminated(command));
      }
      var token := ToLower(command[1..end]);
      var event := TokenEvent(token);
      if event.Failure? {
        return Failure(event.error);
      }
      PrependTwice(events, [event.value], ParseOne(command[end + 1..]));
      events := events + [event.value];
      command := command[end + 1..];
    }
    assert events + [] == events;
    return Success(events);
  }

  /** ParseBootCommand. */
  method ParseBootCommand(commands: seq<Bytes>) returns (r: Parsed)
    ensures r == ParseAll(commands)
  {
    r := Success([]);
    PrependNothing(ParseAll(commands));
    for i := 0 to |commands|
      invariant r.Success? && ParseAll(commands) == Prepend(r.value, ParseAll(commands[i..]))
    {
      ghost var before, first := r.value, ParseOne(commands[i]);
      assert commands[i..][0] == commands[i] && commands[i..][1..] == commands[i + 1..];
      r := ParseCommand(commands[i], r.value);
      if r.Failure? {
        return;
      }
      PrependTwice(before, first.value, ParseAll(commands[i + 1..]));
    }
    assert r.value + [] == r.value;
  }

  /** Parsing is a homomorphism over concatenation of command lists; the first error wins. */
  lemma {:induction false} ParseAllOfConcatenation(a: seq<Bytes>, b: seq<Bytes>)
    ensures ParseAll(a + b) == if ParseAll(a).Failure? then ParseAll(a) else Prepend(ParseAll(a).value, ParseAll(b))
  {
    if a == [] {
      assert a + b == b;
      PrependNothing(ParseAll(b));
    } else {
      assert (a + b)[1..] == a[1..] + b;
      ParseAllOfConcatenation(a[1..], b);
      if ParseOne(a[0]).Success? && ParseAll(a[1..]).Success? {
        PrependTwice(ParseOne(a[0]).value, ParseAll(a[1..]).value, ParseAll(b));
      }
    }
  }

  predicate GoodText(e: Event) {
    e.Text? ==> e.value != [] && '<' !in e.value
  }

  lemma {:induction false} ParsedTexts(command: Bytes)
    ensures ParseOne(command).Success? ==> forall e :: e in ParseOne(command).value ==> GoodText(e)
    decreases |command|
  {
    if command != [] {
      if command[0] == '<' {
        var end := Index(command, '>');
        if end >= 0 {
          ParsedTexts(command[end + 1..]);
        }
      } else {
        var start := Index(command, '<');
        if start >= 0 {
          ParsedTexts(command[start..]);
        }
      }
    }
  }

  /** No empty text is ever typed, and none with a '<' in it. */
  lemma {:induction false} TextsAreGood(commands: seq<Bytes>)
    ensures ParseAll(commands).Success? ==> forall e :: e in ParseAll(commands).value ==> GoodText(e)
  {
    if commands != [] {
      ParsedTexts(commands[0]);
      TextsAreGood(commands[1..]);
    }
  }

  /** The largest number of seconds a time.Duration can hold. */
  const MAX_SECONDS: int := 9_223_372_036

  lemma ProductFits(seconds: int)
    requires 0 < seconds <= MAX_INT64
    ensures Wrap64(seconds * SECOND) == seconds * SECOND <==> seconds <= MAX_SECONDS
  {
    var product := seconds * SECOND;
    assert Wrap64(product) == product <==> product <= MAX_INT64;
  }

  lemma WaitTokenParts(digits: Bytes)
    requires digits != []
    ensures WAIT + digits != WAIT && HasPrefix(WAIT + digits, WAIT) && (WAIT + digits)[|WAIT|..] == digits
  {
  }

  /**
   <waitN> is accepted exactly when N is a positive 64-bit number, and then waits N seconds exactly when that
   fits a Duration; a larger N wraps around instead of failing.
   */
  lemma WaitIsExact(seconds: int)
    ensures TokenEvent(WAIT + Itoa(seconds)) == if 0 < seconds <= MAX_INT64 then Success(Wait(Wrap64(seconds * SECOND)))
      else Failure(BadToken(WAIT + Itoa(seconds)))
    ensures TokenEvent(WAIT + Itoa(seconds)) == Success(Wait(seconds * SECOND)) <==> 0 < seconds <= MAX_SECONDS
  {
    WaitTokenParts(Itoa(seconds));
    AtoiOfItoa(seconds);
    if 0 < seconds <= MAX_INT64 {
      ProductFits(seconds);
    }
  }

  /** A key name that stands for itself as a token. */
  predicate CanonicalKey(name: Bytes) {
    TokenEvent(name) == Success(Key(name)) && ToLower(name) == name && '>' !in name
  }

  predicate WholeSeconds(duration: int) {
    duration % SECOND == 0 && 1 <= duration / SECOND <= MAX_SECONDS
  }

  predicate CanonicalEvent(e: Event) {
    match e
    case Key(name) => CanonicalKey(name)
    case Text(_) => GoodText(e)
    case Wait(duration) => WholeSeconds(duration)
  }

  /** What the parser makes of one command: no two texts follow each other. */
  ghost predicate Canonical(events: seq<Event>) {
    && (forall i :: 0 <= i < |events| ==> CanonicalEvent(events[i]))
    && (forall i :: 0 <= i < |events| - 1 && events[i].Text? ==> !events[i + 1].Text?)
  }

  function TokenOf(e: Event): Bytes
    requires !e.Text?
  {
    if e.Key? then e.name else WAIT + Itoa(e.duration / SECOND)
  }

  function PrintEvent(e: Event): Bytes {
    if e.Text? then e.value else ['<'] + TokenOf(e) + ['>']
  }

  function Print(events: seq<Event>): Bytes {
    if events == [] then [] else PrintEvent(events[0]) + Print(events[1..])
  }

  lemma {:induction false} IndexAt(before: Bytes, c: byte, after: Bytes)
    requires c !in before
    ensures Index(before + [c] + after, c) == |before|
  {
    if before != [] {
      assert (before + [c] + after)[1..] == before[1..] + [c] + after;
      IndexAt(before[1..], c, after);
    }
  }

  lemma ParseToken(token: Bytes, rest: Bytes)
    requires '>' !in token
    ensures ParseOne(['<'] + token + ['>'] + rest) ==
      var event := TokenEvent(ToLower(token));
      if event.Failure? then Failure(event.error) else Prepend([event.value], ParseOne(rest))
  {
    var command := ['<'] + token + ['>'] + rest;
    IndexAt(['<'] + token, '>', rest);
    assert command[1..|token| + 1] == token && command[|token| + 2..] == rest;
  }

  lemma ParseText(text: Bytes, rest: Bytes)
    requires text != [] && '<' !in text && (rest == [] || rest[0] == '<')
    ensures ParseOne(text + rest) == Prepend([Text(text)], ParseOne(rest))
  {
    assert text[0] in text;
    if rest == [] {
      assert text + rest == text && [Text(text)] + [] == [Text(text)];
      assert Index(text, '<') < 0;
    } else {
      assert text + rest == text + ['<'] + rest[1..];
      IndexAt(text, '<', rest[1..]);
      assert (text + rest)[..|text|] == text && (text + rest)[|text|..] == rest;
    }
  }

  lemma WaitAlphabet(seconds: nat)
    ensures '>' !in WAIT + Itoa(seconds) && ToLower(WAIT + Itoa(seconds)) == WAIT + Itoa(seconds)
  {
    var token := WAIT + Itoa(seconds);
    forall i | 0 <= i < |token| ensures !('A' <= token[i] <= 'Z') && token[i] != '>' {
      if i >= |WAIT| {
        assert token[i] == Digits(seconds)[i - |WAIT|];
      }
    }
    ToLowerFixes(token);
  }

  lemma TokenOfEvent(e: Event)
    requires !e.Text? && CanonicalEvent(e)
    ensures '>' !in TokenOf(e) && ToLower(TokenOf(e)) == TokenOf(e) && TokenEvent(TokenOf(e)) == Success(e)
  {
    if e.Wait? {
      var seconds := e.duration / SECOND;
      WaitAlphabet(seconds);
      WaitIsExact(seconds);
    }
  }

  /** Printing a canonical event list as one command and parsing it gives the list back. */
  lemma {:induction false} ParseOfPrint(events: seq<Event>)
    requires Canonical(events)
    ensures ParseOne(Print(events)) == Success(events)
    ensures events != [] && !events[0].Text? ==> Print(events) != [] && Print(events)[0] == '<'
  {
    if events != [] {
      var e, rest := events[0], Print(events[1..]);
      ParseOfPrint(events[1..]);
      assert [e] + events[1..] == events;
      if e.Text? {
        ParseText(e.value, rest);
      } else {
        TokenOfEvent(e);
        ParseToken(TokenOf(e), rest);
      }
    }
  }

  lemma {:induction false} LowerTwice(s: Bytes)
    ensures ToLower(ToLower(s)) == ToLower(s)
  {
    if s != [] {
      LowerTwice(s[1..]);
    }
  }

  lemma LowerKeepsOut(s: Bytes)
    requires '>' !in s
    ensures '>' !in ToLower(s)
  {
    var lower := ToLower(s);
    forall i | 0 <= i < |lower| ensures lower[i] != '>' {
      assert s[i] in s;
    }
  }

  lemma ParsedKeyIsCanonical(token: Bytes)
    requires '>' !in token
    ensures var event := TokenEvent(ToLower(token));
      event.Success? ==> !event.value.Text? && (event.value.Wait? || CanonicalKey(event.value.name))
  {
    LowerTwice(token);
    LowerKeepsOut(token);
  }

  lemma CanonicalGrows(e: Event, rest: seq<Event>)
    requires CanonicalEvent(e) && Canonical(rest)
    requires e.Text? && rest != [] ==> !rest[0].Text?
    ensures Canonical([e] + rest)
  {
  }

  ghost predicate WaitsFit(events: seq<Event>) {
    forall e :: e in events && e.Wait? ==> WholeSeconds(e.duration)
  }

  lemma WaitsFitRest(e: Event, rest: seq<Event>)
    requires WaitsFit([e] + rest)
    ensures WaitsFit(rest) && (e.Wait? ==> WholeSeconds(e.duration))
  {
    assert ([e] + rest)[0] == e;
  }

  lemma BodyHasNoEnd(command: Bytes, end: int)
    requires end == Index(command, '>') >= 1
    ensures '>' !in command[1..end]
  {
    assert command[1..end] == command[..end][1..];
  }

  ghost predicate ParsesCanonically(command: Bytes) {
    ParseOne(command).Success? && WaitsFit(ParseOne(command).value) ==>
      && Canonical(ParseOne(command).value)
      && (command != [] && command[0] == '<' ==> StartsWithToken(ParseOne(command).value))
  }

  predicate StartsWithToken(events: seq<Event>) {
    events != [] && !events[0].Text?
  }

  lemma FirstThenRest(e: Event, rest: seq<Event>, command: Bytes)
    requires ParseOne(command) == Success([e] + rest) && (e.Wait? || CanonicalEvent(e))
    requires WaitsFit(rest) ==> Canonical(rest)
    requires e.Text? && rest != [] && WaitsFit(rest) ==> !rest[0].Text?
    requires command != [] && command[0] == '<' ==> !e.Text?
    ensures ParsesCanonically(command)
  {
    if WaitsFit([e] + rest) {
      WaitsFitRest(e, rest);
      CanonicalGrows(e, rest);
    }
  }

  lemma TokenParsesCanonically(command: Bytes, end: int)
    requires command != [] && command[0] == '<' && end == Index(command, '>') >= 1
    requires ParsesCanonically(command[end + 1..])
    ensures ParsesCanonically(command)
  {
    BodyHasNoEnd(command, end);
    ParsedKeyIsCanonical(command[1..end]);
    var e, rest := TokenEvent(ToLower(command[1..end])), ParseOne(command[end + 1..]);
    if e.Success? && rest.Success? {
      FirstThenRest(e.value, rest.value, command);
    }
  }

  lemma TextParsesCanonically(command: Bytes, start: int)
    requires command != [] && command[0] != '<' && start == Index(command, '<') >= 1
    requires ParsesCanonically(command[start..])
    ensures ParsesCanonically(command)
  {
    var e, rest := Text(command[..start]), ParseOne(command[start..]);
    if rest.Success? {
      FirstThenRest(e, rest.value, command);
    }
  }

  lemma LastPieceParsesCanonically(command: Bytes)
    requires command != [] ==> Index(command, if command[0] == '<' then '>' else '<') < 0
    ensures ParsesCanonically(command)
  {
    if command != [] && command[0] != '<' {
      assert [Text(command)] + [] == [Text(command)];
      FirstThenRest(Text(command), [], command);
    }
  }

  lemma {:induction false} ParsedIsCanonical(command: Bytes)
    ensures ParsesCanonically(command)
    decreases |command|
  {
    if command == [] {
      LastPieceParsesCanonically(command);
    } else {
      var cut := Index(command, if command[0] == '<' then '>' else '<');
      if cut < 0 {
        LastPieceParsesCanonically(command);
      } else if command[0] == '<' {
        ParsedIsCanonical(command[cut + 1..]);
        TokenParsesCanonically(command, cut);
      } else {
        ParsedIsCanonical(command[cut..]);
        TextParsesCanonically(command, cut);
      }
    }
  }

  /** Whatever spelling a command uses, its printed form means the same, unless a wait has wrapped around. */
  lemma ReprintedMeansTheSame(command: Bytes)
    requires ParseOne(command).Success? && WaitsFit(ParseOne(command).value)
    ensures ParseOne(Print(ParseOne(command).value)) == ParseOne(command)
  {
    ParsedIsCanonical(command);
    ParseOfPrint(ParseOne(command).value);
  }

  /** The function keys are F1 to F12 and no others. */
  lemma FunctionKeysAreCanonical(n: nat)
    ensures CanonicalKey(['f'] + Itoa(n)) <==> 1 <= n <= 12
  {
    var name := ['f'] + Itoa(n);
    AtoiOfItoa(n);
    assert name[1..] == Itoa(n);
    forall i | 0 <= i < |name| ensures !('A' <= name[i] <= 'Z') && name[i] != '>' {
      assert i > 0 ==> name[i] == Digits(n)[i - 1];
    }
    ToLowerFixes(name);
    assert WAIT[0] == 'w';
    NoNamedKeyStartsWithF();
  }

  lemma NoNamedKeyStartsWithF()
    ensures forall token :: token in TokenKeys() ==> token != [] && token[0] != 'f'
  {
  }

  lemma KeyLetters(i: nat)
    requires i < |TokenKeys()|
    ensures var name := TokenKeys()[i];
      name != [] && name[0] != 'w' && forall c :: c in name ==> !('A' <= c <= 'Z') && c != '>'
  {
  }

  /** So are all named keys. */
  lemma NamedKeysAreCanonical(i: nat)
    requires i < |TokenKeys()|
    ensures CanonicalKey(TokenKeys()[i])
  {
    var name := TokenKeys()[i];
    KeyLetters(i);
    assert WAIT[0] == 'w';
    ToLowerFixes(name);
  }
}

/** The QEMU monitor commands that type boot events into a virtual machine. */
module MonitorScript {
  import opened ByteStrings
  import opened Decimal
  import opened BootCommand

  const SENDKEY: Bytes := "sendkey "

  /** qemuKeyName */
  function KeyName(key: Bytes): Bytes {
    if key == "enter" then "ret" else key
  }

  /** qemuRuneKey, for one ASCII character. */
  function RuneKey(c: byte): Bytes {
    if c == ' ' then "spc"
    else if c == '-' then "minus"
    else if c == '=' then "equal"
    else if c == '/' then "slash"
    else if c == ':' then "shift-semicolon"
    else if c == '.' then "dot"
    else [LowerByte(c)]
  }

  function TextLines(text: Bytes): (lines: seq<Bytes>)
    ensures |lines| == |text|
    ensures forall i :: 0 <= i < |text| ==> lines[i] == SENDKEY + RuneKey(text[i])
  {
    if text == [] then [] else TextLines(text[..|text| - 1]) + [SENDKEY + RuneKey(text[|text| - 1])]
  }

  /** Go converts the seconds of a Duration to an int by cutting off the fraction. */
  function Seconds(duration: int): int {
    if duration < 0 then -(-duration / SECOND) else duration / SECOND
  }

  function EventLines(e: Event): seq<Bytes> {
    match e
    case Key(name) => [SENDKEY + KeyName(name)]
    case Text(value) => TextLines(value)
    case Wait(duration) => ["sleep " + Itoa(Seconds(duration))]
  }

  function Flatten(parts: seq<seq<Bytes>>): seq<Bytes> {
    if parts == [] then [] else parts[0] + Flatten(parts[1..])
  }

  function LinesOf(events: seq<Event>): seq<seq<Bytes>> {
    seq(|events|, i requires 0 <= i < |events| => EventLines(events[i]))
  }

  function Script(events: seq<Event>): seq<Bytes> {
    Flatten(LinesOf(events))
  }

  lemma FlattenFirst(parts: seq<seq<Bytes>>, first: seq<Bytes>, rest: seq<seq<Bytes>>)
    requires parts == [first] + rest
    ensures Flatten(parts) == first + Flatten(rest)
  {
    assert parts[1..] == rest;
  }

  lemma AppendIsAssociative(a: seq<Bytes>, b: seq<Bytes>, c: seq<Bytes>)
    ensures a + (b + c) == a + b + c
  {
  }

  lemma {:induction false} FlattenOfConcatenation(a: seq<seq<Bytes>>, b: seq<seq<Bytes>>)
    ensures Flatten(a + b) == Flatten(a) + Flatten(b)
  {
    if a == [] {
      assert a + b == b && [] + Flatten(b) == Flatten(b);
    } else {
      FlattenOfConcatenation(a[1..], b);
      FlattenFirst(a + b, a[0], a[1..] + b);
      AppendIsAssociative(a[0], Flatten(a[1..]), Flatten(b));
    }
  }

  /** Sending key and text events one by one, as the build does, types the same as sending the whole list. */
  lemma ScriptOfConcatenation(a: seq<Event>, b: seq<Event>)
    ensures Script(a + b) == Script(a) + Script(b)
  {
    assert LinesOf(a + b) == LinesOf(a) + LinesOf(b);
    FlattenOfConcatenation(LinesOf(a), LinesOf(b));
  }

  lemma ScriptOfOne(e: Event)
    ensures Script([e]) == EventLines(e)
  {
    var parts := LinesOf([e]);
    assert parts == [EventLines(e)] && parts[1..] == [];
    assert Flatten(parts) == EventLines(e) + Flatten([]);
  }

  /** The script's inner loop: one command per character. */
  method TypeText(value: Bytes) returns (lines: seq<Bytes>)
    ensures lines == TextLines(value)
  {
    lines := [];
    for k := 0 to |value|
      invariant lines == TextLines(value[..k])
    {
      assert value[..k + 1][..k] == value[..k];
      lines := lines + [SENDKEY + RuneKey(value[k])];
    }
    assert value[..|value|] == value;
  }

  /** BootEventsToQEMUMonitorScript */
  method BootEventsToMonitorScript(events: seq<Event>) returns (lines: seq<Bytes>)
    ensures lines == Script(events)
  {
    lines := [];
    for i := 0 to |events|
      invariant lines == Script(events[..i])
    {
      var more := LinesOfEvent(events[i]);
      ScriptOfOne(events[i]);
      ScriptOfConcatenation(events[..i], [events[i]]);
      assert events[..i] + [events[i]] == events[..i + 1];
      lines := lines + more;
    }
    assert events[..|events|] == events;
  }

  method LinesOfEvent(e: Event) returns (lines: seq<Bytes>)
    ensures lines == EventLines(e)
  {
    match e {
      case Key(name) => lines := [SENDKEY + KeyName(name)];
      case Text(value) => lines := TypeText(value);
      case Wait(duration) => lines := ["sleep " + Itoa(Seconds(duration))];
    }
  }

  lemma SameRuneKey(c: byte, d: byte)
    ensures SENDKEY + RuneKey(c) == SENDKEY + RuneKey(d) <==> LowerByte(c) == LowerByte(d)
  {
    if SENDKEY + RuneKey(c) == SENDKEY + RuneKey(d) {
      assert (SENDKEY + RuneKey(c))[|SENDKEY|..] == RuneKey(c) && (SENDKEY + RuneKey(d))[|SENDKEY|..] == RuneKey(d);
      RuneKeyIsLowerCase(c, d);
    }
  }

  lemma RuneKeyIsLowerCase(c: byte, d: byte)
    ensures RuneKey(c) == RuneKey(d) ==> LowerByte(c) == LowerByte(d)
  {
    if |RuneKey(c)| > 1 && RuneKey(c) == RuneKey(d) {
      assert RuneKey(c)[0] == RuneKey(d)[0] && RuneKey(c)[1] == RuneKey(d)[1];
    }
  }

  predicate Alphanumeric(c: byte) {
    'a' <= c <= 'z' || '0' <= c <= '9'
  }

  predicate PlainName(key: Bytes) {
    key != [] && forall i :: 0 <= i < |key| ==> Alphanumeric(key[i]) || (key[i] == '-' && |key| > 1)
  }

  /** A character gets a plain key name exactly when it is a letter, a digit, or one of six others. */
  lemma KeyNameIsPlainIff(c: byte)
    ensures PlainName(RuneKey(c)) <==>
      Alphanumeric(LowerByte(c)) || c == ' ' || c == '-' || c == '=' || c == '/' || c == ':' || c == '.'
  {
    if |RuneKey(c)| == 1 {
      assert RuneKey(c)[0] == LowerByte(c);
    }
  }

  /** Two texts are typed the same exactly when they differ in letter case at most: no letter is sent shifted. */
  lemma TypedAlikeIffSameLetters(a: Bytes, b: Bytes)
    ensures TextLines(a) == TextLines(b) <==> ToLower(a) == ToLower(b)
  {
    if |a| == |b| {
      forall i | 0 <= i < |a| ensures TextLines(a)[i] == TextLines(b)[i] <==> ToLower(a)[i] == ToLower(b)[i] {
        SameRuneKey(a[i], b[i]);
      }
      assert TextLines(a) == TextLines(b) <==> forall i :: 0 <= i < |a| ==> TextLines(a)[i] == TextLines(b)[i];
      assert ToLower(a) == ToLower(b) <==> forall i :: 0 <= i < |a| ==> ToLower(a)[i] == ToLower(b)[i];
    }
  }
}

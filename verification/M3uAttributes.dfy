/**
The quoting-aware tokenizer of an EXTINF line (internal/iptv/m3u.go): where the title starts, and
which attributes stand before it.
*/
module M3uAttributes {
  import opened Wrappers
  import opened Text

  const EXTINF := "#EXTINF:"

  datatype Entry = Entry(
    id: string, name: string, group: string, logoUrl: string,
    channel: string, language: string, country: string, contentType: string)

  datatype ExtinfError = NoName | NoSeparator

  predicate IsKeyChar(c: char) {
    'a' <= c <= 'z' || 'A' <= c <= 'Z' || '0' <= c <= '9' || c == '-' || c == '_'
  }

  predicate IsBlank(c: char) { c == ' ' || c == '\t' }

  predicate IsNotBlank(c: char) { !IsBlank(c) }

  predicate IsSeparator(c: char) { IsBlank(c) || c == ',' }

  // ---------------------------------------------------------------- what the loops compute

  function Shift(r: Option<nat>, n: nat): Option<nat> {
    match r
    case None => None
    case Some(i) => Some(n + i)
  }

  /** What the title search remembers: the open quote and whether the last character was an escape. */
  datatype Scan = Found | Inside(quote: Option<char>, escaped: bool)

  const OUTSIDE := Inside(None, false)

  function Next(scan: Scan, c: char): Scan
    requires scan.Inside?
  {
    if scan.escaped then scan.(escaped := false)
    else if c == '\\' && scan.quote.Some? then scan.(escaped := true)
    else if c == '\'' || c == '"' then
      if scan.quote.None? then scan.(quote := Some(c))
      else if scan.quote.value == c then scan.(quote := None)
      else scan
    else if c == ',' && scan.quote.None? then Found
    else scan
  }

  /** The first comma that is neither inside quotes nor escaped inside quotes. */
  function SeparatorAt(s: string, scan: Scan): (r: Option<nat>)
    requires scan.Inside?
    ensures r.Some? ==> r.value < |s|
  {
    if s == "" then None
    else match Next(scan, s[0])
      case Found => Some(0)
      case next => Shift(SeparatorAt(s[1..], next), 1)
  }

  datatype Extinf = Extinf(metadata: string, title: string, hasTitle: bool)

  function SplitAtTitle(value: string): Extinf {
    match SeparatorAt(value, OUTSIDE)
    case None => Extinf(value, "", false)
    case Some(i) => Extinf(value[..i], value[i + 1..], true)
  }

  /** The length of the longest prefix whose characters all satisfy `p`. */
  function Span(p: char -> bool, s: string): (n: nat)
    ensures n <= |s| && (forall i :: 0 <= i < n ==> p(s[i])) && (n < |s| ==> !p(s[n]))
  {
    if s == "" || !p(s[0]) then 0 else 1 + Span(p, s[1..])
  }

  /** A quoted value after its opening quote: the unescaped text and the characters consumed. */
  function Quoted(s: string, quote: char): (r: (string, nat))
    ensures r.1 <= |s|
  {
    if s == "" then ("", 0)
    else if s[0] == '\\' && 1 < |s| then
      var rest := Quoted(s[2..], quote);
      ([s[1]] + rest.0, 2 + rest.1)
    else if s[0] == quote then ("", 1)
    else
      var rest := Quoted(s[1..], quote);
      ([s[0]] + rest.0, 1 + rest.1)
  }

  lemma QuotedStep(value: string, index: nat, quote: char)
    requires index < |value|
    ensures var r := Quoted(value[index..], quote);
            if value[index] == '\\' && index + 1 < |value| then
              r == ([value[index + 1]] + Quoted(value[index + 2..], quote).0, 2 + Quoted(value[index + 2..], quote).1)
            else if value[index] == quote then r == ("", 1)
            else r == ([value[index]] + Quoted(value[index + 1..], quote).0, 1 + Quoted(value[index + 1..], quote).1)
  {
    var s := value[index..];
    assert s[1..] == value[index + 1..];
    if 1 < |s| {
      assert s[2..] == value[index + 2..];
    }
  }

  /** One attribute value and the characters it consumes. */
  function Value(s: string): (r: (string, nat))
    ensures r.1 <= |s|
  {
    if s == "" then ("", 0)
    else if s[0] == '\'' || s[0] == '"' then
      var rest := Quoted(s[1..], s[0]);
      (rest.0, 1 + rest.1)
    else (s[..Span(IsNotBlank, s)], Span(IsNotBlank, s))
  }

  /** One pass of the attribute scan: what it found and the text still to be read. */
  datatype Token = Skipped(rest: string) | Attribute(key: string, value: string, rest: string)

  function AfterSeparators(s: string): (text: string)
    ensures |text| <= |s|
  {
    s[Span(IsSeparator, s)..]
  }

  function AfterBlanks(s: string): (text: string)
    ensures |text| <= |s|
  {
    s[Span(IsBlank, s)..]
  }

  function ValueText(s: string): string {
    Value(AfterBlanks(s)).0
  }

  function AfterValue(s: string): (rest: string)
    ensures |rest| <= |s|
  {
    AfterBlanks(s)[Value(AfterBlanks(s)).1..]
  }

  /** What stands after a key of the given length. */
  function KeyToken(text: string, n: nat): (token: Token)
    requires n <= |text|
    ensures |token.rest| <= |text| - n
  {
    var after := AfterBlanks(text[n..]);
    if after == "" || after[0] != '=' then Skipped(after)
    else Attribute(Lower(text[..n]), ValueText(after[1..]), AfterValue(after[1..]))
  }

  function NextToken(s: string): (token: Token)
    requires s != ""
    ensures |token.rest| < |s|
  {
    var text := AfterSeparators(s);
    var n := Span(IsKeyChar, text);
    if n == 0 then Skipped(text[Span(IsNotBlank, text)..]) else KeyToken(text, n)
  }

  /** The attributes of a text, added to those found so far; a repeated key keeps its last value. */
  function Attributes(s: string, found: map<string, string>): map<string, string>
    decreases |s|
  {
    if s == "" then found
    else match NextToken(s)
      case Skipped(rest) => Attributes(rest, found)
      case Attribute(key, value, rest) => Attributes(rest, found[key := value])
  }

  function Get(attributes: map<string, string>, key: string): string {
    if key in attributes then attributes[key] else ""
  }

  function ParsedExtinf(line: string): Result<Entry, ExtinfError>
    requires |EXTINF| <= |line|
  {
    var split := SplitAtTitle(Trim(line[|EXTINF|..]));
    var attributes := Attributes(split.metadata, map[]);
    var title := Trim(if Trim(split.title) == "" then Get(attributes, "tvg-name") else split.title);
    if title == "" then Err(NoName)
    else if !split.hasTitle && Get(attributes, "tvg-name") == "" then Err(NoSeparator)
    else Ok(Entry(
      Trim(Get(attributes, "tvg-id")), title, Trim(Get(attributes, "group-title")),
      Trim(Get(attributes, "tvg-logo")), Trim(Get(attributes, "tvg-chno")),
      Trim(Get(attributes, "tvg-language")), Trim(Get(attributes, "tvg-country")),
      Trim(Get(attributes, "tvg-type"))))
  }

  // ---------------------------------------------------------------- the loops

  method SplitExtinf(value: string) returns (metadata: string, title: string, hasTitle: bool)
    ensures Extinf(metadata, title, hasTitle) == SplitAtTitle(value)
  {
    hide Next;
    var scan := OUTSIDE;
    for index := 0 to |value|
      invariant scan.Inside?
      invariant SeparatorAt(value, OUTSIDE) == Shift(SeparatorAt(value[index..], scan), index)
    {
      scan := ScanCharacter(scan, value[index]);
      assert value[index..][1..] == value[index + 1..];
      if scan.Found? {
        return value[..index], value[index + 1..], true;
      }
    }
    return value, "", false;
  }

  /** One turn of the search: the flags `quote` and `escaped` of the source are the fields of `scan`. */
  method ScanCharacter(scan: Scan, character: char) returns (next: Scan)
    requires scan.Inside?
    ensures next == Next(scan, character)
  {
    var quote, escaped := scan.quote, scan.escaped;
    if escaped {
      escaped := false;
    } else if character == '\\' && quote.Some? {
      escaped := true;
    } else if character == '\'' || character == '"' {
      if quote.None? {
        quote := Some(character);
      } else if quote.value == character {
        quote := None;
      }
    } else if character == ',' && quote.None? {
      return Found;
    }
    return Inside(quote, escaped);
  }

  /** The inner loops that advance over a run of characters. */
  method Advance(value: string, start: nat, p: char -> bool) returns (index: nat)
    requires start <= |value|
    ensures index == start + Span(p, value[start..])
  {
    index := start;
    while index < |value| && p(value[index])
      invariant start <= index <= |value|
      invariant start + Span(p, value[start..]) == index + Span(p, value[index..])
    {
      assert value[index..][1..] == value[index + 1..];
      index := index + 1;
    }
  }

  method ParseAttributeValue(value: string, start: nat) returns (parsed: string, next: nat)
    requires start <= |value|
    ensures parsed == Value(value[start..]).0 && next == start + Value(value[start..]).1
  {
    var index := start;
    if index >= |value| {
      return "", index;
    }
    if value[index] != '\'' && value[index] != '"' {
      index := Advance(value, start, IsNotBlank);
      assert value[start..][..index - start] == value[start..index];
      return value[start..index], index;
    }
    assert value[start..][1..] == value[start + 1..];
    parsed, next := ParseQuotedValue(value, index);
  }

  method ParseQuotedValue(value: string, start: nat) returns (parsed: string, next: nat)
    requires start < |value|
    ensures parsed == Quoted(value[start + 1..], value[start]).0
    ensures next == start + 1 + Quoted(value[start + 1..], value[start]).1
  {
    hide Quoted;
    var quote := value[start];
    var index := start + 1;
    var builder := "";
    while index < |value|
      invariant start < index <= |value|
      invariant Quoted(value[start + 1..], quote).0 == builder + Quoted(value[index..], quote).0
      invariant start + 1 + Quoted(value[start + 1..], quote).1 == index + Quoted(value[index..], quote).1
    {
      var character := value[index];
      QuotedStep(value, index, quote);
      if character == '\\' && index + 1 < |value| {
        builder := builder + [value[index + 1]];
        index := index + 2;
        continue;
      }
      if character == quote {
        return builder, index + 1;
      }
      builder := builder + [character];
      index := index + 1;
    }
    QuotedEmpty(quote);
    assert value[index..] == "";
    return builder, index;
  }

  lemma QuotedEmpty(quote: char)
    ensures Quoted("", quote) == ("", 0)
  {
  }

  /** The part of one pass that follows a key ending at `stop`. */
  method ParseKeyed(value: string, start: nat, stop: nat, found: map<string, string>)
    returns (attributes: map<string, string>, index: nat)
    requires start <= stop <= |value|
    ensures index <= |value|
    ensures match KeyToken(value[start..], stop - start)
            case Skipped(rest) => rest == value[index..] && attributes == found
            case Attribute(key, parsed, rest) => rest == value[index..] && attributes == found[key := parsed]
  {
    hide Span, ValueText, AfterValue, Lower, IsBlank;
    var key := Lower(value[start..stop]);
    DropDrop(value, start, stop - start);
    index := Advance(value, stop, IsBlank);
    DropDrop(value, stop, index - stop);
    if index >= |value| || value[index] != '=' {
      return found, index;
    }
    DropDrop(value, index, 1);
    var parsed, next := ParseAfterEquals(value, index + 1);
    return found[key := parsed], next;
  }

  method ParseAfterEquals(value: string, index: nat) returns (parsed: string, next: nat)
    requires index <= |value|
    ensures next <= |value| && parsed == ValueText(value[index..]) && value[next..] == AfterValue(value[index..])
  {
    hide Span, Value;
    var valueStart := Advance(value, index, IsBlank);
    DropDrop(value, index, valueStart - index);
    parsed, next := ParseAttributeValue(value, valueStart);
    DropDrop(value, valueStart, next - valueStart);
  }

  /** Every pass of the loop moves forward, so the scan ends on every input. */
  method ParseAttributes(value: string) returns (attributes: map<string, string>)
    ensures attributes == Attributes(value, map[])
  {
    hide NextToken;
    attributes := map[];
    var index := 0;
    while index < |value|
      invariant index <= |value|
      invariant Attributes(value[index..], attributes) == Attributes(value, map[])
    {
      attributes, index := ParseToken(value, index, attributes);
    }
  }

  method ParseToken(value: string, position: nat, found: map<string, string>)
    returns (attributes: map<string, string>, index: nat)
    requires position < |value|
    ensures position < index <= |value|
    ensures match NextToken(value[position..])
            case Skipped(rest) => rest == value[index..] && attributes == found
            case Attribute(key, parsed, rest) => rest == value[index..] && attributes == found[key := parsed]
  {
    hide Span, KeyToken;
    var start := Advance(value, position, IsSeparator);
    DropDrop(value, position, start - position);
    var stop := Advance(value, start, IsKeyChar);
    if start == stop {
      index := Advance(value, stop, IsNotBlank);
      DropDrop(value, start, index - start);
      attributes := found;
    } else {
      attributes, index := ParseKeyed(value, start, stop, found);
    }
  }

  method ParseExtinf(line: string) returns (entry: Result<Entry, ExtinfError>)
    requires |EXTINF| <= |line|
    ensures entry == ParsedExtinf(line)
  {
    var value := Trim(line[|EXTINF|..]);
    var metadata, title, hasTitle := SplitExtinf(value);
    var attributes := ParseAttributes(metadata);
    if Trim(title) == "" {
      title := Get(attributes, "tvg-name");
    }
    title := Trim(title);
    if title == "" {
      return Err(NoName);
    }
    if !hasTitle && Get(attributes, "tvg-name") == "" {
      return Err(NoSeparator);
    }
    return Ok(Entry(
      Trim(Get(attributes, "tvg-id")), title, Trim(Get(attributes, "group-title")),
      Trim(Get(attributes, "tvg-logo")), Trim(Get(attributes, "tvg-chno")),
      Trim(Get(attributes, "tvg-language")), Trim(Get(attributes, "tvg-country")),
      Trim(Get(attributes, "tvg-type"))));
  }

  // ---------------------------------------------------------------- a printer for attribute lists

  /** How a value is written: between quotes of either kind, or bare. */
  datatype Style = Double | Single | Bare

  predicate IsQuote(c: char) { c == '"' || c == '\'' }

  /** A value written so that it can stand between quotes. */
  function Escape(value: string, quote: char): string {
    if value == "" then "" else EscapedChar(value[0], quote) + Escape(value[1..], quote)
  }

  function EscapedChar(c: char, quote: char): string {
    if c == quote || c == '\\' then ['\\', c] else [c]
  }

  /** A bare value ends at a blank; it may hold no comma and no quote, or the title would begin elsewhere. */
  predicate CanBeBare(value: string) {
    value != "" && forall i :: 0 <= i < |value| ==> !IsBlank(value[i]) && value[i] !in ",'\""
  }

  predicate IsKey(key: string) {
    key != "" && forall i :: 0 <= i < |key| ==> IsKeyChar(key[i])
  }

  datatype Pair = Pair(key: string, value: string, style: Style)

  ghost predicate IsPrintable(pair: Pair) {
    IsKey(pair.key) && (pair.style == Bare ==> CanBeBare(pair.value))
  }

  ghost predicate Keyed(pairs: seq<Pair>) {
    forall i :: 0 <= i < |pairs| ==> IsPrintable(pairs[i])
  }

  function PrintedValue(pair: Pair): string {
    match pair.style
    case Double => "\"" + Escape(pair.value, '"') + "\""
    case Single => "'" + Escape(pair.value, '\'') + "'"
    case Bare => pair.value
  }

  function PrintedPair(pair: Pair): string {
    " " + pair.key + "=" + PrintedValue(pair)
  }

  function PrintedPairs(pairs: seq<Pair>): string {
    if pairs == [] then "" else PrintedPair(pairs[0]) + PrintedPairs(pairs[1..])
  }

  /** The map a list of pairs stands for, later pairs overriding earlier ones. */
  function AsMap(pairs: seq<Pair>, found: map<string, string>): map<string, string> {
    if pairs == [] then found else AsMap(pairs[1..], found[Lower(pairs[0].key) := pairs[0].value])
  }

  // ---------------------------------------------------------------- splitting at the title

  /** Text without quotes and commas is passed over. */
  lemma {:induction false} PassPlain(a: string, b: string)
    requires forall i :: 0 <= i < |a| ==> a[i] !in ",'\""
    ensures SeparatorAt(a + b, OUTSIDE) == Shift(SeparatorAt(b, OUTSIDE), |a|)
  {
    if a == "" {
      assert a + b == b;
    } else {
      assert (a + b)[1..] == a[1..] + b;
      PassPlain(a[1..], b);
    }
  }

  /** An escaped value and its closing quote are passed over, commas and quotes inside it included. */
  lemma {:induction false} PassQuoted(value: string, quote: char, b: string)
    requires IsQuote(quote)
    ensures SeparatorAt(Escape(value, quote) + [quote] + b, Inside(Some(quote), false))
            == Shift(SeparatorAt(b, OUTSIDE), |Escape(value, quote)| + 1)
  {
    var scan := Inside(Some(quote), false);
    assert Next(scan, quote) == OUTSIDE;
    if value == "" {
      PassOne(quote, b, scan);
      assert Escape(value, quote) + [quote] + b == [quote] + b;
    } else {
      PassQuoted(value[1..], quote, b);
      var rest := Escape(value[1..], quote) + [quote] + b;
      EscapeStep(value, quote, b);
      PassEscaped(value[0], quote, rest);
    }
  }

  lemma EscapeStep(value: string, quote: char, b: string)
    requires value != ""
    ensures Escape(value, quote) == EscapedChar(value[0], quote) + Escape(value[1..], quote)
    ensures Escape(value, quote) + [quote] + b
         == EscapedChar(value[0], quote) + (Escape(value[1..], quote) + [quote] + b)
  {
  }

  lemma PassEscaped(c: char, quote: char, rest: string)
    requires IsQuote(quote)
    ensures SeparatorAt(EscapedChar(c, quote) + rest, Inside(Some(quote), false))
            == Shift(SeparatorAt(rest, Inside(Some(quote), false)), |EscapedChar(c, quote)|)
  {
    var scan := Inside(Some(quote), false);
    if c == quote || c == '\\' {
      PassOne(c, rest, Next(scan, '\\'));
      PassOne('\\', [c] + rest, scan);
      assert EscapedChar(c, quote) + rest == ['\\'] + ([c] + rest);
    } else {
      PassOne(c, rest, scan);
    }
    hide SeparatorAt;
  }

  lemma PassOne(c: char, rest: string, scan: Scan)
    requires scan.Inside? && Next(scan, c).Inside?
    ensures SeparatorAt([c] + rest, scan) == Shift(SeparatorAt(rest, Next(scan, c)), 1)
  {
    assert ([c] + rest)[1..] == rest;
  }

  lemma PassPair(pair: Pair, b: string)
    requires IsPrintable(pair)
    ensures SeparatorAt(PrintedPair(pair) + b, OUTSIDE)
            == Shift(SeparatorAt(b, OUTSIDE), |PrintedPair(pair)|)
  {
    match pair.style
    case Bare => PassPlain(PrintedPair(pair), b);
    case Double => PassQuotedPair(pair, '"', b);
    case Single => PassQuotedPair(pair, '\'', b);
  }

  lemma PassQuotedPair(pair: Pair, quote: char, b: string)
    requires IsKey(pair.key) && IsQuote(quote)
    requires PrintedValue(pair) == [quote] + Escape(pair.value, quote) + [quote]
    ensures SeparatorAt(PrintedPair(pair) + b, OUTSIDE)
            == Shift(SeparatorAt(b, OUTSIDE), |PrintedPair(pair)|)
  {
    var head := " " + pair.key + "=";
    var tail := Escape(pair.value, quote) + [quote] + b;
    HeadIsPlain(pair.key);
    PassPlain(head, [quote] + tail);
    assert Next(OUTSIDE, quote) == Inside(Some(quote), false);
    PassOne(quote, tail, OUTSIDE);
    PassQuoted(pair.value, quote, b);
    hide *;
    PairIsSpelled(pair, quote, b);
  }

  lemma PairIsSpelled(pair: Pair, quote: char, b: string)
    requires PrintedValue(pair) == [quote] + Escape(pair.value, quote) + [quote]
    ensures PrintedPair(pair) + b == " " + pair.key + "=" + ([quote] + (Escape(pair.value, quote) + [quote] + b))
    ensures |PrintedPair(pair)| == |" " + pair.key + "="| + 1 + (|Escape(pair.value, quote)| + 1)
  {
    hide PrintedValue, Escape;
  }

  lemma HeadIsPlain(key: string)
    requires IsKey(key)
    ensures var head := " " + key + "="; forall i :: 0 <= i < |head| ==> head[i] !in ",'\""
  {
  }

  lemma {:induction false} PassPairs(pairs: seq<Pair>, b: string)
    requires Keyed(pairs)
    ensures SeparatorAt(PrintedPairs(pairs) + b, OUTSIDE)
            == Shift(SeparatorAt(b, OUTSIDE), |PrintedPairs(pairs)|)
  {
    hide PrintedPair, SeparatorAt;
    if pairs == [] {
      assert PrintedPairs(pairs) + b == b;
    } else {
      PassPairs(pairs[1..], b);
      PassPair(pairs[0], PrintedPairs(pairs[1..]) + b);
      assert PrintedPairs(pairs) + b == PrintedPair(pairs[0]) + (PrintedPairs(pairs[1..]) + b);
    }
  }

  // ---------------------------------------------------------------- reading the attributes

  lemma {:induction false} SpanIs(p: char -> bool, a: string, b: string)
    requires forall i :: 0 <= i < |a| ==> p(a[i])
    requires b != "" ==> !p(b[0])
    ensures Span(p, a + b) == |a| && (a + b)[|a|..] == b
  {
    assert (a + b)[|a|..] == b;
  }

  lemma ReadEscaped(c: char, quote: char, rest: string)
    requires IsQuote(quote)
    ensures Quoted(EscapedChar(c, quote) + rest, quote)
            == ([c] + Quoted(rest, quote).0, |EscapedChar(c, quote)| + Quoted(rest, quote).1)
  {
    hide Quoted;
    if c == quote || c == '\\' {
      ReadEscape(c, quote, rest);
    } else {
      ReadPlain(c, quote, rest);
    }
  }

  lemma ReadPlain(c: char, quote: char, rest: string)
    requires c != quote && c != '\\'
    ensures Quoted([c] + rest, quote) == ([c] + Quoted(rest, quote).0, 1 + Quoted(rest, quote).1)
  {
    assert ([c] + rest)[1..] == rest;
  }

  lemma ReadEscape(c: char, quote: char, rest: string)
    ensures Quoted(['\\', c] + rest, quote) == ([c] + Quoted(rest, quote).0, 2 + Quoted(rest, quote).1)
  {
    assert (['\\', c] + rest)[2..] == rest;
  }

  lemma {:induction false} ReadQuoted(value: string, quote: char, b: string)
    requires IsQuote(quote)
    ensures Quoted(Escape(value, quote) + [quote] + b, quote) == (value, |Escape(value, quote)| + 1)
  {
    if value != "" {
      ReadQuoted(value[1..], quote, b);
      EscapeStep(value, quote, b);
      ReadEscaped(value[0], quote, Escape(value[1..], quote) + [quote] + b);
      assert value == [value[0]] + value[1..];
      hide Quoted, Escape;
    }
  }

  lemma ReadValue(value: string, quote: char, b: string)
    requires IsQuote(quote)
    ensures ValueText([quote] + Escape(value, quote) + [quote] + b) == value
    ensures AfterValue([quote] + Escape(value, quote) + [quote] + b) == b
  {
    var quoted := Escape(value, quote) + [quote] + b;
    var s := [quote] + Escape(value, quote) + [quote] + b;
    assert s == [quote] + quoted && s[1..] == quoted;
    NoSpan(IsBlank, s);
    ReadQuoted(value, quote, b);
    hide Span, Quoted, Escape;
    assert s[|Escape(value, quote)| + 2..] == b;
  }

  /** A bare value is read up to the next blank. */
  lemma ReadBare(value: string, b: string)
    requires CanBeBare(value) && (b == "" || IsBlank(b[0]))
    ensures ValueText(value + b) == value && AfterValue(value + b) == b
  {
    var s := value + b;
    assert s[0] == value[0];
    NoSpan(IsBlank, s);
    SpanIs(IsNotBlank, value, b);
    assert s[..|value|] == value;
    hide Span;
  }

  /** A blank, a key and an equals sign are read as the attribute whose value follows. */
  lemma ReadKey(key: string, value: string)
    requires IsKey(key)
    ensures NextToken(" " + (key + ("=" + value))) == Attribute(Lower(key), ValueText(value), AfterValue(value))
  {
    hide Span, ValueText, AfterValue, Lower;
    var after := "=" + value;
    var text := key + after;
    assert after[1..] == value && text[..|key|] == key;
    SpanIs(IsSeparator, " ", text);
    SpanIs(IsKeyChar, key, after);
    NoSpan(IsBlank, after);
  }

  lemma ReadPair(pair: Pair, b: string)
    requires IsPrintable(pair) && (b == "" || IsBlank(b[0]))
    ensures NextToken(PrintedPair(pair) + b) == Attribute(Lower(pair.key), pair.value, b)
  {
    hide Escape, NextToken, ValueText, AfterValue, Lower, IsKey;
    var value := PrintedValue(pair) + b;
    assert PrintedPair(pair) + b == " " + (pair.key + ("=" + value));
    ReadKey(pair.key, value);
    match pair.style
    case Double =>
      ReadValue(pair.value, '"', b);
      assert value == ['"'] + Escape(pair.value, '"') + ['"'] + b;
    case Single =>
      ReadValue(pair.value, '\'', b);
      assert value == ['\''] + Escape(pair.value, '\'') + ['\''] + b;
    case Bare => ReadBare(pair.value, b);
  }

  lemma NoSpan(p: char -> bool, s: string)
    requires s != "" ==> !p(s[0])
    ensures Span(p, s) == 0 && s[0..] == s
  {
  }

  lemma {:induction false} ReadPairs(pairs: seq<Pair>, found: map<string, string>)
    requires Keyed(pairs)
    ensures Attributes(PrintedPairs(pairs), found) == AsMap(pairs, found)
  {
    hide NextToken, PrintedValue;
    if pairs != [] {
      ReadPair(pairs[0], PrintedPairs(pairs[1..]));
      ReadPairs(pairs[1..], found[Lower(pairs[0].key) := pairs[0].value]);
    }
  }

  /** The duration "-1" in front is read as a key without a value and skipped. */
  lemma SkipDuration(pairs: seq<Pair>)
    requires Keyed(pairs)
    ensures Attributes("-1" + PrintedPairs(pairs), map[]) == AsMap(pairs, map[])
  {
    hide Attributes, NextToken;
    if pairs == [] {
      SkipOnlyDuration();
      assert "-1" + PrintedPairs(pairs) == "-1";
    } else {
      ReadPairs(pairs, map[]);
      PairsStart(pairs);
      SkipDurationText(PrintedPairs(pairs), pairs[0].key[0]);
    }
  }

  lemma SkipOnlyDuration()
    ensures Attributes("-1", map[]) == map[]
  {
    SkipKey("-1", "");
    assert "-1" + "" == "-1";
    hide NextToken;
  }

  lemma PairsStart(pairs: seq<Pair>)
    requires Keyed(pairs) && pairs != []
    ensures " " + [pairs[0].key[0]] <= PrintedPairs(pairs) && IsKeyChar(pairs[0].key[0])
  {
    hide Escape, PrintedValue;
    assert IsPrintable(pairs[0]);
  }

  lemma SkipDurationText(rest: string, c: char)
    requires " " + [c] <= rest && IsKeyChar(c)
    ensures Attributes("-1" + rest, map[]) == Attributes(rest, map[])
  {
    hide Span, NextToken;
    var text := rest[1..];
    assert rest == " " + text;
    SpanIs(IsBlank, " ", text);
    SkipKey("-1", rest);
    SameToken(text);
    AttributesStep("-1" + rest);
    AttributesStep(rest);
    AttributesStep(text);
    hide Attributes;
  }

  lemma AttributesStep(s: string)
    requires s != ""
    ensures Attributes(s, map[]) == match NextToken(s)
                                    case Skipped(rest) => Attributes(rest, map[])
                                    case Attribute(key, value, rest) => Attributes(rest, map[key := value])
  {
  }

  /** A key that no equals sign follows is skipped together with the blanks behind it. */
  lemma SkipKey(key: string, rest: string)
    requires IsKey(key) && (rest == "" || IsBlank(rest[0]))
    requires AfterBlanks(rest) != "" ==> AfterBlanks(rest)[0] != '='
    ensures NextToken(key + rest) == Skipped(AfterBlanks(rest))
  {
    NoSpan(IsSeparator, key + rest);
    SpanIs(IsKeyChar, key, rest);
    hide Span;
  }

  /** A blank in front of a token changes nothing. */
  lemma SameToken(text: string)
    requires text != "" && IsKeyChar(text[0])
    ensures NextToken(" " + text) == NextToken(text)
  {
    SpanIs(IsSeparator, " ", text);
    NoSpan(IsSeparator, text);
  }

  /**
  For a duration followed by printed pairs, the line is split at the comma in front of the title,
  whatever commas and quotes the values hold, and reading the metadata gives back the map of the pairs.
  */
  lemma RoundTrip(pairs: seq<Pair>, title: string)
    requires Keyed(pairs)
    ensures SplitAtTitle("-1" + PrintedPairs(pairs) + "," + title)
            == Extinf("-1" + PrintedPairs(pairs), title, true)
    ensures Attributes("-1" + PrintedPairs(pairs), map[]) == AsMap(pairs, map[])
  {
    SkipDuration(pairs);
    hide Attributes, AsMap;
    var metadata := "-1" + PrintedPairs(pairs);
    TitleFound(pairs, title);
    assert (metadata + "," + title)[..|metadata|] == metadata;
    assert (metadata + "," + title)[|metadata| + 1..] == title;
  }

  lemma TitleFound(pairs: seq<Pair>, title: string)
    requires Keyed(pairs)
    ensures SeparatorAt("-1" + PrintedPairs(pairs) + "," + title, OUTSIDE) == Some(2 + |PrintedPairs(pairs)|)
  {
    var rest := PrintedPairs(pairs) + ("," + title);
    assert "-1" + PrintedPairs(pairs) + "," + title == "-1" + rest;
    PassPlain("-1", rest);
    PassPairs(pairs, "," + title);
    assert Next(OUTSIDE, ',') == Found;
    hide PrintedPairs, Next;
  }

  /** An entry line printed from its parts is read back as an entry with those parts. */
  lemma EntryRoundTrip(pairs: seq<Pair>, title: string)
    requires Keyed(pairs) && title != "" && Trim(title) == title
    ensures var attributes := AsMap(pairs, map[]);
            ParsedExtinf(EXTINF + "-1" + PrintedPairs(pairs) + "," + title)
            == Ok(Entry(
                 Trim(Get(attributes, "tvg-id")), title, Trim(Get(attributes, "group-title")),
                 Trim(Get(attributes, "tvg-logo")), Trim(Get(attributes, "tvg-chno")),
                 Trim(Get(attributes, "tvg-language")), Trim(Get(attributes, "tvg-country")),
                 Trim(Get(attributes, "tvg-type"))))
  {
    TrimSplits(title);
    TrimmedValue(PrintedPairs(pairs), title);
    RoundTrip(pairs, title);
    LineIsSpelled(PrintedPairs(pairs), title);
    hide PrintedPairs, Keyed, Trim, Attributes, AsMap, SplitAtTitle, ParsedExtinf, Get;
    var line := EXTINF + "-1" + PrintedPairs(pairs) + "," + title;
    ParsedFrom(line, "-1" + PrintedPairs(pairs), title, AsMap(pairs, map[]));
  }

  lemma LineIsSpelled(pairs: string, title: string)
    ensures var line := EXTINF + "-1" + pairs + "," + title;
            |EXTINF| <= |line| && line[|EXTINF|..] == "-1" + pairs + "," + title
  {
  }

  /** How an entry line is read, once its parts are known. */
  lemma ParsedFrom(line: string, metadata: string, title: string, attributes: map<string, string>)
    requires |EXTINF| <= |line| && Trim(line[|EXTINF|..]) == metadata + "," + title
    requires SplitAtTitle(metadata + "," + title) == Extinf(metadata, title, true)
    requires Attributes(metadata, map[]) == attributes && title != "" && Trim(title) == title
    ensures ParsedExtinf(line)
         == Ok(Entry(
              Trim(Get(attributes, "tvg-id")), title, Trim(Get(attributes, "group-title")),
              Trim(Get(attributes, "tvg-logo")), Trim(Get(attributes, "tvg-chno")),
              Trim(Get(attributes, "tvg-language")), Trim(Get(attributes, "tvg-country")),
              Trim(Get(attributes, "tvg-type"))))
  {
    hide Trim, SplitAtTitle, Attributes, Get;
  }

  lemma TrimmedValue(pairs: string, title: string)
    requires title != "" && !IsSpace(title[|title| - 1])
    ensures Trim("-1" + pairs + "," + title) == "-1" + pairs + "," + title
  {
    var value := "-1" + pairs + "," + title;
    assert value[0] == '-' && value[|value| - 1] == title[|title| - 1];
    TrimKeeps(value);
  }
}

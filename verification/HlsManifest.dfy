/**
How a media playlist is cut into references and the text around them (internal/playback/media_proxy.go).
RFC 8216 knows references as the URI lines of section 4.1 and as the quoted URI attributes of section 4.2.
*/
module HlsManifest {
  import opened Wrappers
  import opened Text
  import opened Sequences

  const HEADER := "#EXTM3U"

  /** The texts around the references, and the references: text 0, reference 0, text 1, and so on. */
  datatype Cut = Cut(texts: seq<string>, refs: seq<string>)

  /** A cut put together again, with the given strings where the references were. */
  function Weave(texts: seq<string>, refs: seq<string>): string
    requires |texts| == |refs| + 1
  {
    if refs == [] then texts[0] else texts[0] + refs[0] + Weave(texts[1..], refs[1..])
  }

  predicate IsQuote(c: char) {
    c == '"' || c == '\''
  }

  /** A quoted URI attribute opens at index `i`; the name is matched in upper or lower case. */
  predicate OpensAt(s: string, i: nat) {
    && i + 5 <= |s|
    && UpperChar(s[i]) == 'U' && UpperChar(s[i + 1]) == 'R' && UpperChar(s[i + 2]) == 'I' && s[i + 3] == '='
    && IsQuote(s[i + 4])
  }

  /** The one place where the text opens a quoted URI attribute is its end. */
  ghost predicate OpensAtEnd(text: string) {
    |text| >= 5 && forall i :: 0 <= i < |text| ==> (OpensAt(text, i) <==> i == |text| - 5)
  }

  ghost predicate OpensNowhere(text: string) {
    forall i :: 0 <= i < |text| ==> !OpensAt(text, i)
  }

  /**
  The references are the attribute values: each text but the last ends where a value opens and opens nowhere
  before, the value holds no closing quote, and the next text starts with that quote. The last text opens nowhere.
  */
  ghost predicate IsAttributeCut(cut: Cut) {
    && |cut.texts| == |cut.refs| + 1
    && (forall k :: 0 <= k < |cut.refs| ==>
          && OpensAtEnd(cut.texts[k]) && Closes(cut.texts[k][|cut.texts[k]| - 1], cut.refs[k], cut.texts[k + 1]))
    && OpensNowhere(cut.texts[|cut.refs|])
  }

  predicate Closes(quote: char, value: string, behind: string) {
    quote !in value && behind != "" && behind[0] == quote
  }

  /** The line opens a value that it never closes: behind the last text there is no closing quote. */
  ghost predicate IsUnclosed(cut: Cut, rest: string) {
    && |cut.texts| == |cut.refs| + 1
    && (forall k :: 0 <= k < |cut.texts| ==> OpensAtEnd(cut.texts[k]))
    && (forall k :: 0 <= k < |cut.refs| ==> Closes(cut.texts[k][|cut.texts[k]| - 1], cut.refs[k], cut.texts[k + 1]))
    && cut.texts[|cut.refs|][|cut.texts[|cut.refs|]| - 1] !in rest
  }

  function Tail(cut: Cut): Cut
    requires |cut.texts| > 0 && |cut.refs| > 0
  {
    Cut(cut.texts[1..], cut.refs[1..])
  }

  lemma TailIsCut(cut: Cut)
    requires IsAttributeCut(cut) && cut.refs != []
    ensures IsAttributeCut(Tail(cut))
  {
    hide OpensAtEnd, OpensNowhere, Closes;
  }

  lemma TailIsUnclosed(cut: Cut, rest: string)
    requires IsUnclosed(cut, rest) && cut.refs != []
    ensures IsUnclosed(Tail(cut), rest)
  {
    hide OpensAtEnd, Closes;
  }

  /** Two texts that open at their end and begin the same line are the same. */
  lemma SameOpening(a: string, b: string, line: string)
    requires OpensAtEnd(a) && OpensAtEnd(b) && a <= line && b <= line
    ensures a == b
  {
    assert OpensAt(a, |a| - 5) && OpensAt(b, |b| - 5);
    if |a| < |b| {
      assert OpensAt(b, |a| - 5);
    } else if |b| < |a| {
      assert OpensAt(a, |b| - 5);
    }
  }

  /** Two values that close with the same quote and begin the same text are the same. */
  lemma SameClosing(a: string, b: string, quote: char, behindA: string, behindB: string)
    requires Closes(quote, a, behindA) && Closes(quote, b, behindB)
    requires a + behindA == b + behindB
    ensures a == b && behindA == behindB
  {
    var s := a + behindA;
    assert s[|a|] == quote && s[|b|] == quote && s[..|a|] == a && s[..|b|] == b;
    assert forall i :: 0 <= i < |a| ==> s[i] == a[i] && a[i] != quote;
    assert forall i :: 0 <= i < |b| ==> s[i] == b[i] && b[i] != quote;
    assert s[|a|..] == behindA && s[|b|..] == behindB;
  }

  lemma WeaveStarts(texts: seq<string>, refs: seq<string>)
    requires |texts| == |refs| + 1
    ensures texts[0] <= Weave(texts, refs)
  {
  }

  /** The first reference of two cuts of the same line, and what follows it, agree. */
  lemma FirstAgrees(a: Cut, b: Cut, restA: string, restB: string)
    requires |a.texts| == |a.refs| + 1 && |b.texts| == |b.refs| + 1 && a.refs != [] && b.refs != []
    requires OpensAtEnd(a.texts[0]) && OpensAtEnd(b.texts[0])
    requires Closes(a.texts[0][|a.texts[0]| - 1], a.refs[0], a.texts[1])
    requires Closes(b.texts[0][|b.texts[0]| - 1], b.refs[0], b.texts[1])
    requires Weave(a.texts, a.refs) + restA == Weave(b.texts, b.refs) + restB
    ensures a.texts[0] == b.texts[0] && a.refs[0] == b.refs[0]
    ensures Weave(a.texts[1..], a.refs[1..]) + restA == Weave(b.texts[1..], b.refs[1..]) + restB
  {
    hide Weave, OpensAt;
    var line := Weave(a.texts, a.refs) + restA;
    var behindA, behindB := Weave(a.texts[1..], a.refs[1..]) + restA, Weave(b.texts[1..], b.refs[1..]) + restB;
    WeaveStarts(a.texts[1..], a.refs[1..]);
    WeaveStarts(b.texts[1..], b.refs[1..]);
    WeaveStep(a.texts, a.refs);
    WeaveStep(b.texts, b.refs);
    assert line == a.texts[0] + (a.refs[0] + behindA) && line == b.texts[0] + (b.refs[0] + behindB);
    SameOpening(a.texts[0], b.texts[0], line);
    assert a.refs[0] + behindA == line[|a.texts[0]|..];
    SameClosing(a.refs[0], b.refs[0], a.texts[0][|a.texts[0]| - 1], behindA, behindB);
  }

  lemma WeaveStep(texts: seq<string>, refs: seq<string>)
    requires |texts| == |refs| + 1 && refs != []
    ensures Weave(texts, refs) == texts[0] + refs[0] + Weave(texts[1..], refs[1..])
  {
  }

  lemma NoOpeningInside(text: string, line: string)
    requires OpensAtEnd(text) && text <= line
    ensures !OpensNowhere(line)
  {
    assert OpensAt(text, |text| - 5);
    assert OpensAt(line, |text| - 5);
  }

  /** A line has at most one attribute cut. */
  lemma {:induction false} CutIsUnique(a: Cut, b: Cut)
    requires IsAttributeCut(a) && IsAttributeCut(b)
    requires Weave(a.texts, a.refs) == Weave(b.texts, b.refs)
    ensures a == b
    decreases |a.refs|
  {
    hide OpensAtEnd, OpensNowhere, Closes;
    WeaveStarts(a.texts, a.refs);
    WeaveStarts(b.texts, b.refs);
    if a.refs == [] && b.refs != [] {
      NoOpeningInside(b.texts[0], a.texts[0]);
    } else if a.refs != [] && b.refs == [] {
      NoOpeningInside(a.texts[0], b.texts[0]);
    } else if a.refs != [] {
      WithNothingBehind(a);
      WithNothingBehind(b);
      FirstAgrees(a, b, "", "");
      WithNothingBehind(Tail(a));
      WithNothingBehind(Tail(b));
      TailIsCut(a);
      TailIsCut(b);
      CutIsUnique(Tail(a), Tail(b));
      assert a.texts == [a.texts[0]] + Tail(a).texts && b.texts == [b.texts[0]] + Tail(b).texts;
      assert a.refs == [a.refs[0]] + Tail(a).refs && b.refs == [b.refs[0]] + Tail(b).refs;
    }
  }

  lemma WithNothingBehind(cut: Cut)
    requires |cut.texts| == |cut.refs| + 1
    ensures Weave(cut.texts, cut.refs) + "" == Weave(cut.texts, cut.refs)
  {
  }

  /** A line with an unclosed value has no attribute cut at all. */
  lemma {:induction false} UnclosedHasNoCut(open: Cut, rest: string, cut: Cut)
    requires IsUnclosed(open, rest) && IsAttributeCut(cut)
    ensures Weave(open.texts, open.refs) + rest != Weave(cut.texts, cut.refs)
    decreases |open.refs|
  {
    hide OpensAtEnd, OpensNowhere, Closes;
    if Weave(open.texts, open.refs) + rest == Weave(cut.texts, cut.refs) {
      WeaveStarts(open.texts, open.refs);
      WeaveStarts(cut.texts, cut.refs);
      WithNothingBehind(cut);
      if cut.refs == [] {
        NoOpeningInside(open.texts[0], cut.texts[0]);
      } else if open.refs == [] {
        LastIsClosed(open.texts[0], rest, cut);
      } else {
        FirstAgrees(open, cut, rest, "");
        TailIsCut(cut);
        TailIsUnclosed(open, rest);
        WithNothingBehind(Tail(cut));
        UnclosedHasNoCut(Tail(open), rest, Tail(cut));
      }
    }
  }

  lemma LastIsClosed(text: string, rest: string, cut: Cut)
    requires OpensAtEnd(text) && IsAttributeCut(cut) && cut.refs != []
    requires text + rest == Weave(cut.texts, cut.refs)
    ensures text[|text| - 1] in rest
  {
    hide OpensNowhere;
    var line := Weave(cut.texts, cut.refs);
    WeaveStarts(cut.texts, cut.refs);
    WeaveStep(cut.texts, cut.refs);
    SameOpening(text, cut.texts[0], line);
    WeaveStarts(cut.texts[1..], cut.refs[1..]);
    var behind := Weave(cut.texts[1..], cut.refs[1..]);
    assert line == text + (cut.refs[0] + behind);
    assert rest == line[|text|..] && rest == cut.refs[0] + behind;
    assert rest[|cut.refs[0]|] == behind[0];
  }

  /** Texts that each open a value, the values, and what stands behind the last. */
  ghost predicate IsChain(texts: seq<string>, behind: string, refs: seq<string>) {
    && |texts| == |refs|
    && forall k :: 0 <= k < |refs| ==>
         OpensAtEnd(texts[k]) && Closes(texts[k][|texts[k]| - 1], refs[k], (texts + [behind])[k + 1])
  }

  lemma ChainTail(texts: seq<string>, behind: string, refs: seq<string>)
    requires IsChain(texts, behind, refs) && refs != []
    ensures |texts| == |refs| && texts[0] != "" && OpensAtEnd(texts[0]) && IsChain(texts[1..], behind, refs[1..])
    ensures var all := texts + [behind];
            all[0] == texts[0] && all[1..] == texts[1..] + [behind] && Closes(texts[0][|texts[0]| - 1], refs[0], all[1])
  {
    hide OpensAt, Closes;
    var all := texts + [behind];
    assert all[1..] == texts[1..] + [behind];
    assert forall k :: 1 <= k < |refs| ==> all[1..][k] == all[k + 1];
  }

  /** The references read so far are the first ones of any attribute cut of the line. */
  lemma {:induction false} BeginsEveryCut(texts: seq<string>, behind: string, refs: seq<string>, rest: string, cut: Cut)
    requires IsChain(texts, behind, refs) && IsAttributeCut(cut)
    requires Weave(texts + [behind], refs) + rest == Weave(cut.texts, cut.refs)
    ensures refs <= cut.refs
    decreases |refs|
  {
    hide OpensAtEnd, OpensNowhere, Closes, Weave, IsChain;
    if refs != [] {
      var all := texts + [behind];
      ChainTail(texts, behind, refs);
      WeaveStarts(all, refs);
      WithNothingBehind(cut);
      if cut.refs == [] {
        assert cut.texts == [cut.texts[0]];
        WeaveNone(cut.texts[0]);
        NoOpeningInside(texts[0], cut.texts[0]);
      } else {
        FirstAgrees(Cut(all, refs), cut, rest, "");
        TailIsCut(cut);
        WithNothingBehind(Tail(cut));
        BeginsEveryCut(texts[1..], behind, refs[1..], rest, Tail(cut));
        PrefixByHead(refs, cut.refs);
      }
    }
  }

  lemma PrefixByHead(a: seq<string>, b: seq<string>)
    requires a != [] && b != [] && a[0] == b[0] && a[1..] <= b[1..]
    ensures a <= b
  {
    assert a == [a[0]] + a[1..] && b == [b[0]] + b[1..];
  }

  datatype LineKind = Untouched | Tag | Location

  /** How `rewriteHLSLine` sorts a line. */
  function KindOf(line: string): LineKind {
    var trimmed := Trim(line);
    if trimmed == "" || HEADER <= trimmed then Untouched else if "#" <= trimmed then Tag else Location
  }

  /** The references of a line: none in blank lines and the header, attribute values in tags, else the trimmed line. */
  ghost predicate IsLineCut(line: string, cut: Cut) {
    && |cut.texts| == |cut.refs| + 1
    && line == Weave(cut.texts, cut.refs)
    && match KindOf(line)
       case Untouched => cut.refs == []
       case Tag => IsAttributeCut(cut)
       case Location => cut == LocationCut(line)
  }

  function LocationCut(line: string): Cut {
    TrimSplits(line);
    Cut([line[..Indent(line)], line[Indent(line) + |Trim(line)|..]], [Trim(line)])
  }

  /** Blank lines and the header hold no reference, and a line that is no tag is one, up to white space around it. */
  lemma LineReferences(line: string, cut: Cut)
    requires IsLineCut(line, cut)
    ensures Trim(line) == "" || "#EXTM3U" <= Trim(line) ==> cut.refs == []
    ensures Trim(line) != "" && Trim(line)[0] != '#' ==> cut.refs == [Trim(line)]
  {
    hide Trim, Indent;
  }

  /** The reference of a tag with one URI attribute is its value, whatever the quotes and the case of the name. */
  lemma TagReference(before: string, name: string, quote: char, value: string, after: string, cut: Cut)
    requires "#EXT-X-" <= before && Upper(name) == "URI" && quote in ['"', '\''] && quote !in value
    requires '"' !in before && '\'' !in before && '"' !in after && '\'' !in after
    ensures var line := before + name + "=" + [quote] + value + [quote] + after;
            IsLineCut(line, cut) <==> cut == Cut([before + name + "=" + [quote], [quote] + after], [value])
  {
    hide Trim, Indent, Upper;
    var line := before + name + "=" + [quote] + value + [quote] + after;
    var expected := Cut([before + name + "=" + [quote], [quote] + after], [value]);
    TagStart(line);
    TagAttribute(before, name, quote, value, after);
    assert IsAttributeCut(expected) && line == Weave(expected.texts, expected.refs);
    if IsLineCut(line, cut) {
      LineCutIsUnique(line, cut, expected);
    }
  }

  lemma TagStart(line: string)
    requires "#EXT-X-" <= line
    ensures KindOf(line) == Tag
  {
    TrimSplits(line);
    assert line[0] == '#' && !IsSpace('#');
    assert Indent(line) == 0;
    assert Trim(line) <= line;
    assert line[4] == '-' && HEADER[4] == 'M';
  }

  lemma TagAttribute(before: string, name: string, quote: char, value: string, after: string)
    requires Upper(name) == "URI" && quote in ['"', '\''] && quote !in value
    requires '"' !in before && '\'' !in before && '"' !in after && '\'' !in after
    ensures var line := before + name + "=" + [quote] + value + [quote] + after;
            var cut := Cut([before + name + "=" + [quote], [quote] + after], [value]);
            IsAttributeCut(cut) && line == Weave(cut.texts, cut.refs)
  {
    var line := before + name + "=" + [quote] + value + [quote] + after;
    var opening, behind := before + name + "=" + [quote], [quote] + after;
    var n := |before|;
    assert |name| == |"URI"| && forall k :: 0 <= k < 3 ==> UpperChar(name[k]) == "URI"[k];
    assert forall k :: 0 <= k < 3 ==> opening[n + k] == name[k];
    assert OpensAt(opening, n);
    assert forall i :: 0 <= i < n ==> opening[i] == before[i];
    assert forall i :: 0 <= i < |opening| - 1 ==> !IsQuote(opening[i]);
    assert OpensNowhere(behind) by {
      assert forall i :: 1 <= i < |behind| ==> behind[i] == after[i - 1] && !IsQuote(behind[i]);
    }
    assert Weave([behind], []) == behind;
    assert Weave([opening, behind], [value]) == opening + value + behind;
  }

  lemma LineCutIsUnique(line: string, a: Cut, b: Cut)
    requires IsLineCut(line, a) && IsLineCut(line, b)
    ensures a == b
  {
    hide IsAttributeCut, KindOf, LocationCut;
    if KindOf(line) == Tag {
      CutIsUnique(a, b);
    } else if KindOf(line) == Untouched {
      assert a.texts == [a.texts[0]] && b.texts == [b.texts[0]];
    }
  }

  /** The first place where the trimmed text of a line occurs is behind the leading white space. */
  lemma TrimmedStarts(line: string)
    requires Trim(line) != ""
    ensures Index(line, Trim(line)) == Some(Indent(line))
  {
    TrimSplits(line);
    var trimmed := Trim(line);
    assert forall j: nat :: OccursAt(line, trimmed, j) ==> line[j] == line[j..j + |trimmed|][0];
    FirstOccurrence(line, trimmed, Indent(line));
  }

  /** Cutting and weaving leave everything between the references as it was. */
  lemma {:induction false} WeaveAppend(texts: seq<string>, refs: seq<string>, ref: string, text: string)
    requires |texts| == |refs| + 1
    ensures Weave(texts + [text], refs + [ref]) == Weave(texts, refs) + ref + text
  {
    var texts', refs' := texts + [text], refs + [ref];
    assert texts'[0] == texts[0];
    if refs == [] {
      assert texts'[1..] == [text] && refs'[1..] == [];
    } else {
      assert texts'[1..] == texts[1..] + [text] && refs'[1..] == refs[1..] + [ref];
      WeaveAppend(texts[1..], refs[1..], ref, text);
    }
  }

  lemma {:induction false} WeaveExtend(texts: seq<string>, refs: seq<string>, last: string, more: string)
    requires |texts| == |refs|
    ensures Weave(texts + [last + more], refs) == Weave(texts + [last], refs) + more
  {
    hide Weave;
    if refs == [] {
      WeaveNone(last + more);
      WeaveNone(last);
      assert texts + [last + more] == [last + more] && texts + [last] == [last];
    } else {
      var longer, shorter := texts + [last + more], texts + [last];
      assert longer[1..] == texts[1..] + [last + more] && shorter[1..] == texts[1..] + [last];
      WeaveStep(longer, refs);
      WeaveStep(shorter, refs);
      WeaveExtend(texts[1..], refs[1..], last, more);
      Associative(texts[0] + refs[0], Weave(shorter[1..], refs[1..]), more);
    }
  }

  lemma WeaveNone(text: string)
    ensures Weave([text], []) == text
  {
  }

  /**
  Where the scan of a tag stands: the references found so far with the texts before them, and where the
  current text began; nothing opens between there and the position.
  */
  datatype Scan = Scan(texts: seq<string>, refs: seq<string>, began: nat)

  ghost predicate IsScan(line: string, scan: Scan, position: nat) {
    && |scan.texts| == |scan.refs| && scan.began <= position <= |line|
    && (forall k :: 0 <= k < |scan.texts| ==>
          && OpensAtEnd(scan.texts[k])
          && (k + 1 < |scan.texts| ==> Closes(scan.texts[k][|scan.texts[k]| - 1], scan.refs[k], scan.texts[k + 1])))
    && (scan.refs != [] ==> scan.began < position && LastCloses(scan, line))
    && (forall i :: scan.began <= i < position ==> !OpensAt(line, i))
    && IsSpelled(line, scan, position, scan.refs, line[..position])
  }

  ghost predicate LastCloses(scan: Scan, line: string) {
    && scan.texts != [] && |scan.texts| == |scan.refs| && scan.began < |line|
    && var text, ref := scan.texts[|scan.texts| - 1], scan.refs[|scan.refs| - 1];
       text != "" && line[scan.began] == text[|text| - 1] && text[|text| - 1] !in ref
  }

  /** `spelled` is what was read up to the position, with the given strings for the references. */
  ghost predicate IsSpelled(line: string, scan: Scan, position: nat, values: seq<string>, spelled: string)
    requires scan.began <= position <= |line| && |scan.texts| == |scan.refs|
  {
    |values| == |scan.refs| && spelled == Weave(scan.texts + [line[scan.began..position]], values)
  }

  /** Reading on without a reference. */
  lemma SpellText(line: string, scan: Scan, position: nat, values: seq<string>, spelled: string, position': nat)
    requires scan.began <= position <= position' <= |line| && |scan.texts| == |scan.refs|
    requires IsSpelled(line, scan, position, values, spelled)
    ensures IsSpelled(line, scan, position', values, spelled + line[position..position'])
  {
    hide Weave;
    assert line[scan.began..position'] == line[scan.began..position] + line[position..position'];
    WeaveExtend(scan.texts, values, line[scan.began..position], line[position..position']);
  }

  lemma ScanStarts(line: string)
    ensures IsReading(line, Scan([], [], 0), 0, [], "")
  {
  }

  /** What the whole line was read as. */
  lemma SpelledAll(line: string, scan: Scan, values: seq<string>, spelled: string)
    requires scan.began <= |line| && |scan.texts| == |scan.refs| && IsSpelled(line, scan, |line|, values, spelled)
    ensures |values| == |scan.refs| && spelled == Weave(scan.texts + [line[scan.began..]], values)
  {
    assert line[scan.began..|line|] == line[scan.began..];
  }

  /** The closing quote of a value is the first one behind the opening quote. */
  lemma CloserFound(line: string, open: nat, value: nat)
    requires open + 1 <= |line| && value < |line[open + 1..]|
    requires line[open + 1..][value] == line[open] && line[open] !in line[open + 1..][..value]
    ensures var end := value + open + 1;
            end < |line| && line[end] == line[open] && line[open] !in line[open + 1..end]
  {
    DropDrop(line, open + 1, value);
  }

  function Next(line: string, scan: Scan, start: nat, end: nat): Scan
    requires scan.began <= start <= end < |line|
  {
    Scan(scan.texts + [line[scan.began..start]], scan.refs + [line[start..end]], end)
  }

  /** Reading a reference and its closing quote. */
  lemma SpellReference(
    line: string, scan: Scan, start: nat, end: nat, values: seq<string>, spelled: string, local: string)
    requires scan.began <= start <= end < |line| && |scan.texts| == |scan.refs|
    requires IsSpelled(line, scan, start, values, spelled)
    ensures IsSpelled(line, Next(line, scan, start, end), end + 1, values + [local], spelled + local + [line[end]])
  {
    hide Weave;
    assert line[end..end + 1] == [line[end]];
    WeaveAppend(scan.texts + [line[scan.began..start]], values, local, [line[end]]);
  }

  lemma ScanText(line: string, scan: Scan, position: nat, position': nat)
    requires IsScan(line, scan, position) && position <= position' <= |line|
    requires forall i :: position <= i < position' ==> !OpensAt(line, i)
    ensures IsScan(line, scan, position')
  {
    hide OpensAt, OpensAtEnd, Closes, Weave;
    SpellText(line, scan, position, scan.refs, line[..position], position');
    assert line[..position'] == line[..position] + line[position..position'];
  }

  lemma OpeningText(line: string, began: nat, start: nat)
    requires began + 5 <= start <= |line| && OpensAt(line, start - 5)
    requires forall i :: began <= i < start - 5 ==> !OpensAt(line, i)
    ensures OpensAtEnd(line[began..start])
  {
    var text := line[began..start];
    assert forall i :: 0 <= i && i + 5 <= |text| ==> (OpensAt(text, i) <==> OpensAt(line, began + i));
  }

  lemma ScanReference(line: string, scan: Scan, position: nat, start: nat, end: nat)
    requires IsScan(line, scan, position) && position + 5 <= start <= end < |line|
    requires OpensAt(line, start - 5) && forall i :: position <= i < start - 5 ==> !OpensAt(line, i)
    requires line[end] == line[start - 1] && line[start - 1] !in line[start..end]
    ensures IsScan(line, Next(line, scan, start, end), end + 1)
  {
    hide OpensAtEnd, Weave;
    OpeningText(line, scan.began, start);
    var next, text := Next(line, scan, start, end), line[scan.began..start];
    SpellText(line, scan, position, scan.refs, line[..position], start);
    assert line[..start] == line[..position] + line[position..start];
    SpellReference(line, scan, start, end, scan.refs, line[..start], line[start..end]);
    assert line[..end + 1] == line[..start] + line[start..end] + [line[end]];
    assert text[|text| - 1] == line[start - 1];
    assert forall k :: 0 <= k < |scan.texts| ==> next.texts[k] == scan.texts[k] && next.refs[k] == scan.refs[k];
    if scan.refs != [] {
      assert text[0] == line[scan.began];
      assert LastCloses(scan, line);
    }
  }

  lemma ScanDone(line: string, scan: Scan)
    requires IsScan(line, scan, |line|)
    ensures var cut := Cut(scan.texts + [line[scan.began..]], scan.refs);
            IsAttributeCut(cut) && line == Weave(cut.texts, cut.refs)
  {
    hide OpensAtEnd, Weave;
    var text := line[scan.began..];
    assert line[scan.began..|line|] == text && line[..|line|] == line;
    assert forall i :: 0 <= i < |text| && OpensAt(text, i) ==> OpensAt(line, scan.began + i);
    assert scan.refs != [] ==> LastCloses(scan, line) && text[0] == line[scan.began];
  }

  lemma ScanUnclosed(line: string, scan: Scan, position: nat, start: nat)
    requires IsScan(line, scan, position) && position + 5 <= start <= |line|
    requires OpensAt(line, start - 5) && forall i :: position <= i < start - 5 ==> !OpensAt(line, i)
    requires line[start - 1] !in line[start..]
    ensures IsUnclosedLine(line)
  {
    hide OpensAtEnd, Weave;
    OpeningText(line, scan.began, start);
    var text := line[scan.began..start];
    SpellText(line, scan, position, scan.refs, line[..position], start);
    var cut := Cut(scan.texts + [text], scan.refs);
    assert line == line[..position] + line[position..start] + line[start..];
    assert text[|text| - 1] == line[start - 1];
    assert scan.refs != [] ==> LastCloses(scan, line) && text[0] == line[scan.began];
    assert IsUnclosed(cut, line[start..]);
  }

  lemma ScanBeginsEveryCut(line: string, scan: Scan, position: nat, cut: Cut)
    requires IsScan(line, scan, position) && IsAttributeCut(cut) && line == Weave(cut.texts, cut.refs)
    ensures scan.refs <= cut.refs
  {
    hide OpensAtEnd, OpensNowhere, OpensAt, Closes, Weave, LastCloses, IsAttributeCut;
    var behind := line[scan.began..position];
    SplitLine(line, position);
    ScanIsChain(line, scan, position);
    BeginsEveryCut(scan.texts, behind, scan.refs, line[position..], cut);
  }

  lemma SplitLine(line: string, position: nat)
    requires position <= |line|
    ensures line[..position] + line[position..] == line
  {
  }

  lemma ScanIsChain(line: string, scan: Scan, position: nat)
    requires IsScan(line, scan, position)
    ensures IsChain(scan.texts, line[scan.began..position], scan.refs)
  {
    hide OpensAt, IsSpelled;
    var behind := line[scan.began..position];
    if scan.refs != [] {
      assert LastCloses(scan, line) && behind[0] == line[scan.began];
    }
    var all := scan.texts + [behind];
    assert forall k :: 0 <= k < |scan.refs| ==> all[k] == scan.texts[k];
  }

  ghost predicate IsUnclosedLine(line: string) {
    exists cut, rest :: IsUnclosed(cut, rest) && line == Weave(cut.texts, cut.refs) + rest
  }

  /** A tag either has its attribute cut or is unclosed, never both. */
  lemma UnclosedOrCut(line: string, cut: Cut)
    requires IsUnclosedLine(line) && IsAttributeCut(cut)
    ensures line != Weave(cut.texts, cut.refs)
  {
    var open, rest :| IsUnclosed(open, rest) && line == Weave(open.texts, open.refs) + rest;
    UnclosedHasNoCut(open, rest, cut);
  }

  const URI := "URI="

  /** Where the next attribute named URI is, searching in upper case as `rewriteHLSAttributes` does. */
  lemma NextUri(line: string, position: nat)
    requires position <= |line|
    ensures match Index(Upper(line[position..]), URI)
            case None => forall i :: position <= i < |line| ==> !OpensAt(line, i)
            case Some(relative) =>
              && position + relative + 4 <= |line|
              && (forall i :: position <= i < position + relative ==> !OpensAt(line, i))
              && (forall i :: position + relative < i < position + relative + 4 ==> !OpensAt(line, i))
              && (OpensAt(line, position + relative) <==>
                    position + relative + 4 < |line| && IsQuote(line[position + relative + 4]))
  {
    hide Upper, OpensAt, OccursAt, NamesUri;
    forall i | position <= i < |line|
      ensures OccursAt(Upper(line[position..]), URI, i - position) <==> NamesUri(line, i) {
      UpperOccurs(line, position, i);
    }
    forall i | position <= i < |line|
      ensures OpensAt(line, i) <==> NamesUri(line, i) && i + 4 < |line| && IsQuote(line[i + 4])
      ensures NamesUri(line, i) ==> i + 4 <= |line| && forall k :: i < k < i + 4 ==> !NamesUri(line, k)
    {
      OpeningNames(line, i);
    }
    match Index(Upper(line[position..]), URI)
    case None =>
    case Some(relative) =>
      UpperFits(line, position, relative);
      assert NamesUri(line, position + relative);
  }

  /** The scan of a tag at a position, and what was written for what it read, with `values` for the references. */
  ghost predicate IsReading(line: string, scan: Scan, position: nat, values: seq<string>, written: string) {
    IsScan(line, scan, position) && IsSpelled(line, scan, position, values, written)
  }

  lemma ReadText(line: string, scan: Scan, position: nat, values: seq<string>, written: string, to: nat)
    requires IsReading(line, scan, position, values, written) && position <= to <= |line|
    requires forall i :: position <= i < to ==> !OpensAt(line, i)
    ensures IsReading(line, scan, to, values, written + line[position..to])
  {
    hide OpensAt, IsSpelled, OpensAtEnd, Closes, LastCloses;
    ScanText(line, scan, position, to);
    SpellText(line, scan, position, values, written, to);
  }

  lemma ReadReference(
    line: string, scan: Scan, position: nat, values: seq<string>, written: string, start: nat, end: nat,
    local: string)
    requires IsReading(line, scan, position, values, written) && Leads(line, position, Value(start, end))
    ensures scan.began <= start
    ensures IsReading(line, Next(line, scan, start, end), end + 1, values + [local],
                      written + line[position..start] + local + [line[end]])
  {
    hide OpensAt, IsSpelled, OpensAtEnd, Closes, LastCloses;
    ScanReference(line, scan, position, start, end);
    SpellText(line, scan, position, values, written, start);
    SpellReference(line, scan, start, end, values, written + line[position..start], local);
  }

  /** What was read, and the value met next, begin every cut of the line. */
  lemma ReadBeginsEveryCut(
    line: string, scan: Scan, position: nat, values: seq<string>, written: string, start: nat, end: nat, cut: Cut)
    requires IsReading(line, scan, position, values, written) && Leads(line, position, Value(start, end))
    requires IsAttributeCut(cut) && line == Weave(cut.texts, cut.refs)
    ensures scan.refs + [line[start..end]] <= cut.refs
  {
    hide OpensAt, IsSpelled, OpensAtEnd, Closes, LastCloses, IsAttributeCut, Weave;
    ScanReference(line, scan, position, start, end);
    ScanBeginsEveryCut(line, Next(line, scan, start, end), end + 1, cut);
  }

  lemma ReadAll(line: string, scan: Scan, values: seq<string>, written: string)
    requires IsReading(line, scan, |line|, values, written)
    ensures scan.began <= |line|
    ensures var cut := Cut(scan.texts + [line[scan.began..]], scan.refs);
            IsAttributeCut(cut) && line == Weave(cut.texts, cut.refs) && |values| == |cut.refs|
              && written == Weave(cut.texts, values)
  {
    hide OpensAt, IsSpelled, OpensAtEnd, Closes, LastCloses, IsAttributeCut;
    ScanDone(line, scan);
    SpelledAll(line, scan, values, written);
  }

  lemma ReadUnclosed(line: string, scan: Scan, position: nat, values: seq<string>, written: string, start: nat)
    requires IsReading(line, scan, position, values, written) && Leads(line, position, Open(start))
    ensures IsUnclosedLine(line)
  {
    hide OpensAt, IsScan, IsSpelled, IsUnclosedLine;
    ScanUnclosed(line, scan, position, start);
  }

  /**
  What the scan of a tag meets next: no further attribute, one without quotes, one never closed, or a quoted value.
  */
  datatype Step = Rest | Skip(to: nat) | Open(start: nat) | Value(start: nat, end: nat)

  ghost predicate Leads(line: string, position: nat, step: Step) {
    && position <= |line|
    && match step
       case Rest => forall i :: position <= i < |line| ==> !OpensAt(line, i)
       case Skip(to) => position < to <= |line| && forall i :: position <= i < to ==> !OpensAt(line, i)
       case Open(start) => IsFirstOpening(line, position, start) && line[start - 1] !in line[start..]
       case Value(start, end) =>
         IsFirstOpening(line, position, start) && start <= end < |line| && line[end] == line[start - 1]
           && line[start - 1] !in line[start..end]
  }

  ghost predicate IsFirstOpening(line: string, position: nat, start: nat) {
    && position + 5 <= start <= |line| && OpensAt(line, start - 5)
    && forall i :: position <= i < start - 5 ==> !OpensAt(line, i)
  }

  /** One round of the search in `rewriteHLSAttributes`. */
  method NextStep(line: string, position: nat) returns (step: Step)
    requires position <= |line|
    ensures Leads(line, position, step)
  {
    hide OpensAt, Upper, IsQuote, UpperChar, OccursAt, Index;
    NextUri(line, position);
    var relative := Index(Upper(line[position..]), URI);
    if relative.None? {
      return Rest;
    }
    var attribute := position + relative.value;
    var quoteStart := attribute + |URI|;
    if quoteStart >= |line| || !IsQuote(line[quoteStart]) {
      return Skip(quoteStart);
    }
    var quote := line[quoteStart];
    var end := IndexChar(line[quoteStart + 1..], quote);
    if end.None? {
      return Open(quoteStart + 1);
    }
    CloserFound(line, quoteStart, end.value);
    return Value(quoteStart + 1, end.value + quoteStart + 1);
  }

  predicate NamesUri(line: string, i: nat) {
    i + 4 <= |line| && UpperChar(line[i]) == 'U' && UpperChar(line[i + 1]) == 'R' && UpperChar(line[i + 2]) == 'I'
      && line[i + 3] == '='
  }

  lemma UpperFits(line: string, position: nat, relative: nat)
    requires position <= |line| && OccursAt(Upper(line[position..]), URI, relative)
    ensures position + relative + 4 <= |line|
  {
  }

  lemma UpperOccurs(line: string, position: nat, i: nat)
    requires position <= i <= |line|
    ensures OccursAt(Upper(line[position..]), URI, i - position) <==> NamesUri(line, i)
  {
    var upper := Upper(line[position..]);
    if i + 4 <= |line| {
      var found := upper[i - position..i - position + 4];
      assert forall k :: 0 <= k < 4 ==> found[k] == UpperChar(line[i + k]);
      assert found == URI <==> found[0] == 'U' && found[1] == 'R' && found[2] == 'I' && found[3] == '=';
    }
  }

  lemma OpeningNames(line: string, i: nat)
    ensures OpensAt(line, i) <==> NamesUri(line, i) && i + 4 < |line| && IsQuote(line[i + 4])
    ensures NamesUri(line, i) ==> i + 4 <= |line| && forall k :: i < k < i + 4 ==> !NamesUri(line, k)
  {
  }

  /** A replacement a reader of the rewritten line takes for a whole reference again. */
  predicate IsPlain(local: string) {
    local != "" && local[0] != '#' && forall i :: 0 <= i < |local| ==> !IsSpace(local[i]) && !IsQuote(local[i])
  }

  /** Each replacement is plain, or is the reference itself. */
  predicate ArePlain(refs: seq<string>, locals: seq<string>) {
    |locals| == |refs| && forall k :: 0 <= k < |refs| ==> locals[k] == refs[k] || IsPlain(locals[k])
  }

  lemma AttributesReadBack(cut: Cut, locals: seq<string>)
    requires IsAttributeCut(cut) && ArePlain(cut.refs, locals)
    ensures IsAttributeCut(Cut(cut.texts, locals))
  {
    hide OpensAt, OpensNowhere;
    forall k | 0 <= k < |locals| ensures Closes(cut.texts[k][|cut.texts[k]| - 1], locals[k], cut.texts[k + 1]) {
      assert IsQuote(cut.texts[k][|cut.texts[k]| - 1]) by { EndsInQuote(cut.texts[k]); }
    }
  }

  lemma EndsInQuote(text: string)
    requires OpensAtEnd(text)
    ensures IsQuote(text[|text| - 1])
  {
    assert OpensAt(text, |text| - 5);
  }

  /** Trimming sees through what follows a non-blank start. */
  lemma TrimPrefix(text: string, more: string)
    requires Trim(text) != ""
    ensures Trim(text + more) != "" && Indent(text + more) == Indent(text) && Trim(text + more)[0] == text[Indent(text)]
  {
    var line := text + more;
    TrimSplits(text);
    TrimSplits(line);
    var i := Indent(text);
    assert Start(text, 0) == i < |text| && !IsSpace(line[i]);
    assert Start(line, 0) == i;
  }

  lemma TrimmedHead(line: string, k: nat)
    requires k <= |Trim(line)|
    ensures Indent(line) + k <= |line| && Trim(line)[..k] == line[Indent(line)..Indent(line) + k]
  {
    TrimSplits(line);
  }

  /** Replacing attribute values leaves a tag a tag. */
  lemma StaysTag(text: string, before: string, after: string)
    requires OpensAtEnd(text) && KindOf(text + before) == Tag
    ensures KindOf(text + after) == Tag
  {
    EndsInQuote(text);
    assert Trim(text) != "" by {
      TrimSplits(text);
    }
    TrimPrefix(text, before);
    TrimPrefix(text, after);
    HeaderSeen(text, after, before);
  }

  /** A header in a line is seen in the text up to the first quote already. */
  lemma HeaderSeen(text: string, after: string, before: string)
    requires text != "" && IsQuote(text[|text| - 1]) && Trim(text) != ""
    ensures HEADER <= Trim(text + after) ==> HEADER <= Trim(text + before)
  {
    hide Trim, Indent;
    TrimPrefix(text, before);
    TrimPrefix(text, after);
    TrimSplits(text);
    var i, line := Indent(text), text + after;
    if HEADER <= Trim(line) {
      TrimmedHead(line, 7);
      assert line[i..i + 7] == HEADER;
      NoQuoteInside(line, i, |text| - 1);
      assert (text + before)[i..i + 7] == text[i..i + 7] == line[i..i + 7];
      HeaderShows(text + before, i);
    }
  }

  lemma NoQuoteInside(line: string, i: nat, q: nat)
    requires i + 7 <= |line| && line[i..i + 7] == HEADER && i <= q < |line| && IsQuote(line[q])
    ensures i + 7 <= q
  {
    assert forall k :: i <= k < i + 7 ==> line[k] == line[i..i + 7][k - i];
    assert forall k :: 0 <= k < 7 ==> !IsQuote(HEADER[k]);
  }

  lemma HeaderShows(line: string, i: nat)
    requires i + 7 <= |line| && line[i..i + 7] == HEADER && i == Indent(line) && Trim(line) != ""
    ensures HEADER <= Trim(line)
  {
    TrimSplits(line);
    assert line[i + 6] == HEADER[6] == 'U';
    assert i + 7 <= i + |Trim(line)|;
    assert Trim(line)[..7] == line[i..i + 7];
  }

  /** A location keeps its white space and its kind when its reference is replaced by a plain one. */
  lemma LocationReadsBack(line: string, local: string)
    requires KindOf(line) == Location && (IsPlain(local) || local == Trim(line))
    ensures var cut := LocationCut(line);
            IsLineCut(Weave(cut.texts, [local]), Cut(cut.texts, [local]))
  {
    hide Trim, Indent, Weave;
    TrimSplits(line);
    TrimIdempotent(line);
    var cut := LocationCut(line);
    var before, after := cut.texts[0], cut.texts[1];
    var line' := Weave(cut.texts, [local]);
    WeaveOne(cut.texts, local);
    assert local != "" && local[0] != '#' && !IsSpace(local[0]) && !IsSpace(local[|local| - 1]);
    PaddedTrim(before, local, after);
    assert line'[..|before|] == before && line'[|before| + |local|..] == after;
  }

  lemma WeaveOne(texts: seq<string>, ref: string)
    requires |texts| == 2
    ensures Weave(texts, [ref]) == texts[0] + ref + texts[1]
  {
    assert [ref][1..] == [] && texts[1..] == [texts[1]];
  }

  lemma PaddedTrim(before: string, local: string, after: string)
    requires local != "" && !IsSpace(local[0]) && !IsSpace(local[|local| - 1])
    requires (forall i :: 0 <= i < |before| ==> IsSpace(before[i]))
    requires (forall i :: 0 <= i < |after| ==> IsSpace(after[i]))
    ensures Trim(before + local + after) == local && Indent(before + local + after) == |before|
  {
    var line := before + local + after;
    assert line[|before|] == local[0] && line[|before| + |local| - 1] == local[|local| - 1];
    var start, end := Start(line, 0), End(line, |line|);
    assert start == |before|;
    assert end == |before| + |local| by {
      assert forall i :: |before| + |local| <= i < |line| ==> IsSpace(line[i]);
    }
  }

  /** Whoever reads the rewritten line by the same rules finds the replacements where the references were. */
  lemma LineReadsBack(line: string, cut: Cut, locals: seq<string>)
    requires IsLineCut(line, cut) && ArePlain(cut.refs, locals)
    ensures IsLineCut(Weave(cut.texts, locals), Cut(cut.texts, locals))
  {
    hide IsAttributeCut, KindOf, LocationCut;
    if cut.refs == [] {
      assert locals == cut.refs;
    } else if KindOf(line) == Tag {
      AttributesReadBack(cut, locals);
      WeaveStep(cut.texts, cut.refs);
      WeaveStep(cut.texts, locals);
      var text := cut.texts[0];
      var before := cut.refs[0] + Weave(cut.texts[1..], cut.refs[1..]);
      var after := locals[0] + Weave(cut.texts[1..], locals[1..]);
      assert line == text + before && Weave(cut.texts, locals) == text + after;
      FirstOpensAtEnd(cut);
      StaysTag(text, before, after);
    } else {
      assert cut == LocationCut(line);
      LocationShape(line);
      assert locals == [locals[0]];
      LocationReadsBack(line, locals[0]);
    }
  }

  lemma FirstOpensAtEnd(cut: Cut)
    requires IsAttributeCut(cut) && cut.refs != []
    ensures OpensAtEnd(cut.texts[0])
  {
  }

  lemma LocationShape(line: string)
    ensures LocationCut(line).refs == [Trim(line)] && |LocationCut(line).texts| == 2
  {
  }

  /** `cuts[i]` holds the references of line `i`. */
  ghost predicate IsManifestCut(lines: seq<string>, cuts: seq<Cut>) {
    |cuts| == |lines| && forall i :: 0 <= i < |lines| ==> IsLineCut(lines[i], cuts[i])
  }

  predicate Fit(cuts: seq<Cut>, locals: seq<seq<string>>) {
    |locals| == |cuts| && forall i :: 0 <= i < |cuts| ==> |cuts[i].texts| == |locals[i]| + 1
  }

  /** The lines with the replacements in place of the references. */
  function Woven(cuts: seq<Cut>, locals: seq<seq<string>>): (lines: seq<string>)
    requires Fit(cuts, locals)
    ensures |lines| == |cuts| && forall i :: 0 <= i < |cuts| ==> lines[i] == Weave(cuts[i].texts, locals[i])
  {
    seq(|cuts|, i requires 0 <= i < |cuts| => Weave(cuts[i].texts, locals[i]))
  }

  function Replaced(cuts: seq<Cut>, locals: seq<seq<string>>): seq<Cut>
    requires |locals| == |cuts|
  {
    seq(|cuts|, i requires 0 <= i < |cuts| => Cut(cuts[i].texts, locals[i]))
  }

  /** A newline ends every line but the last, and occurs nowhere else. */
  ghost predicate IsLine(line: string, last: bool) {
    if last then '\n' !in line else line != "" && line[|line| - 1] == '\n' && '\n' !in line[..|line| - 1]
  }

  ghost predicate AreLines(lines: seq<string>) {
    |lines| > 0 && forall i :: 0 <= i < |lines| ==> IsLine(lines[i], i == |lines| - 1)
  }

  lemma {:induction false} SplitAfterLines(s: string)
    ensures AreLines(SplitAfter(s, '\n'))
    decreases |s|
  {
    hide IsLine;
    match IndexChar(s, '\n')
    case None =>
      LastLine(s);
    case Some(i) =>
      SplitAfterLines(s[i + 1..]);
      var line, rest := s[..i + 1], SplitAfter(s[i + 1..], '\n');
      LineUpTo(s, i);
      LinesBehind(line, rest);
  }

  lemma LastLine(s: string)
    requires '\n' !in s
    ensures IsLine(s, true)
  {
  }

  lemma LineUpTo(s: string, i: nat)
    requires i < |s| && s[i] == '\n' && '\n' !in s[..i]
    ensures IsLine(s[..i + 1], false)
  {
    assert s[..i + 1][..i] == s[..i];
  }

  lemma LinesBehind(line: string, rest: seq<string>)
    requires IsLine(line, false) && AreLines(rest)
    ensures AreLines([line] + rest)
  {
    hide IsLine;
    var lines := [line] + rest;
    assert forall i :: 1 <= i < |lines| ==> lines[i] == rest[i - 1];
  }

  lemma {:induction false} LinesSplitAfter(lines: seq<string>)
    requires AreLines(lines)
    ensures SplitAfter(Concat(lines), '\n') == lines
  {
    var s := Concat(lines);
    if |lines| == 1 {
      assert s == lines[0] + Concat([]) == lines[0];
      assert SplitAfter(s, '\n') == [s];
    } else {
      var line, rest := lines[0], Concat(lines[1..]);
      LinesSplitAfter(lines[1..]);
      assert s[..|line| - 1] == line[..|line| - 1] && s[|line| - 1] == '\n';
      FirstChar(s, '\n', |line| - 1);
      assert s[..|line|] == line && s[|line|..] == rest;
      assert lines == [line] + lines[1..];
    }
  }

  /** A replacement brings no newline into a line; what follows the last reference keeps the one at its end. */
  lemma {:induction false} WovenIsLine(texts: seq<string>, refs: seq<string>, locals: seq<string>, last: bool)
    requires |texts| == |refs| + 1 && ArePlain(refs, locals)
    requires IsLine(Weave(texts, refs), last) && (!last ==> texts[|refs|] != "")
    ensures IsLine(Weave(texts, locals), last)
  {
    hide Weave;
    if refs == [] {
      assert locals == refs;
    } else {
      WeaveStep(texts, refs);
      WeaveStep(texts, locals);
      var rest, rest' := Weave(texts[1..], refs[1..]), Weave(texts[1..], locals[1..]);
      if !last {
        WeaveEndsIn(texts[1..], refs[1..]);
      }
      FrontOfLine(texts[0], refs[0], locals[0], rest, last);
      WovenIsLine(texts[1..], refs[1..], locals[1..], last);
      LineInFront(texts[0] + locals[0], rest', last);
    }
  }

  lemma {:induction false} WeaveEndsIn(texts: seq<string>, refs: seq<string>)
    requires |texts| == |refs| + 1 && texts[|refs|] != ""
    ensures Weave(texts, refs) != ""
  {
    if refs != [] {
      WeaveEndsIn(texts[1..], refs[1..]);
    }
  }

  lemma FrontOfLine(text: string, ref: string, local: string, rest: string, last: bool)
    requires IsLine(text + ref + rest, last) && (!last ==> rest != "") && (local == ref || IsPlain(local))
    ensures '\n' !in text + local && IsLine(rest, last)
  {
    var front := text + ref;
    var line := front + rest;
    assert '\n' !in front by {
      assert forall i :: 0 <= i < |front| ==> front[i] == line[i];
      if !last {
        assert forall i :: 0 <= i < |front| ==> front[i] == line[..|line| - 1][i];
      }
    }
    assert forall i :: 0 <= i < |text| ==> text[i] == front[i];
    assert forall i :: 0 <= i < |ref| ==> ref[i] == front[|text| + i];
    assert forall i :: 0 <= i < |rest| ==> rest[i] == line[|front| + i];
    if !last {
      assert line[..|line| - 1] == front + rest[..|rest| - 1];
    }
  }

  lemma LineInFront(front: string, rest: string, last: bool)
    requires '\n' !in front && IsLine(rest, last)
    ensures IsLine(front + rest, last)
  {
    if !last {
      assert (front + rest)[..|front + rest| - 1] == front + rest[..|rest| - 1];
    }
  }

  /** A line that ends in a newline has it behind its last reference. */
  lemma LastTextHolds(line: string, cut: Cut)
    requires IsLineCut(line, cut) && IsLine(line, false)
    ensures cut.texts[|cut.refs|] != ""
  {
    hide IsAttributeCut, LocationCut, Weave;
    if cut.refs == [] {
      WeaveNone(cut.texts[0]);
      assert cut.texts == [cut.texts[0]];
    } else if KindOf(line) == Tag {
      CloserBehind(cut);
    } else {
      LocationShape(line);
      SpaceBehind(line);
    }
  }

  lemma CloserBehind(cut: Cut)
    requires IsAttributeCut(cut) && cut.refs != []
    ensures cut.texts[|cut.refs|] != ""
  {
    hide OpensAt, OpensNowhere;
    var k := |cut.refs| - 1;
    assert Closes(cut.texts[k][|cut.texts[k]| - 1], cut.refs[k], cut.texts[k + 1]);
  }

  lemma SpaceBehind(line: string)
    requires KindOf(line) == Location && line != "" && IsSpace(line[|line| - 1])
    ensures LocationCut(line).texts[1] != ""
  {
    hide Trim, Indent;
    TrimSplits(line);
    var trimmed := Trim(line);
    assert trimmed[|trimmed| - 1] == line[Indent(line) + |trimmed| - 1];
  }

  /**
  Whoever reads the rewritten manifest by the same rules finds the same lines, cut into the same texts, with
  the replacement of each reference in its place.
  */
  lemma ManifestReadsBack(body: string, cuts: seq<Cut>, locals: seq<seq<string>>)
    requires IsManifestCut(SplitAfter(body, '\n'), cuts) && |locals| == |cuts|
    requires Fit(cuts, locals) && forall i :: 0 <= i < |cuts| ==> ArePlain(cuts[i].refs, locals[i])
    ensures SplitAfter(Concat(Woven(cuts, locals)), '\n') == Woven(cuts, locals)
    ensures IsManifestCut(Woven(cuts, locals), Replaced(cuts, locals))
  {
    hide IsLineCut, IsLine, ArePlain, Weave;
    var lines, woven := SplitAfter(body, '\n'), Woven(cuts, locals);
    SplitAfterLines(body);
    forall i | 0 <= i < |woven|
      ensures IsLine(woven[i], i == |woven| - 1) && IsLineCut(woven[i], Replaced(cuts, locals)[i]) {
      LineReadsBack(lines[i], cuts[i], locals[i]);
      OneLineStays(lines[i], cuts[i], locals[i], i == |lines| - 1);
    }
    LinesSplitAfter(woven);
  }

  lemma OneLineStays(line: string, cut: Cut, locals: seq<string>, last: bool)
    requires IsLineCut(line, cut) && ArePlain(cut.refs, locals) && IsLine(line, last)
    ensures IsLine(Weave(cut.texts, locals), last)
  {
    hide IsPlain, KindOf, LocationCut, IsAttributeCut, Weave;
    if !last {
      LastTextHolds(line, cut);
    }
    WovenIsLine(cut.texts, cut.refs, locals, last);
  }
}

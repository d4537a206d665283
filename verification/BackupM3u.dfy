/**
The playlist backup in M3U form (internal/backup/m3u.go): a printer of video ids and the parser
that reads them back.
*/
module BackupM3u {
  import opened Wrappers
  import opened Sequences
  import opened Text

  const HEADER := "#EXTM3U\n"
  const EXTINF := "#EXTINF:-1,"
  const WATCH := "https://www.youtube.com/watch?v="
  const WATCH_KEY := "watch?v="
  const SHORT_KEY := "youtu.be/"

  /** The two lines written for one id; blank ids are skipped. */
  function Entry(id: string): string {
    if Trim(id) == "" then "" else EXTINF + Trim(id) + "\n" + WATCH + Trim(id) + "\n"
  }

  function Printed(ids: seq<string>): string {
    HEADER + FlatMap(Entry, ids)
  }

  method ToM3U(videoIds: seq<string>) returns (text: string)
    ensures text == Printed(videoIds)
  {
    hide Trim, Printed;
    text := HEADER;
    assert text == Printed([]) by { NothingPrinted(); }
    for i := 0 to |videoIds|
      invariant text == Printed(videoIds[..i])
    {
      PrintedStep(videoIds, i);
      var id := Trim(videoIds[i]);
      if id != "" {
        text := text + (EXTINF + id + "\n" + WATCH + id + "\n");
      }
    }
    assert videoIds[..|videoIds|] == videoIds;
  }

  lemma NothingPrinted()
    ensures Printed([]) == HEADER
  {
  }

  lemma PrintedStep(ids: seq<string>, i: nat)
    requires i < |ids|
    ensures Printed(ids[..i + 1]) == Printed(ids[..i]) + Entry(ids[i])
  {
    hide Entry;
    FlatMapStep(Entry, ids, i);
  }

  /** The id part of a watch URL: up to the first '&' and then up to the first '#'. */
  function CutId(rest: string): string {
    Trim(CutAt(CutAt(rest, '&'), '#'))
  }

  function ExtractVideoId(url: string): string {
    match Index(url, WATCH_KEY)
    case Some(i) => CutId(url[i + |WATCH_KEY|..])
    case None =>
      match Index(url, SHORT_KEY)
      case Some(i) => Trim(CutAt(url[i + |SHORT_KEY|..], '?'))
      case None => ""
  }

  function NonEmpty(id: string): seq<string> {
    if id == "" then [] else [id]
  }

  /** What one line of the file contributes: nothing or one id. */
  function LineIds(line: string): seq<string> {
    var text := Trim(line);
    if text == "" || "#" <= text then [] else NonEmpty(ExtractVideoId(text))
  }

  function Parsed(data: string): seq<string> {
    FlatMap(LineIds, Split(data, '\n'))
  }

  method FromM3U(data: string) returns (ids: seq<string>)
    ensures ids == Parsed(data)
  {
    ids := [];
    var lines := Split(data, '\n');
    for i := 0 to |lines|
      invariant ids == FlatMap(LineIds, lines[..i])
    {
      FlatMapStep(LineIds, lines, i);
      var line := Trim(lines[i]);
      if line == "" || "#" <= line {
        continue;
      }
      var id := ExtractVideoId(line);
      if id != "" {
        ids := ids + [id];
      }
    }
    assert lines[..|lines|] == lines;
  }

  /** What a backup should keep of one id: the trimmed id, unless it is blank. */
  function KeptId(id: string): seq<string> {
    NonEmpty(Trim(id))
  }

  function Kept(ids: seq<string>): seq<string> {
    FlatMap(KeptId, ids)
  }

  predicate Plain(id: string) {
    '\n' !in id && '&' !in id && '#' !in id
  }

  // ---------------------------------------------------------------- one id

  /** Parsing distributes over text joined at a line break. */
  lemma ParsedJoined(a: string, b: string)
    ensures Parsed(a + "\n" + b) == Parsed(a) + Parsed(b)
  {
    SplitJoined(a, '\n', b);
    FlatMapAppend(LineIds, Split(a, '\n'), Split(b, '\n'));
  }

  lemma ParsedOneLine(line: string)
    requires '\n' !in line
    ensures Parsed(line) == LineIds(line)
  {
    assert Split(line, '\n') == [line];
    FlatMapOne(LineIds, line);
  }

  /** "watch?v=" occurs in a printed URL first at the end of the host part. */
  lemma WatchKeyAt(id: string)
    ensures Index(WATCH + id, WATCH_KEY) == Some(24)
    ensures (WATCH + id)[32..] == id
  {
    var url := WATCH + id;
    assert |WATCH| == 32 && |WATCH_KEY| == 8;
    assert url[24..32] == WATCH[24..32] == WATCH_KEY;
    forall i | 0 <= i < 24 ensures !OccursAt(url, WATCH_KEY, i) {
      assert url[i..i + 8][0] == WATCH[i] && url[i..i + 8][1] == WATCH[i + 1];
    }
    FirstOccurrence(url, WATCH_KEY, 24);
  }

  /** A line made of a printed prefix and a trimmed id is left alone by trimming. */
  lemma PrefixedLineIsTrimmed(prefix: string, id: string)
    requires prefix != "" && !IsSpace(prefix[0])
    requires id != "" && !IsSpace(id[|id| - 1])
    ensures Trim(prefix + id) == prefix + id
  {
    TrimKeeps(prefix + id);
  }

  /** What the parser recovers from an id without line breaks. */
  lemma PrintedLines(id: string)
    requires id != "" && Trim(id) == id
    ensures LineIds(WATCH + id) == NonEmpty(CutId(id))
    ensures LineIds(EXTINF + id) == []
  {
    TrimSplits(id);
    hide Trim, Index, CutId;
    PrefixedLineIsTrimmed(WATCH, id);
    WatchKeyAt(id);
    PrefixedLineIsTrimmed(EXTINF, id);
    assert "#" <= EXTINF + id;
  }

  function Recovered(id: string): seq<string> {
    if Trim(id) == "" then [] else NonEmpty(CutId(Trim(id)))
  }

  /** An id without a line break costs at most two lines, and the parser sees the cut id. */
  lemma EntryParses(head: string, id: string)
    requires '\n' !in Trim(id)
    ensures Parsed(head + "\n" + Entry(id)) == Parsed(head + "\n") + Recovered(id)
  {
    var t := Trim(id);
    TrimIdempotent(id);
    hide Trim, Split, CutId, LineIds;
    if t == "" {
      assert head + "\n" + Entry(id) == head + "\n";
    } else {
      var info, url := EXTINF + t, WATCH + t;
      assert head + "\n" + Entry(id) == head + "\n" + (info + "\n" + (url + "\n" + ""));
      ParsedJoined(head, info + "\n" + (url + "\n" + ""));
      ParsedJoined(info, url + "\n" + "");
      ParsedJoined(url, "");
      ParsedOneLine(info);
      ParsedOneLine(url);
      PrintedLines(t);
      EmptyLine(head);
    }
  }

  /** A line break at the end of a file contributes nothing. */
  lemma EmptyLine(head: string)
    ensures Parsed("") == []
    ensures Parsed(head + "\n") == Parsed(head)
  {
    ParsedOneLine("");
    ParsedJoined(head, "");
    assert head + "\n" + "" == head + "\n";
  }

  // ---------------------------------------------------------------- whole files

  lemma CommentLine(line: string)
    requires "#" <= line && '\n' !in line && !IsSpace(line[|line| - 1])
    ensures Parsed(line + "\n") == []
  {
    EmptyLine(line);
    ParsedOneLine(line);
    TrimKeeps(line);
  }

  ghost predicate OneLineEach(ids: seq<string>) {
    forall i :: 0 <= i < |ids| ==> '\n' !in Trim(ids[i])
  }

  /** Every printed file ends in a line break. */
  lemma {:induction false} PrintedEndsLine(ids: seq<string>) returns (head: string)
    ensures Printed(ids) == head + "\n"
  {
    hide Trim, Entry, FlatMap;
    if ids == [] {
      NothingPrinted();
      head := "#EXTM3U";
    } else {
      var front, last := ids[..|ids| - 1], ids[|ids| - 1];
      head := PrintedEndsLine(front);
      assert ids[..|ids|] == ids;
      PrintedStep(ids, |ids| - 1);
      EntryEndsLine(last);
      var text := Printed(front) + Entry(last);
      head := text[..|text| - 1];
    }
  }

  lemma EntryEndsLine(id: string)
    ensures Entry(id) == "" || Entry(id)[|Entry(id)| - 1] == '\n'
  {
    hide Trim;
  }

  lemma PrintedGrows(front: seq<string>, last: string)
    requires '\n' !in Trim(last)
    ensures Parsed(Printed(front + [last])) == Parsed(Printed(front)) + Recovered(last)
  {
    hide Trim, Parsed, Entry, Recovered;
    var head := PrintedEndsLine(front);
    EntryParses(head, last);
    FlatMapStep(Entry, front + [last], |front|);
    assert (front + [last])[..|front|] == front && (front + [last])[..|front| + 1] == front + [last];
    assert Printed(front + [last]) == Printed(front) + Entry(last);
  }

  lemma {:induction false} ParsedPrinted(ids: seq<string>)
    requires OneLineEach(ids)
    ensures Parsed(Printed(ids)) == FlatMap(Recovered, ids)
  {
    hide Trim, Parsed, Recovered, Entry;
    if ids == [] {
      CommentLine("#EXTM3U");
      assert Printed([]) == "#EXTM3U" + "\n";
    } else {
      var front, last := ids[..|ids| - 1], ids[|ids| - 1];
      assert '\n' !in Trim(last);
      assert OneLineEach(front) by {
        forall i | 0 <= i < |front| ensures '\n' !in Trim(front[i]) { assert front[i] == ids[i]; }
      }
      ParsedPrinted(front);
      PrintedGrows(front, last);
      assert front + [last] == ids;
    }
  }

  /** Cutting keeps plain ids whole and shortens every other one. */
  lemma CutIdPlain(id: string)
    requires id != "" && Trim(id) == id && '\n' !in id
    ensures if Plain(id) then CutId(id) == id else |CutId(id)| < |id|
  {
    var once := CutAt(id, '&');
    var cut := CutAt(once, '#');
    TrimSplits(cut);
    hide Trim, CutAt;
  }

  const Length := (s: string) => |s|

  /** Over ids that are each one line, nothing is lost exactly when every id is plain. */
  lemma {:induction false} RecoveredExactly(ids: seq<string>)
    requires OneLineEach(ids)
    ensures Total(Length, FlatMap(Recovered, ids)) <= Total(Length, Kept(ids))
    ensures if forall i :: 0 <= i < |ids| ==> Plain(Trim(ids[i]))
            then FlatMap(Recovered, ids) == Kept(ids)
            else Total(Length, FlatMap(Recovered, ids)) < Total(Length, Kept(ids))
  {
    hide Trim, Recovered, KeptId, Plain;
    if ids != [] {
      var front, last := ids[..|ids| - 1], ids[|ids| - 1];
      assert forall i :: 0 <= i < |front| ==> front[i] == ids[i];
      assert '\n' !in Trim(last);
      RecoveredExactly(front);
      RecoveredOne(last);
      TotalAppend(Length, FlatMap(Recovered, front), Recovered(last));
      TotalAppend(Length, FlatMap(KeptId, front), KeptId(last));
    }
  }

  lemma RecoveredOne(id: string)
    requires '\n' !in Trim(id)
    ensures Total(Length, Recovered(id)) <= Total(Length, KeptId(id))
    ensures if Plain(Trim(id)) then Recovered(id) == KeptId(id)
            else Total(Length, Recovered(id)) < Total(Length, KeptId(id))
  {
    TrimIdempotent(id);
    if Trim(id) != "" {
      CutIdPlain(Trim(id));
    }
    hide Trim, CutId;
    TotalNonEmpty(CutId(Trim(id)));
    TotalNonEmpty(Trim(id));
  }

  lemma TotalNonEmpty(id: string)
    ensures Total(Length, NonEmpty(id)) == |id|
  {
    assert [id][..0] == [];
  }

  /** No id read from a file contains a line break. */
  lemma ParsedIdsAreOneLine(data: string, id: string)
    requires id in Parsed(data)
    ensures '\n' !in id
  {
    hide LineIds;
    var lines := Split(data, '\n');
    FlatMapAll(LineIds, lines, id);
    var i :| 0 <= i < |lines| && id in LineIds(lines[i]);
    LineIdsAreOneLine(lines[i], id);
  }

  lemma LineIdsAreOneLine(line: string, id: string)
    requires '\n' !in line && id in LineIds(line)
    ensures '\n' !in id
  {
    TrimIsPart(line, '\n');
    ExtractedIsPart(Trim(line), '\n');
  }

  lemma TrimIsPart(s: string, c: char)
    requires c !in s
    ensures c !in Trim(s)
  {
    TrimSplits(s);
  }

  lemma ExtractedIsPart(url: string, c: char)
    requires c !in url
    ensures c !in ExtractVideoId(url)
  {
    hide Trim, CutAt;
    match Index(url, WATCH_KEY)
    case Some(i) =>
      CutIsPart(url[i + |WATCH_KEY|..], '&', c);
      CutIsPart(CutAt(url[i + |WATCH_KEY|..], '&'), '#', c);
    case None =>
      match Index(url, SHORT_KEY) {
        case Some(i) => CutIsPart(url[i + |SHORT_KEY|..], '?', c);
        case None =>
      }
  }

  lemma CutIsPart(s: string, at: char, c: char)
    requires c !in s
    ensures c !in CutAt(s, at) && c !in Trim(CutAt(s, at))
  {
    TrimIsPart(CutAt(s, at), c);
  }

  /**
  Reading a backup gives back the trimmed non-blank ids in order exactly when none of them contains
  a line break, '&' or '#'.
  */
  lemma RoundTrip(ids: seq<string>)
    ensures Parsed(Printed(ids)) == Kept(ids) <==> forall i :: 0 <= i < |ids| ==> Plain(Trim(ids[i]))
  {
    hide Trim, Parsed, Printed;
    if OneLineEach(ids) {
      ParsedPrinted(ids);
      RecoveredExactly(ids);
    } else {
      var i :| 0 <= i < |ids| && '\n' in Trim(ids[i]);
      FlatMapHas(KeptId, ids, i, Trim(ids[i]));
      if Parsed(Printed(ids)) == Kept(ids) {
        ParsedIdsAreOneLine(Printed(ids), Trim(ids[i]));
      }
    }
  }

  /** An id with an ampersand is read back cut short. */
  lemma AmpersandCuts()
    ensures Parsed(Printed(["a&b"])) == ["a"] && Kept(["a&b"]) == ["a&b"]
  {
    hide Parsed, Printed, Trim, CutAt;
    TrimKeeps("a&b");
    TrimKeeps("a");
    assert CutAt("a&b", '&') == "a" && CutAt("a", '#') == "a" by {
      FirstCut();
    }
    ParsedPrinted(["a&b"]);
    FlatMapOne(Recovered, "a&b");
    FlatMapOne(KeptId, "a&b");
  }

  lemma FirstCut()
    ensures CutAt("a&b", '&') == "a" && CutAt("a", '#') == "a"
  {
    FirstChar("a&b", '&', 1);
  }

  // ---------------------------------------------------------------- the format

  /** The text of a backup: a header, and two lines for every id that is not blank. */
  lemma PrintedFormat(ids: seq<string>, id: string)
    ensures Printed([]) == "#EXTM3U\n"
    ensures Printed(ids + [id]) == Printed(ids) +
        if Trim(id) == "" then ""
        else "#EXTINF:-1," + Trim(id) + "\n" + "https://www.youtube.com/watch?v=" + Trim(id) + "\n"
  {
    NothingPrinted();
    hide Trim, Printed;
    assert (ids + [id])[..|ids|] == ids && (ids + [id])[..|ids| + 1] == ids + [id];
    PrintedStep(ids + [id], |ids|);
  }

  /** The id of a watch URL, whatever further parameters or fragment it has. */
  lemma WatchUrlId(front: string, id: string, rest: string)
    requires '?' !in front && id != "" && Trim(id) == id && '&' !in id && '#' !in id
    requires rest != "" ==> rest[0] == '&' || rest[0] == '#'
    ensures ExtractVideoId(front + "watch?v=" + id + rest) == id
  {
    hide Trim, CutAt, Index;
    var url := front + "watch?v=" + id + rest;
    FirstKey(front, "watch?v=", id + rest, '?', 5);
    assert url == front + "watch?v=" + (id + rest) && url[|front| + 8..] == id + rest;
    var cut := CutAt(id + rest, '&');
    CutFirst(id, rest, '&');
    var more := cut[|id|..];
    assert cut == id + more;
    CutFirst(id, more, '#');
    if rest == "" || rest[0] == '&' {
      assert more == "";
    } else {
      assert (id + rest)[|id|] == '#';
      assert more[0] == '#';
    }
    assert CutAt(cut, '#') == id;
  }

  /** The first occurrence of a key is where it was written, when no earlier text holds one of its characters. */
  lemma FirstKey(front: string, key: string, rest: string, c: char, at: nat)
    requires at < |key| && key[at] == c && c !in key[..at] && c !in front
    ensures Index(front + key + rest, key) == Some(|front|)
  {
    hide Index;
    var url := front + key + rest;
    assert url[|front|..|front| + |key|] == key;
    forall i: nat | i < |front| ensures !OccursAt(url, key, i) {
      assert url[i + at] != c by {
        if |front| <= i + at {
          assert url[i + at] == key[..at][i + at - |front|];
        }
      }
      assert i + |key| <= |url| ==> url[i..i + |key|][at] == url[i + at];
    }
    FirstOccurrence(url, key, |front|);
  }

  /** Cutting leaves a text without the character alone, and stops at the character right behind it. */
  lemma CutFirst(text: string, rest: string, c: char)
    requires c !in text
    ensures text <= CutAt(text + rest, c) && (rest == "" || rest[0] == c ==> CutAt(text + rest, c) == text)
    ensures rest != "" && rest[0] != c ==> |text| < |CutAt(text + rest, c)|
  {
    hide CutAt;
    assert forall i :: 0 <= i < |text| ==> (text + rest)[i] == text[i] != c;
    assert rest != "" ==> (text + rest)[|text|] == rest[0];
    assert rest == "" ==> text + rest == text;
  }

  /** The id of a short URL, whatever its parameters. */
  lemma ShortUrlId(front: string, id: string, rest: string)
    requires '.' !in front && id != "" && Trim(id) == id && '?' !in id && (rest != "" ==> rest[0] == '?')
    requires forall i: nat :: !OccursAt(front + "youtu.be/" + id + rest, "watch?v=", i)
    ensures ExtractVideoId(front + "youtu.be/" + id + rest) == id
  {
    hide Trim, CutAt, Index;
    var url := front + "youtu.be/" + id + rest;
    FirstKey(front, "youtu.be/", id + rest, '.', 5);
    assert url == front + "youtu.be/" + (id + rest) && url[|front| + 9..] == id + rest;
    CutFirst(id, rest, '?');
    assert Index(url, WATCH_KEY) == None;
  }
}

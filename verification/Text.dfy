/**
The string operations of Go's `strings` package that the modelled code calls.
A text is a sequence of characters; separators and keywords are all ASCII.
*/
module Text {
  import opened Wrappers

  /** `unicode.IsSpace`: the characters removed by `strings.TrimSpace`. */
  predicate IsSpace(c: char) {
    || '\t' <= c <= '\r' || c == ' ' || c == '\U{0085}' || c == '\U{00A0}' || c == '\U{1680}'
    || '\U{2000}' <= c <= '\U{200A}' || '\U{2028}' <= c <= '\U{2029}'
    || c == '\U{202F}' || c == '\U{205F}' || c == '\U{3000}'
  }

  /** Of ASCII, blanks, tabs and line ends are white space; nothing printable is. */
  lemma SpacesOf(c: char)
    ensures c in " \t\n\r" ==> IsSpace(c)
    ensures '!' <= c <= '~' ==> !IsSpace(c)
  {
  }

  /** The first position from `i` on that holds no white space. */
  function Start(s: string, i: nat): (r: nat)
    requires i <= |s|
    ensures i <= r <= |s| && (forall k :: i <= k < r ==> IsSpace(s[k])) && (r < |s| ==> !IsSpace(s[r]))
    decreases |s| - i
  {
    if i < |s| && IsSpace(s[i]) then Start(s, i + 1) else i
  }

  /** The position behind the last character before `j` that is no white space. */
  function End(s: string, j: nat): (r: nat)
    requires j <= |s|
    ensures r <= j && (forall k :: r <= k < j ==> IsSpace(s[k])) && (0 < r ==> !IsSpace(s[r - 1]))
  {
    if 0 < j && IsSpace(s[j - 1]) then End(s, j - 1) else j
  }

  /** Where the trimmed text starts: `strings.Index(line, strings.TrimSpace(line))`. */
  function Indent(s: string): (n: nat)
    ensures n <= |s|
  {
    if Start(s, 0) == |s| then 0 else Start(s, 0)
  }

  /** `strings.TrimSpace` */
  function Trim(s: string): (r: string)
    ensures |r| <= |s|
    ensures r != "" ==> !IsSpace(r[0]) && !IsSpace(r[|r| - 1])
  {
    if Start(s, 0) < End(s, |s|) then s[Start(s, 0)..End(s, |s|)] else ""
  }

  /** What trimming does: it removes white space at both ends and nothing else. */
  lemma TrimSplits(s: string)
    ensures Indent(s) + |Trim(s)| <= |s| && Trim(s) == s[Indent(s)..Indent(s) + |Trim(s)|]
    ensures forall i :: 0 <= i < Indent(s) ==> IsSpace(s[i])
    ensures forall i :: Indent(s) + |Trim(s)| <= i < |s| ==> IsSpace(s[i])
  {
  }

  lemma DropDrop(s: string, i: nat, k: nat)
    requires i + k <= |s|
    ensures s[i..][k..] == s[i + k..] && s[i..][..k] == s[i..i + k]
  {
  }

  /** A text with no white space at either end is left alone. */
  lemma TrimKeeps(s: string)
    requires s != "" ==> !IsSpace(s[0]) && !IsSpace(s[|s| - 1])
    ensures Trim(s) == s
  {
  }

  /** Trimming leaves a text that starts and ends in no white space at the front of what it trims. */
  lemma {:induction false} EndBehind(front: string, s: string, j: nat)
    requires front != "" && !IsSpace(front[|front| - 1]) && j <= |s|
    ensures End(front + s, |front| + j) == |front| + End(s, j)
  {
    if 0 < j {
      assert (front + s)[|front| + j - 1] == s[j - 1];
      EndBehind(front, s, j - 1);
    }
  }

  lemma TrimBehind(front: string, s: string)
    requires front != "" && !IsSpace(front[0]) && !IsSpace(front[|front| - 1])
    ensures Trim(front + s) == front + s[..End(s, |s|)] && Trim(s[..End(s, |s|)]) == Trim(s)
  {
    EndBehind(front, s, |s|);
    StartsAtOnce(front, s);
    CutEnd(s);
    hide Trim, Start, End, IsSpace;
    TrimFromStart(front, s, End(s, |s|));
  }

  lemma TrimFromStart(front: string, s: string, n: nat)
    requires front != "" && n <= |s| && Start(front + s, 0) == 0 && End(front + s, |front| + |s|) == |front| + n
    ensures Trim(front + s) == front + s[..n]
  {
    hide Start, End;
    assert |front + s| == |front| + |s|;
    assert (front + s)[0..|front| + n] == front + s[..n];
  }

  lemma StartsAtOnce(front: string, s: string)
    requires front != "" && !IsSpace(front[0])
    ensures Start(front + s, 0) == 0
  {
    assert (front + s)[0] == front[0];
  }

  /** White space at the end does not change what trimming gives. */
  lemma CutEnd(s: string)
    ensures Trim(s[..End(s, |s|)]) == Trim(s)
  {
    hide Trim, Start, End, IsSpace;
    var a, b := Start(s, 0), End(s, |s|);
    CutFacts(s, b);
    TrimIs(s, a, b);
    TrimIs(s[..b], if a < b then a else b, b);
    if a < b {
      SameSlice(s, a, b);
    }
  }

  lemma CutFacts(s: string, b: nat)
    requires b == End(s, |s|)
    ensures b <= |s| && |s[..b]| == b && End(s[..b], b) == b
    ensures Start(s[..b], 0) == if Start(s, 0) < b then Start(s, 0) else b
  {
    hide IsSpace;
    assert b > 0 ==> s[..b][b - 1] == s[b - 1];
    EndStays(s[..b]);
    SameStart(s, s[..b], 0);
  }

  lemma TrimIs(s: string, a: nat, b: nat)
    requires Start(s, 0) == a && End(s, |s|) == b
    ensures a <= |s| && b <= |s| && Trim(s) == if a < b then s[a..b] else ""
  {
    hide Start, End;
  }

  lemma SameSlice(s: string, a: nat, b: nat)
    requires a < b <= |s|
    ensures s[..b][a..b] == s[a..b]
  {
  }

  lemma EndStays(s: string)
    requires s != "" ==> !IsSpace(s[|s| - 1])
    ensures End(s, |s|) == |s|
  {
  }

  /** Where the white space at the front ends does not depend on what was cut off behind it. */
  lemma {:induction false} SameStart(s: string, cut: string, i: nat)
    requires cut <= s && i <= |cut|
    ensures Start(cut, i) == if Start(s, i) < |cut| then Start(s, i) else |cut|
    decreases |cut| - i
  {
    if i < |cut| && IsSpace(cut[i]) {
      SameStart(s, cut, i + 1);
    }
  }

  lemma TrimIdempotent(s: string)
    ensures Trim(Trim(s)) == Trim(s)
  {
    TrimSplits(s);
    TrimKeeps(Trim(s));
  }

  /** `strings.HasSuffix` */
  predicate HasSuffix(s: string, suffix: string) {
    |suffix| <= |s| && s[|s| - |suffix|..] == suffix
  }

  /** `strings.TrimPrefix` */
  function WithoutPrefix(s: string, prefix: string): string {
    if prefix <= s then s[|prefix|..] else s
  }

  /** `strings.TrimSuffix` */
  function WithoutSuffix(s: string, suffix: string): string {
    if HasSuffix(s, suffix) then s[..|s| - |suffix|] else s
  }

  predicate OccursAt(s: string, pattern: string, i: nat) {
    i + |pattern| <= |s| && s[i..i + |pattern|] == pattern
  }

  /** `strings.Index`: the first place where the pattern occurs. */
  function Index(s: string, pattern: string): (r: Option<nat>)
    ensures r.Some? ==> OccursAt(s, pattern, r.value) && forall i :: 0 <= i < r.value ==> !OccursAt(s, pattern, i)
    ensures r.None? ==> forall i :: 0 <= i <= |s| ==> !OccursAt(s, pattern, i)
    decreases |s|
  {
    if pattern <= s then Some(0)
    else if s == "" then None
    else
      ghost var suffix := s[1..];
      assert forall i :: 1 <= i <= |s| && OccursAt(s, pattern, i) ==> OccursAt(suffix, pattern, i - 1) by {
        forall i | 1 <= i <= |s| && OccursAt(s, pattern, i) ensures OccursAt(suffix, pattern, i - 1) {
          assert suffix[i - 1..i - 1 + |pattern|] == s[i..i + |pattern|];
        }
      }
      match Index(s[1..], pattern)
      case None => None
      case Some(i) =>
        assert s[i + 1..i + 1 + |pattern|] == suffix[i..i + |pattern|];
        Some(i + 1)
  }

  /** `strings.IndexByte` */
  function IndexChar(s: string, c: char): (r: Option<nat>)
    ensures r.Some? ==> r.value < |s| && s[r.value] == c && c !in s[..r.value]
    ensures r.None? ==> c !in s
  {
    if s == "" then None
    else if s[0] == c then Some(0)
    else match IndexChar(s[1..], c)
      case None => None
      case Some(i) => Some(i + 1)
  }

  /** The text before the first `c`, or all of it. */
  function CutAt(s: string, c: char): (r: string)
    ensures r <= s && c !in r
    ensures r == s <==> c !in s
    ensures r != s ==> s[|r|] == c
  {
    match IndexChar(s, c)
    case None => s
    case Some(i) => s[..i]
  }

  /** `strings.Split` on a one-character separator. */
  function Split(s: string, sep: char): (r: seq<string>)
    ensures |r| > 0
    ensures forall i :: 0 <= i < |r| ==> sep !in r[i]
    decreases |s|
  {
    match IndexChar(s, sep)
    case None => [s]
    case Some(i) => [s[..i]] + Split(s[i + 1..], sep)
  }

  /** `strings.SplitAfter` on a one-character separator: every piece but the last keeps the separator. */
  function SplitAfter(s: string, sep: char): (r: seq<string>)
    ensures |r| > 0 && Concat(r) == s
    ensures forall i :: 0 <= i < |r| ==> sep !in r[i][..if r[i] == "" then 0 else |r[i]| - 1]
    decreases |s|
  {
    match IndexChar(s, sep)
    case None => [s]
    case Some(i) =>
      var rest := SplitAfter(s[i + 1..], sep);
      assert ([s[..i + 1]] + rest)[1..] == rest;
      assert s == s[..i + 1] + s[i + 1..];
      [s[..i + 1]] + rest
  }

  function Concat(pieces: seq<string>): string {
    if pieces == [] then "" else pieces[0] + Concat(pieces[1..])
  }

  lemma {:induction false} ConcatAppend(a: seq<string>, b: seq<string>)
    ensures Concat(a + b) == Concat(a) + Concat(b)
  {
    if a == [] {
      assert a + b == b;
    } else {
      assert (a + b)[1..] == a[1..] + b;
      ConcatAppend(a[1..], b);
    }
  }

  /** Splitting distributes over a text joined at the separator. */
  lemma {:induction false} SplitJoined(a: string, sep: char, b: string)
    ensures Split(a + [sep] + b, sep) == Split(a, sep) + Split(b, sep)
    decreases |a|
  {
    var s := a + [sep] + b;
    match IndexChar(a, sep) {
      case None =>
        assert s[|a|] == sep;
        FirstChar(s, sep, |a|);
        assert s[..|a|] == a && s[|a| + 1..] == b;
      case Some(i) =>
        assert s[i] == sep && s[..i] == a[..i];
        FirstChar(s, sep, i);
        assert s[i + 1..] == a[i + 1..] + [sep] + b;
        SplitJoined(a[i + 1..], sep, b);
    }
  }

  /** The first index of a character is determined by what `IndexChar` promises. */
  lemma FirstChar(s: string, c: char, i: nat)
    requires i < |s| && s[i] == c && c !in s[..i]
    ensures IndexChar(s, c) == Some(i)
  {
    assert c in s;
  }

  /** The first occurrence of a pattern is determined by what `Index` promises. */
  lemma FirstOccurrence(s: string, pattern: string, i: nat)
    requires OccursAt(s, pattern, i)
    requires forall j :: 0 <= j < i ==> !OccursAt(s, pattern, j)
    ensures Index(s, pattern) == Some(i)
  {
  }

  function UpperChar(c: char): char {
    if 'a' <= c <= 'z' then c - 'a' + 'A' else c
  }

  function LowerChar(c: char): char {
    if 'A' <= c <= 'Z' then c - 'A' + 'a' else c
  }

  /** `strings.ToUpper` on ASCII text. */
  function Upper(s: string): (r: string)
    ensures |r| == |s| && forall i :: 0 <= i < |s| ==> r[i] == UpperChar(s[i])
  {
    seq(|s|, i requires 0 <= i < |s| => UpperChar(s[i]))
  }

  /** `strings.ToLower` on ASCII text. */
  function Lower(s: string): (r: string)
    ensures |r| == |s| && forall i :: 0 <= i < |s| ==> r[i] == LowerChar(s[i])
  {
    seq(|s|, i requires 0 <= i < |s| => LowerChar(s[i]))
  }

  /** Letters of ASCII have two cases, all other characters have one. */
  lemma CasesOf(c: char)
    ensures 'a' <= c <= 'z' ==> 'A' <= UpperChar(c) <= 'Z' && LowerChar(UpperChar(c)) == c
    ensures 'A' <= c <= 'Z' ==> 'a' <= LowerChar(c) <= 'z' && UpperChar(LowerChar(c)) == c
    ensures !('a' <= c <= 'z') ==> UpperChar(c) == c
    ensures !('A' <= c <= 'Z') ==> LowerChar(c) == c
  {
  }
}

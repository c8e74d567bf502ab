/**
 * Classification of the strings of a content slide (App.tsx): each string is
 * a line break, a heading/explanation pair split at its first colon, or a
 * paragraph.  The heading, explanation and paragraph are markup that the
 * viewer injects unescaped; here they are opaque strings.
 */
module ContentLines {

  /** The literal marker for a line break. */
  const LineBreak: string := "<br/>"

  /** What one content string renders as. */
  datatype ContentLine =
    | Break
    | Pair(heading: string, explanation: string)
    | Paragraph(html: string)

  /**
   * The characters JavaScript's `String.prototype.trim` removes: the
   * ECMAScript WhiteSpace set (tab, vertical tab, form feed, the byte-order
   * mark and the Unicode space separators) and the LineTerminator set.  The
   * next-line control U+0085 and the zero-width space U+200B are not in it.
   */
  predicate IsWhitespace(c: char): (b: bool)
    ensures c == ' ' || c == '\t' || c == '\n' || c == '\r' || c == '\U{A0}' || c == '\U{FEFF}' ==> b
    ensures b ==> c != ':' && c != '?' && c != '\U{85}' && c != '\U{200B}'
  {
    ('\t' <= c <= '\r') || c == ' ' || c == '\U{A0}' || c == '\U{1680}' ||
    ('\U{2000}' <= c <= '\U{200A}') || c == '\U{2028}' || c == '\U{2029}' ||
    c == '\U{202F}' || c == '\U{205F}' || c == '\U{3000}' || c == '\U{FEFF}'
  }

  predicate AllWhitespace(s: string) {
    forall i :: 0 <= i < |s| ==> IsWhitespace(s[i])
  }

  /** Neither end of `s` is whitespace. */
  predicate Trimmed(s: string) {
    s == [] || (!IsWhitespace(s[0]) && !IsWhitespace(s[|s| - 1]))
  }

  /** The end of the run of whitespace in `s` that starts at `from`. */
  function SkipWhitespace(s: string, from: nat): (k: nat)
    requires from <= |s|
    ensures from <= k <= |s|
    ensures forall i :: from <= i < k ==> IsWhitespace(s[i])
    ensures k < |s| ==> !IsWhitespace(s[k])
    decreases |s| - from
  {
    if from < |s| && IsWhitespace(s[from]) then SkipWhitespace(s, from + 1) else from
  }

  /** The start of the run of whitespace in `s` that ends at `stop`, going no lower than `low`. */
  function SkipWhitespaceBack(s: string, low: nat, stop: nat): (k: nat)
    requires low <= stop <= |s|
    ensures low <= k <= stop
    ensures forall i :: k <= i < stop ==> IsWhitespace(s[i])
    ensures k > low ==> !IsWhitespace(s[k - 1])
    decreases stop
  {
    if stop > low && IsWhitespace(s[stop - 1]) then SkipWhitespaceBack(s, low, stop - 1) else stop
  }

  /**
   * Where the trimmed part of `s` starts and ends: everything before and
   * after it is whitespace, and neither of its ends is.
   */
  function TrimBounds(s: string): (b: (nat, nat))
    ensures b.0 <= b.1 <= |s|
    ensures AllWhitespace(s[..b.0]) && AllWhitespace(s[b.1..])
    ensures Trimmed(s[b.0..b.1])
  {
    var start := SkipWhitespace(s, 0);
    var end := SkipWhitespaceBack(s, start, |s|);
    assert forall i :: 0 <= i < |s| - end ==> s[end..][i] == s[end + i];
    (start, end)
  }

  /** `String.prototype.trim`: `s` without its leading and trailing whitespace. */
  function Trim(s: string): (r: string)
    ensures Trimmed(r)
    ensures |r| <= |s|
  {
    var b := TrimBounds(s);
    s[b.0..b.1]
  }

  /** What trimming cuts away: `s` is whitespace, then its trim, then whitespace. */
  lemma TrimSurroundings(s: string)
    ensures var b := TrimBounds(s);
      s == s[..b.0] + Trim(s) + s[b.1..] &&
      AllWhitespace(s[..b.0]) && AllWhitespace(s[b.1..])
  {
    var b := TrimBounds(s);
    assert s == s[..b.0] + s[b.0..b.1] + s[b.1..];
  }

  /**
   * The trim of a string is unique: whatever whitespace surrounds a string
   * whose ends are not whitespace, trimming gives back exactly that string.
   */
  lemma TrimUnique(a: string, m: string, b: string)
    requires AllWhitespace(a) && AllWhitespace(b) && Trimmed(m)
    ensures Trim(a + m + b) == m
  {
    var s := a + m + b;
    assert forall i :: 0 <= i < |a| ==> s[i] == a[i];
    assert forall i :: 0 <= i < |m| ==> s[|a| + i] == m[i];
    assert forall i :: 0 <= i < |b| ==> s[|a| + |m| + i] == b[i];
    var start := SkipWhitespace(s, 0);
    if m != [] {
      assert s[|a|] == m[0];
      assert start == |a|;
      assert s[|a| + |m| - 1] == m[|m| - 1];
      assert SkipWhitespaceBack(s, start, |s|) == |a| + |m|;
      assert s[|a|..|a| + |m|] == m;
    } else {
      assert start == |s|;
    }
  }

  /** Trimming twice is trimming once. */
  lemma TrimIdempotent(s: string)
    ensures Trim(Trim(s)) == Trim(s)
  {
    var r := Trim(s);
    TrimUnique([], r, []);
    assert [] + r + [] == r;
  }

  /** A string trims to the empty string exactly when it is all whitespace. */
  lemma TrimEmpty(s: string)
    ensures Trim(s) == [] <==> AllWhitespace(s)
  {
    if AllWhitespace(s) {
      TrimUnique(s, [], []);
      assert s + [] + [] == s;
    } else {
      TrimSurroundings(s);
    }
  }

  /** The position of the first occurrence of `c` in `s`. */
  function IndexOf(s: string, c: char): (k: nat)
    requires c in s
    ensures k < |s| && s[k] == c
    ensures forall j :: 0 <= j < k ==> s[j] != c
  {
    if s[0] == c then 0
    else
      assert c in s[1..] by {
        var j :| 0 <= j < |s| && s[j] == c;
        assert s[1..][j - 1] == c;
      }
      IndexOf(s[1..], c) + 1
  }

  /**
   * The regular-expression split `item.split(/:(.*)/s)` on a string that
   * holds a colon: the text before the first colon and everything after it.
   */
  function SplitAtFirstColon(item: string): (parts: (string, string))
    requires ':' in item
    ensures item == parts.0 + ":" + parts.1
    ensures ':' !in parts.0
  {
    var k := IndexOf(item, ':');
    assert item == item[..k] + ":" + item[k + 1..];
    assert ':' !in item[..k];
    (item[..k], item[k + 1..])
  }

  /** The first occurrence is the only position holding `c` with no `c` before it. */
  lemma {:induction false} IndexOfUnique(s: string, c: char, k: nat)
    requires k < |s| && s[k] == c
    requires forall j :: 0 <= j < k ==> s[j] != c
    ensures IndexOf(s, c) == k
    decreases k
  {
    if k > 0 {
      IndexOfUnique(s[1..], c, k - 1);
    }
  }

  /** Splitting a string built from a colon-free text, a colon and a rest gives those two back. */
  lemma SplitJoin(before: string, after: string)
    requires ':' !in before
    ensures SplitAtFirstColon(before + ":" + after) == (before, after)
  {
    var item := before + ":" + after;
    assert forall j :: 0 <= j < |before| ==> item[j] == before[j];
    IndexOfUnique(item, ':', |before|);
    assert item[..|before|] == before;
    assert item[|before| + 1..] == after;
  }

  /**
   * The classification of one content string.  A break is exactly the
   * marker; a pair is exactly a string with a colon and no question mark,
   * whose heading is the string up to and including its first colon and whose
   * explanation is the trimmed rest; everything else is a paragraph holding
   * the string unchanged.
   */
  function Classify(item: string): (r: ContentLine)
    ensures r.Break? <==> item == LineBreak
    ensures r.Pair? <==> ':' in item && '?' !in item
    ensures r.Paragraph? <==> item != LineBreak && (':' !in item || '?' in item)
    ensures r.Paragraph? ==> r.html == item
    ensures r.Pair? ==>
      1 <= |r.heading| <= |item| &&
      item == r.heading + item[|r.heading|..] &&
      r.heading[|r.heading| - 1] == ':' &&
      ':' !in r.heading[..|r.heading| - 1] &&
      r.explanation == Trim(item[|r.heading|..])
  {
    if item == LineBreak then Break
    else if ':' in item && '?' !in item then
      var parts := SplitAtFirstColon(item);
      var heading := parts.0 + ":";
      assert heading[..|heading| - 1] == parts.0;
      assert item[|heading|..] == parts.1;
      Pair(heading, Trim(parts.1))
    else Paragraph(item)
  }

  /**
   * Building a heading/explanation string and classifying it gives the
   * heading with its colon and the trimmed explanation back.
   */
  lemma PairRoundTrip(heading: string, rest: string)
    requires ':' !in heading && '?' !in heading && '?' !in rest
    ensures Classify(heading + ":" + rest) == Pair(heading + ":", Trim(rest))
  {
    var item := heading + ":" + rest;
    assert item[|heading|] == ':';
    SplitJoin(heading, rest);
  }

  /** A colon followed by nothing but whitespace gives an empty explanation. */
  lemma EmptyExplanation(heading: string, rest: string)
    requires ':' !in heading && '?' !in heading && '?' !in rest
    requires AllWhitespace(rest)
    ensures Classify(heading + ":" + rest) == Pair(heading + ":", "")
  {
    PairRoundTrip(heading, rest);
    TrimEmpty(rest);
  }

  /** The example explanation, with the space that follows the colon, trims to itself. */
  lemma ExampleExplanationTrims(body: string)
    requires body == "a value that uniquely identifies a row"
    ensures Trim(" " + body) == body
  {
    assert Trimmed(body) && AllWhitespace(" ");
    TrimUnique(" ", body, []);
    assert " " + body + [] == " " + body;
  }

  /** The example heading holds neither a colon nor a question mark. */
  lemma ExampleHeadingPlain(heading: string)
    requires heading == "Definition"
    ensures ':' !in heading && '?' !in heading
  {
  }

  /** The example explanation holds no question mark. */
  lemma ExampleExplanationPlain(body: string)
    requires body == "a value that uniquely identifies a row"
    ensures '?' !in " " + body
  {
  }

  /**
   * The worked example of a definition line: "Definition: a value that
   * uniquely identifies a row" splits into the heading "Definition:" and the
   * explanation without its leading space.
   *
   * The two literals are passed as parameters pinned by the precondition
   * rather than written into the postcondition: the verifier unfolds a
   * function applied to a literal without bound, and `Classify` of the whole
   * line literal then unrolls `IndexOf` and both whitespace scans character
   * by character past the resource limit.  With parameters, the statement
   * follows from `PairRoundTrip` and the three small facts above.
   */
  lemma DefinitionExample(heading: string, body: string)
    requires heading == "Definition" && body == "a value that uniquely identifies a row"
    ensures Classify(heading + ": " + body) == Pair(heading + ":", body)
  {
    var rest := " " + body;
    assert heading + ": " + body == heading + ":" + rest;
    ExampleExplanationTrims(body);
    ExampleHeadingPlain(heading);
    ExampleExplanationPlain(body);
    PairRoundTrip(heading, rest);
  }
}

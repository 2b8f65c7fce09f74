/**
 * The text both locator tools hand back to the language model: of the search
 * results, keep the first three, drop those without a name, number the rest
 * from 1 as "n. name", join them with newlines and put a fixed caption in front.
 * Search results enter as the sequence of their optional names.
 */
module ResultFormat {
  import opened Wrappers

  /** How many search results a tool looks at. */
  const MaxResults: nat := 3

  /** `prefix(n)`: the first n elements, or all of them when there are fewer. */
  function Prefix<T>(s: seq<T>, n: nat): (r: seq<T>)
    ensures |r| == if |s| < n then |s| else n
    ensures r <= s
  {
    if |s| <= n then s else s[..n]
  }

  /** `compactMap`: the present values, in their order, with the absent ones dropped. */
  function CompactMap<T>(s: seq<Option<T>>): (r: seq<T>)
    ensures |r| <= |s|
  {
    if s == [] then []
    else (if s[0].Some? then [s[0].value] else []) + CompactMap(s[1..])
  }

  /** The positions of the present elements of s from position i on, in increasing order. */
  ghost function PresentFrom<T>(s: seq<Option<T>>, i: nat): seq<nat>
    requires i <= |s|
    decreases |s| - i
  {
    if i == |s| then []
    else (if s[i].Some? then [i] else []) + PresentFrom(s, i + 1)
  }

  /** The positions of the present elements of s, in increasing order. */
  ghost function PresentPositions<T>(s: seq<Option<T>>): seq<nat>
  {
    PresentFrom(s, 0)
  }

  lemma {:induction false} CompactMapFrom<T>(s: seq<Option<T>>, i: nat)
    requires i <= |s|
    decreases |s| - i
    ensures |CompactMap(s[i..])| == |PresentFrom(s, i)|
    ensures forall k :: 0 <= k < |PresentFrom(s, i)| ==>
      i <= PresentFrom(s, i)[k] < |s| && s[PresentFrom(s, i)[k]] == Some(CompactMap(s[i..])[k])
    ensures forall k, l :: 0 <= k < l < |PresentFrom(s, i)| ==> PresentFrom(s, i)[k] < PresentFrom(s, i)[l]
    ensures forall j :: i <= j < |s| ==> (s[j].Some? <==> j in PresentFrom(s, i))
  {
    if i < |s| {
      CompactMapFrom(s, i + 1);
      assert s[i..][1..] == s[i + 1..];
      assert s[i..][0] == s[i];
    }
  }

  /** compactMap keeps exactly the present elements, each once, in their original order. */
  lemma CompactMapKeepsPresentInOrder<T>(s: seq<Option<T>>)
    ensures |CompactMap(s)| == |PresentPositions(s)|
    ensures forall k :: 0 <= k < |PresentPositions(s)| ==>
      PresentPositions(s)[k] < |s| && s[PresentPositions(s)[k]] == Some(CompactMap(s)[k])
    ensures forall k, l :: 0 <= k < l < |PresentPositions(s)| ==> PresentPositions(s)[k] < PresentPositions(s)[l]
    ensures forall j :: 0 <= j < |s| ==> (s[j].Some? <==> j in PresentPositions(s))
  {
    CompactMapFrom(s, 0);
    assert s[0..] == s;
  }

  /** An absent element makes the result shorter than its input. */
  lemma {:induction false} CompactMapDropsAbsent<T>(s: seq<Option<T>>, j: nat)
    requires j < |s| && s[j].None?
    ensures |CompactMap(s)| < |s|
  {
    if j > 0 {
      CompactMapDropsAbsent(s[1..], j - 1);
    }
  }

  /** The character of a decimal digit. */
  function Digit(d: nat): char
    requires d < 10
  {
    (48 + d) as char
  }

  /** The value of a decimal digit character. */
  function DigitValue(c: char): nat
    requires '0' <= c <= '9'
  {
    c as int - 48
  }

  /** Swift's decimal rendering of a non-negative integer in string interpolation. */
  function DecimalString(n: nat): (s: string)
    ensures |s| >= 1
    ensures forall i :: 0 <= i < |s| ==> '0' <= s[i] <= '9'
    ensures n > 0 ==> s[0] != '0'
    decreases n
  {
    if n < 10 then [Digit(n)] else DecimalString(n / 10) + [Digit(n % 10)]
  }

  /** Reading a string of decimal digits back as a number. */
  function ParseDecimal(s: string): nat
    requires forall i :: 0 <= i < |s| ==> '0' <= s[i] <= '9'
    decreases |s|
  {
    if s == [] then 0 else ParseDecimal(s[..|s| - 1]) * 10 + DigitValue(s[|s| - 1])
  }

  /** The decimal rendering loses nothing: reading it back gives the number. */
  lemma {:induction false} DecimalRoundTrip(n: nat)
    ensures ParseDecimal(DecimalString(n)) == n
    decreases n
  {
    if n >= 10 {
      DecimalRoundTrip(n / 10);
      var s := DecimalString(n);
      assert s[..|s| - 1] == DecimalString(n / 10);
    }
  }

  /** The numbered line for 1-based position n: `"\(n). \(name)"`. The number and the dot add
      no newline, so the line holds one exactly when the name does. */
  function Line(n: nat, name: string): (r: string)
    ensures |r| == |DecimalString(n)| + 2 + |name|
    ensures '\n' in r <==> '\n' in name
  {
    DecimalString(n) + ". " + name
  }

  /** `enumerated().map { "\($0 + 1). \($1)" }`, the numbering starting at `first`. */
  function NumberLines(names: seq<string>, first: nat): (r: seq<string>)
    ensures |r| == |names|
  {
    if names == [] then [] else [Line(first, names[0])] + NumberLines(names[1..], first + 1)
  }

  /** Numbering is consecutive: line k carries number first + k and the k-th name. */
  lemma {:induction false} NumberLinesAt(names: seq<string>, first: nat, k: nat)
    requires k < |names|
    ensures NumberLines(names, first)[k] == Line(first + k, names[k])
  {
    if k > 0 {
      NumberLinesAt(names[1..], first + 1, k - 1);
    }
  }

  /** `joined(separator:)`: the strings with sep between neighbours and nowhere else, so the
      result starts with the first string and ends with the last. */
  function Join(lines: seq<string>, sep: string): (r: string)
    ensures lines == [] ==> r == ""
    ensures lines != [] ==> lines[0] <= r
    ensures lines != [] ==> |r| >= |lines[|lines| - 1]| && r[|r| - |lines[|lines| - 1]|..] == lines[|lines| - 1]
  {
    if lines == [] then ""
    else if |lines| == 1 then lines[0]
    else lines[0] + sep + Join(lines[1..], sep)
  }

  /** Splitting at every occurrence of c, keeping empty pieces; the inverse of joining with c. */
  function Split(s: string, c: char): (r: seq<string>)
    ensures |r| >= 1
  {
    if s == [] then [""]
    else
      var rest := Split(s[1..], c);
      if s[0] == c then [""] + rest else [[s[0]] + rest[0]] + rest[1..]
  }

  lemma {:induction false} SplitWithout(a: string, c: char)
    requires c !in a
    ensures Split(a, c) == [a]
  {
    if a != [] {
      SplitWithout(a[1..], c);
      assert [a[0]] + a[1..] == a;
    }
  }

  lemma {:induction false} SplitAfter(a: string, b: string, c: char)
    requires c !in a
    ensures Split(a + [c] + b, c) == [a] + Split(b, c)
  {
    if a == [] {
      assert ([] + [c] + b)[1..] == b;
    } else {
      SplitAfter(a[1..], b, c);
      assert (a + [c] + b)[1..] == a[1..] + [c] + b;
      assert [a[0]] + a[1..] == a;
    }
  }

  /** Lines without the separator character are recovered exactly from their join:
      one separator between neighbours, none before the first or after the last. */
  lemma {:induction false} SplitJoin(lines: seq<string>, c: char)
    requires |lines| >= 1
    requires forall i :: 0 <= i < |lines| ==> c !in lines[i]
    ensures Split(Join(lines, [c]), c) == lines
  {
    if |lines| == 1 {
      SplitWithout(lines[0], c);
    } else {
      SplitJoin(lines[1..], c);
      SplitAfter(lines[0], Join(lines[1..], [c]), c);
      assert [lines[0]] + lines[1..] == lines;
    }
  }

  /** The numbered lines a tool reports, before they are joined. */
  function ResultLines(names: seq<Option<string>>): (r: seq<string>)
    ensures |r| <= MaxResults
  {
    NumberLines(CompactMap(Prefix(names, MaxResults)), 1)
  }

  /** The text a locator tool returns: its caption, then the numbered lines joined by newlines. */
  function FormatResults(caption: string, names: seq<Option<string>>): (r: string)
    ensures caption <= r
    ensures ResultLines(names) == [] ==> r == caption
  {
    caption + Join(ResultLines(names), "\n")
  }

  /** The positions, among the first three results, of those that have a name. */
  ghost function KeptPositions(names: seq<Option<string>>): seq<nat>
  {
    PresentPositions(Prefix(names, MaxResults))
  }

  /** The lines are exactly the named results among the first three, in result order,
      line k (0-based) being number k + 1 followed by the name of its result. */
  lemma ResultLinesFromFirstThree(names: seq<Option<string>>)
    ensures |ResultLines(names)| == |KeptPositions(names)|
    ensures forall k :: 0 <= k < |KeptPositions(names)| ==>
      && KeptPositions(names)[k] < MaxResults
      && KeptPositions(names)[k] < |names|
      && names[KeptPositions(names)[k]].Some?
      && ResultLines(names)[k] == Line(k + 1, names[KeptPositions(names)[k]].value)
    ensures forall k, l :: 0 <= k < l < |KeptPositions(names)| ==> KeptPositions(names)[k] < KeptPositions(names)[l]
    ensures forall j :: 0 <= j < |names| && j < MaxResults ==> (names[j].Some? <==> j in KeptPositions(names))
  {
    var first := Prefix(names, MaxResults);
    CompactMapKeepsPresentInOrder(first);
    forall k | 0 <= k < |KeptPositions(names)|
      ensures ResultLines(names)[k] == Line(k + 1, names[KeptPositions(names)[k]].value)
    {
      NumberLinesAt(CompactMap(first), 1, k);
    }
  }

  /** Results from the fourth on never reach the output, whatever they hold. */
  lemma LaterResultsIgnored(names: seq<Option<string>>, later: seq<Option<string>>)
    requires |names| >= MaxResults
    ensures ResultLines(names + later) == ResultLines(names)
  {
    assert Prefix(names + later, MaxResults) == Prefix(names, MaxResults);
  }

  /** Truncation comes before dropping nameless results: a nameless result among the
      first three costs a line, even when later results have names. */
  lemma NamelessAmongFirstThree(names: seq<Option<string>>, j: nat)
    requires j < MaxResults && j < |names| && names[j].None?
    ensures |ResultLines(names)| < MaxResults
  {
    CompactMapDropsAbsent(Prefix(names, MaxResults), j);
  }

  /** The text after the caption, split at newlines, gives back the numbered lines,
      provided no listed name itself contains a newline. */
  lemma FormatSplitsIntoLines(caption: string, names: seq<Option<string>>)
    requires ResultLines(names) != []
    requires forall i :: 0 <= i < |names| && names[i].Some? ==> '\n' !in names[i].value
    ensures Split(FormatResults(caption, names)[|caption|..], '\n') == ResultLines(names)
  {
    var lines := ResultLines(names);
    ResultLinesFromFirstThree(names);
    forall k | 0 <= k < |lines| ensures '\n' !in lines[k] {
      var d := DecimalString(k + 1);
      assert lines[k] == d + ". " + names[KeptPositions(names)[k]].value;
    }
    assert FormatResults(caption, names)[|caption|..] == Join(lines, ['\n']);
    SplitJoin(lines, '\n');
  }

  /** Right after the caption comes line 1, when there is one. */
  lemma FirstLineFollowsCaption(caption: string, names: seq<Option<string>>)
    requires ResultLines(names) != []
    ensures FormatResults(caption, names)[|caption|..][..3] == "1. "
  {
    var first := CompactMap(Prefix(names, MaxResults));
    NumberLinesAt(first, 1, 0);
    assert DecimalString(1) == "1";
    var r := FormatResults(caption, names);
    assert r[|caption|..][..3] == ResultLines(names)[0][..3];
  }

  /** A worked case: the nameless second result is dropped and the fourth is never looked at. */
  lemma NamelessSecondOfFour()
    ensures FormatResults("Nearby:\n", [Some("A"), None, Some("B"), Some("C")]) == "Nearby:\n1. A\n2. B"
  {
    var names: seq<Option<string>> := [Some("A"), None, Some("B"), Some("C")];
    NamelessSecondOfFourLines(names);
    var lines := ["1. A", "2. B"];
    assert lines[1..] == ["2. B"];
    assert Join(lines, "\n") == "1. A" + "\n" + "2. B";
  }

  lemma NamelessSecondOfFourLines(names: seq<Option<string>>)
    requires names == [Some("A"), None, Some("B"), Some("C")]
    ensures ResultLines(names) == ["1. A", "2. B"]
  {
    assert Prefix(names, MaxResults) == [Some("A"), None, Some("B")];
    assert CompactMap([Some("B")]) == ["B"];
    assert CompactMap([None, Some("B")]) == ["B"];
    assert CompactMap(Prefix(names, MaxResults)) == ["A", "B"];
    assert DecimalString(1) == "1" && DecimalString(2) == "2";
    assert Line(1, "A") == "1. A" && Line(2, "B") == "2. B";
    assert NumberLines(["B"], 2) == ["2. B"];
  }
}

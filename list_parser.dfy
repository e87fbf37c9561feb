/**
 * The comma-list argument parser: `a, b\, c, d` is split at every comma that
 * is not written as `\,`; each element is trimmed and its escaped commas are
 * turned back into commas. Empty elements are kept.
 */
module ListParser {
  import opened Common

  /** A comma not preceded by a backslash separates two elements. */
  predicate IsSeparator(t: string, j: nat)
    requires j < |t|
  {
    t[j] == ',' && (j == 0 || t[j - 1] != '\\')
  }

  /**
   * Where the element starting at `t[0]` ends: the first separator at or
   * after `j`, or the end of the text. This is the extent of one match of the
   * list pattern, whose element group takes every character except a
   * separating comma.
   */
  function ElementEnd(t: string, j: nat): (e: nat)
    requires j <= |t|
    ensures j <= e <= |t|
    ensures e < |t| ==> IsSeparator(t, e)
    decreases |t| - j
  {
    if j == |t| then j else if IsSeparator(t, j) then j else ElementEnd(t, j + 1)
  }

  /** No separator comes before the end of the element. */
  lemma {:induction false} ElementEndIsFirst(t: string, j: nat, k: nat)
    requires j <= |t| && j <= k < ElementEnd(t, j)
    ensures !IsSeparator(t, k)
    decreases |t| - j
  {
    if j < k {
      ElementEndIsFirst(t, j + 1, k);
    }
  }

  /** `String.trim`: drops leading and trailing characters up to and including the space. */
  function TrimStart(s: string): string
  {
    if |s| > 0 && s[0] <= ' ' then TrimStart(s[1..]) else s
  }

  function TrimEnd(s: string): string
  {
    if |s| > 0 && s[|s| - 1] <= ' ' then TrimEnd(s[..|s| - 1]) else s
  }

  function Trim(s: string): string
  {
    TrimEnd(TrimStart(s))
  }

  /** Trimming the start keeps a suffix of the text that does not start with a blank. */
  lemma {:induction false} TrimStartIsSuffix(s: string)
    ensures |TrimStart(s)| <= |s| && TrimStart(s) == s[|s| - |TrimStart(s)|..]
    ensures TrimStart(s) == [] || TrimStart(s)[0] > ' '
  {
    if |s| > 0 && s[0] <= ' ' {
      TrimStartIsSuffix(s[1..]);
      assert s[1..][|s| - 1 - |TrimStart(s)|..] == s[|s| - |TrimStart(s)|..];
    }
  }

  /** Trimming the end keeps a prefix of the text that does not end with a blank. */
  lemma {:induction false} TrimEndIsPrefix(s: string)
    ensures |TrimEnd(s)| <= |s| && TrimEnd(s) == s[..|TrimEnd(s)|]
    ensures TrimEnd(s) == [] || TrimEnd(s)[|TrimEnd(s)| - 1] > ' '
  {
    if |s| > 0 && s[|s| - 1] <= ' ' {
      TrimEndIsPrefix(s[..|s| - 1]);
      assert s[..|s| - 1][..|TrimEnd(s)|] == s[..|TrimEnd(s)|];
    } else {
      assert s[..|s|] == s;
    }
  }

  /** `replace("\\,", ",")`: every escaped comma becomes a comma, scanning left to right. */
  function Unescape(s: string): (r: string)
    ensures |r| <= |s|
  {
    if |s| >= 2 && s[0] == '\\' && s[1] == ',' then "," + Unescape(s[2..])
    else if |s| == 0 then ""
    else [s[0]] + Unescape(s[1..])
  }

  /** The element text `t[..e]` as stored: trimmed, then unescaped. */
  function Element(text: string): string
  {
    Unescape(Trim(text))
  }

  /** The elements of `t`, read one match at a time until a match ends without a comma. */
  function ParseText(t: string): (r: seq<string>)
    ensures |r| >= 1
    decreases |t|
  {
    var e := ElementEnd(t, 0);
    [Element(t[..e])] + (if e == |t| then [] else ParseText(t[e + 1..]))
  }

  /** Unfolds `ParseText` once at a given end of the first element. */
  lemma ParseTextStep(t: string, e: nat, arg: string)
    requires e == ElementEnd(t, 0) && arg == t[..e]
    ensures ParseText(t) == [Element(arg)] + (if e == |t| then [] else ParseText(t[e + 1..]))
  {
  }

  /** An element followed by its separating comma, then the rest of the list. */
  lemma ParseTextCons(u: string, v: string)
    requires ElementEnd(u + "," + v, 0) == |u|
    ensures ParseText(u + "," + v) == [Element(u)] + ParseText(v)
  {
    var t := u + "," + v;
    assert t[..|u|] == u;
    assert t[|u| + 1..] == v;
    ParseTextStep(t, |u|, u);
  }

  /** A missing or empty input has no elements. */
  function ParseList(input: Option<string>): seq<string>
  {
    if input.None? || |input.value| < 1 then [] else ParseText(input.value)
  }

  class ListParser {
    var arguments: seq<string>

    /** Splits `commaSepArgs` into its elements, in input order. */
    constructor (commaSepArgs: Option<string>)
      ensures arguments == ParseList(commaSepArgs)
    {
      var rest := if commaSepArgs.None? then "" else commaSepArgs.value;
      // A missing or empty input skips the matching loop.
      var more := |rest| >= 1;
      var found: seq<string> := [];
      while more
        invariant more ==> found + ParseText(rest) == ParseList(commaSepArgs)
        invariant !more ==> found == ParseList(commaSepArgs)
        decreases |rest|, more
      {
        var e := ElementEnd(rest, 0);
        var arg := rest[..e];
        ParseTextStep(rest, e, arg);
        ghost var tail := if e == |rest| then [] else ParseText(rest[e + 1..]);
        assert (found + [Element(arg)]) + tail == found + ([Element(arg)] + tail);
        found := found + [Element(arg)];
        if e == |rest| {
          more := false;
        } else {
          rest := rest[e + 1..];
        }
      }
      arguments := found;
    }

    function GetArguments(): seq<string>
      reads this
    {
      arguments
    }
  }

  /** The number of separators in `t`. */
  function SeparatorCount(t: string, j: nat): nat
    requires j <= |t|
    decreases |t| - j
  {
    if j == |t| then 0 else (if IsSeparator(t, j) then 1 else 0) + SeparatorCount(t, j + 1)
  }

  lemma {:induction false} SeparatorCountGap(t: string, j: nat, e: nat)
    requires j <= e <= |t|
    requires forall k | j <= k < e :: !IsSeparator(t, k)
    ensures SeparatorCount(t, j) == SeparatorCount(t, e)
    decreases e - j
  {
    if j < e {
      SeparatorCountGap(t, j + 1, e);
    }
  }

  lemma {:induction false} SeparatorCountSuffix(t: string, e: nat)
    requires e < |t| && IsSeparator(t, e)
    ensures SeparatorCount(t, e + 1) == SeparatorCount(t[e + 1..], 0)
  {
    SeparatorCountShift(t, e + 1, e + 1);
  }

  lemma {:induction false} SeparatorCountShift(t: string, d: nat, j: nat)
    requires 1 <= d <= j <= |t| && t[d - 1] == ','
    ensures SeparatorCount(t, j) == SeparatorCount(t[d..], j - d)
    decreases |t| - j
  {
    if j < |t| {
      SeparatorCountShift(t, d, j + 1);
      var u := t[d..];
      assert u[j - d] == t[j];
      if j - d > 0 {
        assert u[j - d - 1] == t[j - 1];
      } else {
        assert t[j - 1] != '\\';
      }
    }
  }

  /** A non-empty input yields one element more than it has separating commas. */
  lemma {:induction false} ElementCount(t: string)
    ensures |ParseText(t)| == SeparatorCount(t, 0) + 1
    decreases |t|
  {
    var e := ElementEnd(t, 0);
    forall k | 0 <= k < e
      ensures !IsSeparator(t, k)
    {
      ElementEndIsFirst(t, 0, k);
    }
    SeparatorCountGap(t, 0, e);
    if e < |t| {
      SeparatorCountSuffix(t, e);
      ElementCount(t[e + 1..]);
    }
  }

  /** An input without a separating comma is one element. */
  lemma OneElementWithoutSeparator(s: string)
    requires |s| >= 1
    requires forall j | 0 <= j < |s| :: !IsSeparator(s, j)
    ensures ParseList(Some(s)) == [Element(s)]
  {
    EndAt(s, 0, |s|);
    assert s[..|s|] == s;
  }

  /** `escape` as a caller writes an element: each comma is written `\,`. */
  function Escape(x: string): string
  {
    if x == [] then [] else (if x[0] == ',' then "\\," else [x[0]]) + Escape(x[1..])
  }

  function EscapeAll(xs: seq<string>): (r: seq<string>)
    ensures |r| == |xs|
  {
    if xs == [] then [] else [Escape(xs[0])] + EscapeAll(xs[1..])
  }

  /** An element a caller can write so that it reads back unchanged: no backslash, no surrounding blanks. */
  predicate Writable(x: string)
  {
    '\\' !in x && (x == [] || (x[0] > ' ' && x[|x| - 1] > ' '))
  }

  /** Every comma of `a` is preceded by a backslash. */
  predicate CommasEscaped(a: string)
  {
    forall j | 0 <= j < |a| && a[j] == ',' :: j > 0 && a[j - 1] == '\\'
  }

  /** An escaped element starts with the element's first character, or with the backslash of an escaped comma. */
  lemma EscapeFirst(x: string)
    requires x != []
    ensures Escape(x) != [] && Escape(x)[0] == (if x[0] == ',' then '\\' else x[0])
  {
  }

  /** An escaped element ends with the element's last character. */
  lemma {:induction false} EscapeLast(x: string)
    requires x != []
    ensures Escape(x) != [] && Escape(x)[|Escape(x)| - 1] == x[|x| - 1]
  {
    if x[1..] != [] {
      EscapeLast(x[1..]);
      assert x[|x| - 1] == x[1..][|x[1..]| - 1];
    }
  }

  /** Escaping leaves no comma without a backslash before it. */
  lemma {:induction false} EscapeCommas(x: string)
    ensures CommasEscaped(Escape(x))
  {
    if x != [] {
      EscapeCommas(x[1..]);
      var head := if x[0] == ',' then "\\," else [x[0]];
      var tail := Escape(x[1..]);
      assert Escape(x) == head + tail;
      forall j | 0 <= j < |head + tail| && (head + tail)[j] == ','
        ensures j > 0 && (head + tail)[j - 1] == '\\'
      {
        if j >= |head| {
          assert (head + tail)[j] == tail[j - |head|];
          if j - |head| > 0 {
            assert (head + tail)[j - 1] == tail[j - |head| - 1];
          }
        }
      }
    }
  }

  /** Unescaping undoes escaping for an element without backslashes. */
  lemma {:induction false} UnescapeEscape(x: string)
    requires '\\' !in x
    ensures Unescape(Escape(x)) == x
  {
    if x != [] {
      UnescapeEscape(x[1..]);
      var head := if x[0] == ',' then "\\," else [x[0]];
      var tail := Escape(x[1..]);
      assert Escape(x) == head + tail;
      if x[0] == ',' {
        assert (head + tail)[2..] == tail;
      } else {
        assert (head + tail)[1..] == tail;
      }
    }
  }

  lemma {:induction false} TrimWritable(p: string, a: string)
    requires p == "" || p == " "
    requires a == [] || (a[0] > ' ' && a[|a| - 1] > ' ')
    ensures Trim(p + a) == a
  {
    if p == " " {
      assert (p + a)[1..] == a;
    }
    assert TrimStart(p + a) == a;
  }

  /** The end of an element that is followed by a comma and has none of its own. */
  lemma {:induction false} EndBeforeComma(a: string, b: string)
    requires CommasEscaped(a) && (a == [] || a[|a| - 1] != '\\')
    ensures ElementEnd(a + "," + b, 0) == |a|
  {
    var t := a + "," + b;
    forall k | 0 <= k < |a|
      ensures !IsSeparator(t, k)
    {
      assert t[k] == a[k];
      if k > 0 {
        assert t[k - 1] == a[k - 1];
      }
    }
    assert IsSeparator(t, |a|);
    EndAt(t, 0, |a|);
  }

  lemma {:induction false} EndAt(t: string, j: nat, e: nat)
    requires j <= e <= |t|
    requires forall k | j <= k < e :: !IsSeparator(t, k)
    requires e == |t| || IsSeparator(t, e)
    ensures ElementEnd(t, j) == e
    decreases e - j
  {
    if j < e {
      EndAt(t, j + 1, e);
    }
  }

  /** A text whose commas are all escaped is a single element. */
  lemma {:induction false} EscapedIsOneElement(t: string)
    requires CommasEscaped(t)
    ensures ElementEnd(t, 0) == |t|
  {
    forall k | 0 <= k < |t|
      ensures !IsSeparator(t, k)
    {
    }
    EndAt(t, 0, |t|);
  }

  /** A written element, after the blank that follows a comma or none, reads back as itself. */
  lemma {:induction false} WrittenElement(x: string, p: string)
    requires Writable(x) && (p == "" || p == " ")
    ensures CommasEscaped(p + Escape(x))
    ensures p + Escape(x) == [] || (p + Escape(x))[|p + Escape(x)| - 1] != '\\'
    ensures Element(p + Escape(x)) == x
  {
    var a := Escape(x);
    EscapeCommas(x);
    UnescapeEscape(x);
    if x != [] {
      EscapeFirst(x);
      EscapeLast(x);
    }
    forall j | 0 <= j < |p + a| && (p + a)[j] == ','
      ensures j > 0 && (p + a)[j - 1] == '\\'
    {
      assert (p + a)[j] == a[j - |p|];
      if j - |p| > 0 {
        assert (p + a)[j - 1] == a[j - |p| - 1];
      }
    }
    TrimWritable(p, a);
    if a != [] {
      assert (p + a)[|p + a| - 1] == a[|a| - 1];
      assert a[|a| - 1] == x[|x| - 1];
    }
  }

  /**
   * The round trip a caller relies on: writable elements, escaped and joined
   * with ", ", parse back into the same elements in the same order.
   */
  lemma {:induction false} ListRoundTrip(xs: seq<string>, p: string)
    requires |xs| >= 1 && (p == "" || p == " ")
    requires forall i | 0 <= i < |xs| :: Writable(xs[i])
    ensures ParseText(p + Join(EscapeAll(xs), ", ")) == xs
    decreases |xs|
  {
    var es := EscapeAll(xs);
    var a := Escape(xs[0]);
    assert es[0] == a;
    WrittenElement(xs[0], p);
    if |xs| == 1 {
      assert Join(es, ", ") == a;
      EscapedIsOneElement(p + a);
      assert (p + a)[..|p + a|] == p + a;
      ParseTextStep(p + a, |p + a|, p + a);
    } else {
      var rest := Join(es[1..], ", ");
      var u, v := p + a, " " + rest;
      assert Join(es, ", ") == a + ", " + rest;
      assert p + (a + ", " + rest) == (p + a) + "," + (" " + rest);
      EndBeforeComma(u, v);
      ParseTextCons(u, v);
      assert EscapeAll(xs[1..]) == es[1..];
      ListRoundTrip(xs[1..], " ");
      assert ParseText(p + Join(es, ", ")) == [xs[0]] + xs[1..];
      assert [xs[0]] + xs[1..] == xs;
    }
  }

  /** A written list with at least one non-empty element, or two elements, is not empty text. */
  lemma WrittenListNotEmpty(xs: seq<string>)
    requires |xs| >= 2 || (|xs| == 1 && xs[0] != "")
    ensures |Join(EscapeAll(xs), ", ")| >= 1
  {
    var es := EscapeAll(xs);
    if |xs| == 1 {
      EscapeFirst(xs[0]);
      assert Join(es, ", ") == es[0];
    } else {
      assert Join(es, ", ") == es[0] + ", " + Join(es[1..], ", ");
    }
  }

  /** The same round trip through the parser's entry point, for a non-empty written list. */
  lemma ParseListRoundTrip(xs: seq<string>)
    requires |xs| >= 2 || (|xs| == 1 && xs[0] != "")
    requires forall i | 0 <= i < |xs| :: Writable(xs[i])
    ensures ParseList(Some(Join(EscapeAll(xs), ", "))) == xs
  {
    var text := Join(EscapeAll(xs), ", ");
    ListRoundTrip(xs, "");
    assert "" + text == text;
    WrittenListNotEmpty(xs);
    ParseListOfText(text, xs);
  }

  lemma ParseListOfText(text: string, xs: seq<string>)
    requires |text| >= 1 && ParseText(text) == xs
    ensures ParseList(Some(text)) == xs
  {
  }

  /** Empty elements are kept: ", , x, " has four elements, three of them empty. */
  lemma EmptyElementsKept()
    ensures ParseList(Some(", , x, ")) == ["", "", "x", ""]
  {
    var xs := ["", "", "x", ""];
    assert EscapeAll(xs) == xs by {
      assert Escape("x") == "x";
      assert xs[1..][1..][1..] == [""];
    }
    assert Join(xs, ", ") == ", , x, " by {
      assert xs[1..] == ["", "x", ""] && xs[1..][1..] == ["x", ""];
    }
    ParseListRoundTrip(xs);
  }
}

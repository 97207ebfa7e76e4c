/** The text form in which a colormap travels through Redis: colormap_to_db prints the
    flattened array the way numpy prints a float array, removes every `.` and newline and
    the two brackets; the GUI splits the text on single spaces, drops the empty pieces
    and reads each remaining piece with `int`. */
module Encoding {
  import opened Wrappers
  import opened Strings

  /** A colour channel as PIL gives it, and so every value of a colormap array. */
  type Byte = x: int | 0 <= x < 256

  function Spaces(n: nat): (s: string)
    ensures |s| == n
    ensures forall i :: 0 <= i < |s| ==> s[i] == ' '
  {
    if n == 0 then "" else " " + Spaces(n - 1)
  }

  /** How numpy prints a whole-number float: its digits and a trailing point. */
  function FloatText(x: int): string {
    IntToString(x) + "."
  }

  /** The width numpy pads every element to: the longest element text. */
  function MaxWidth(xs: seq<int>): nat {
    if xs == [] then 0
    else
      var w := MaxWidth(xs[1..]);
      if |FloatText(xs[0])| > w then |FloatText(xs[0])| else w
  }

  /** `t` right-justified in a field of width `w`. */
  function Pad(t: string, w: nat): string {
    Spaces(if |t| < w then w - |t| else 0) + t
  }

  /** Whether numpy breaks the line before the next element; a layout that runs out
      breaks no more lines. */
  function BreakHere(breaks: seq<bool>): bool {
    |breaks| > 0 && breaks[0]
  }

  function Later(breaks: seq<bool>): seq<bool> {
    if |breaks| > 0 then breaks[1..] else []
  }

  /** The elements after the first, each preceded by the separator space or, where the
      line is broken, by a newline and the one-space indent of the next line. */
  function Items(xs: seq<int>, w: nat, breaks: seq<bool>): string {
    if xs == [] then ""
    else (if BreakHere(breaks) then "\n " else " ") + Pad(FloatText(xs[0]), w) + Items(xs[1..], w, Later(breaks))
  }

  /** `str(array)` of a one-dimensional float array of whole numbers, printed in full
      (the threshold is set to infinity), with line breaks where `breaks` says. numpy
      prints in this fixed-point form because every value is from 0 to 255; it would
      switch to exponent notation once the largest magnitude reached 1e8 or exceeded the
      smallest nonzero one a thousandfold. */
  function NumpyStr(xs: seq<Byte>, breaks: seq<bool>): string {
    var w := MaxWidth(xs);
    "[" + (if xs == [] then "" else Pad(FloatText(xs[0]), w) + Items(xs[1..], w, breaks)) + "]"
  }

  /** `.replace(".", "").replace("\n", "")` */
  function Strip(s: string): string {
    RemoveChar(RemoveChar(s, '.'), '\n')
  }

  /** colormap_to_db's encoding of the flattened array. */
  function Encode(xs: seq<Byte>, breaks: seq<bool>): (r: string)
  {
    var t := Strip(NumpyStr(xs, breaks));
    if |t| < 2 then "" else t[1..|t| - 1]
  }

  /** `int(...)` of every piece; None when one of them is not an integer. */
  function ParseAll(texts: seq<string>): (r: Option<seq<int>>)
    ensures r.Some? ==> |r.value| == |texts|
  {
    if texts == [] then Some([])
    else match (ParseInt(texts[0]), ParseAll(texts[1..]))
      case (Some(x), Some(rest)) => Some([x] + rest)
      case _ => None
  }

  /** The GUI's reading of the stored text (vizaviz_gui.py lines 240-241). */
  function Decode(s: string): Option<seq<int>> {
    ParseAll(NonEmpty(Split(s, ' ')))
  }

  // ---------------------------------------------------------------------------
  // the round trip

  lemma StripAppend(a: string, b: string)
    ensures Strip(a + b) == Strip(a) + Strip(b)
  {
    RemoveCharAppend(a, b, '.');
    RemoveCharAppend(RemoveChar(a, '.'), RemoveChar(b, '.'), '\n');
  }

  lemma StripPlain(s: string)
    requires '.' !in s && '\n' !in s
    ensures Strip(s) == s
  {
    RemoveCharAbsent(s, '.');
    RemoveCharAbsent(s, '\n');
  }

  /** The spaces numpy pads `x` with in a field of width `w`. */
  function PadWidth(x: int, w: nat): nat {
    if |FloatText(x)| < w then w - |FloatText(x)| else 0
  }

  /** An element once its point is removed. */
  function Word(x: int, w: nat): string {
    Spaces(PadWidth(x, w)) + IntToString(x)
  }

  lemma StripPad(x: int, w: nat)
    ensures Strip(Pad(FloatText(x), w)) == Word(x, w)
  {
    var d := IntToString(x);
    assert '.' !in d && '\n' !in d by {
      IntToStringChars(x, '.');
      IntToStringChars(x, '\n');
    }
    assert Pad(FloatText(x), w) == Word(x, w) + ".";
    StripAppend(Word(x, w), ".");
    StripPlain(Word(x, w));
    assert RemoveChar(".", '.') == "" by { assert "."[1..] == ""; }
    assert RemoveChar("", '\n') == "";
  }

  lemma StripSeparator(b: bool, t: string)
    ensures Strip((if b then "\n " else " ") + t) == " " + Strip(t)
  {
    if b {
      assert Strip("\n ") == " " by {
        StripAppend("\n", " ");
        StripPlain(" ");
        assert RemoveChar("\n", '.') == "\n" by { assert "\n"[1..] == ""; }
        assert RemoveChar("\n", '\n') == "" by { assert "\n"[1..] == ""; }
      }
      StripAppend("\n ", t);
    } else {
      StripPlain(" ");
      StripAppend(" ", t);
    }
  }

  /** The elements with the points and newlines removed: padding, digits, and one space
      between neighbours. */
  function Clean(xs: seq<int>, w: nat): string {
    if xs == [] then ""
    else Word(xs[0], w) + (if |xs| == 1 then "" else " " + Clean(xs[1..], w))
  }

  lemma {:induction false} StripItems(xs: seq<int>, w: nat, breaks: seq<bool>)
    ensures Strip(Items(xs, w, breaks)) == if xs == [] then "" else " " + Clean(xs, w)
    decreases |xs|
  {
    if xs != [] {
      var first := Pad(FloatText(xs[0]), w);
      var rest := Items(xs[1..], w, Later(breaks));
      ConcatAssoc(if BreakHere(breaks) then "\n " else " ", first, rest);
      StripSeparator(BreakHere(breaks), first + rest);
      StripAppend(first, rest);
      StripPad(xs[0], w);
      StripItems(xs[1..], w, Later(breaks));
      ConcatAssoc(" ", Word(xs[0], w), Strip(rest));
    } else {
      assert RemoveChar("", '.') == "";
      assert RemoveChar("", '\n') == "";
    }
  }

  lemma StripBracketed(body: string)
    ensures Strip("[" + body + "]") == "[" + Strip(body) + "]"
  {
    StripAppend("[" + body, "]");
    StripAppend("[", body);
    StripPlain("[");
    StripPlain("]");
  }

  /** Removing points and newlines from numpy's text and the brackets leaves the
      cleaned elements. */
  lemma StripNumpyStr(xs: seq<Byte>, breaks: seq<bool>)
    ensures Encode(xs, breaks) == Clean(xs, MaxWidth(xs))
  {
    var w := MaxWidth(xs);
    var body := if xs == [] then "" else Pad(FloatText(xs[0]), w) + Items(xs[1..], w, breaks);
    StripBracketed(body);
    if xs != [] {
      StripAppend(Pad(FloatText(xs[0]), w), Items(xs[1..], w, breaks));
      StripPad(xs[0], w);
      StripItems(xs[1..], w, breaks);
    } else {
      assert RemoveChar("", '.') == "";
      assert RemoveChar("", '\n') == "";
    }
    var t := "[" + Strip(body) + "]";
    assert t[1..|t| - 1] == Strip(body);
  }

  function Blanks(k: nat): (r: seq<string>)
    ensures NonEmpty(r) == []
  {
    if k == 0 then [] else [""] + Blanks(k - 1)
  }

  lemma {:induction false} SplitSpaces(k: nat, rest: string)
    ensures Split(Spaces(k) + rest, ' ') == Blanks(k) + Split(rest, ' ')
    decreases k
  {
    if k > 0 {
      var s := Spaces(k) + rest;
      assert s[0] == ' ' && s[1..] == Spaces(k - 1) + rest;
      assert Split(s, ' ') == [""] + Split(s[1..], ' ');
      SplitSpaces(k - 1, rest);
      assert Blanks(k) + Split(rest, ' ') == [""] + (Blanks(k - 1) + Split(rest, ' '));
    } else {
      assert Spaces(k) + rest == rest;
      assert Blanks(k) + Split(rest, ' ') == Split(rest, ' ');
    }
  }

  /** `str(x)` for every element. */
  function Texts(xs: seq<int>): (r: seq<string>)
    ensures |r| == |xs|
  {
    if xs == [] then [] else [IntToString(xs[0])] + Texts(xs[1..])
  }

  /** Splitting a last element. */
  lemma SplitLastWord(x: int, w: nat)
    ensures NonEmpty(Split(Word(x, w), ' ')) == [IntToString(x)]
  {
    var d := IntToString(x);
    var k := PadWidth(x, w);
    assert ' ' !in d by { IntToStringChars(x, ' '); }
    assert NonEmpty([d]) == [d] by { assert [d][1..] == []; }
    SplitSpaces(k, d);
    SplitNoSeparator(d, ' ');
    NonEmptyAppend(Blanks(k), [d]);
  }

  /** Splitting an element and the space after it. */
  lemma SplitWordThen(x: int, w: nat, rest: string)
    ensures NonEmpty(Split(Word(x, w) + " " + rest, ' ')) == [IntToString(x)] + NonEmpty(Split(rest, ' '))
  {
    var d := IntToString(x);
    var k := PadWidth(x, w);
    assert ' ' !in d && d != "" by { IntToStringChars(x, ' '); }
    assert Word(x, w) + " " + rest == Spaces(k) + (d + [' '] + rest);
    assert Split(Word(x, w) + " " + rest, ' ') == Blanks(k) + ([d] + Split(rest, ' ')) by {
      SplitSpaces(k, d + [' '] + rest);
      SplitAfterPiece(d, rest, ' ');
    }
    NonEmptyAppend(Blanks(k), [d] + Split(rest, ' '));
    assert NonEmpty([d] + Split(rest, ' ')) == [d] + NonEmpty(Split(rest, ' ')) by {
      NonEmptyAppend([d], Split(rest, ' '));
      assert NonEmpty([d]) == [d] by { assert [d][1..] == []; }
    }
  }

  lemma {:induction false} SplitClean(xs: seq<int>, w: nat)
    ensures NonEmpty(Split(Clean(xs, w), ' ')) == Texts(xs)
    decreases |xs|
  {
    if xs == [] {
      assert NonEmpty([""]) == [] by { assert [""][1..] == []; }
    } else if |xs| == 1 {
      SplitLastWord(xs[0], w);
      assert Clean(xs, w) == Word(xs[0], w) + "" == Word(xs[0], w);
      assert xs[1..] == [] && Texts(xs) == [IntToString(xs[0])] + [];
    } else {
      SplitWordThen(xs[0], w, Clean(xs[1..], w));
      ConcatAssoc(Word(xs[0], w), " ", Clean(xs[1..], w));
      SplitClean(xs[1..], w);
    }
  }

  lemma {:induction false} ParseTexts(xs: seq<int>)
    ensures ParseAll(Texts(xs)) == Some(xs)
    decreases |xs|
  {
    if xs != [] {
      ParseIntOfString(xs[0]);
      assert Texts(xs)[1..] == Texts(xs[1..]);
      ParseTexts(xs[1..]);
      assert [xs[0]] + xs[1..] == xs;
    }
  }

  /** The GUI reads back exactly the numbers colormap_to_db wrote, whatever the element
      width and wherever numpy broke the lines. */
  lemma DecodeEncode(xs: seq<Byte>, breaks: seq<bool>)
    ensures Decode(Encode(xs, breaks)) == Some(xs)
  {
    EncodedPieces(xs, breaks);
    ParseTexts(xs);
  }

  /** The pieces the GUI keeps from the stored text are the elements' decimal texts,
      one per element. */
  lemma EncodedPieces(xs: seq<Byte>, breaks: seq<bool>)
    ensures NonEmpty(Split(Encode(xs, breaks), ' ')) == Texts(xs)
  {
    StripNumpyStr(xs, breaks);
    SplitClean(xs, MaxWidth(xs));
  }
}

/** The frame files ffmpeg extracts, `<prefix>_%08d.bmp` (one per second of video), and
    the order `list.sort()` puts them in. */
module Frames {
  import opened Strings
  import opened Sorting
  import opened World

  /** `n` in exactly `w` decimal digits, with leading zeros. */
  function Fixed(n: nat, w: nat): (s: string)
    requires n < Pow10(w)
    ensures |s| == w
  {
    if w == 0 then ""
    else
      var p := Pow10(w - 1);
      [DigitChar(Lead(n, p))] + Fixed(Rest(n, p), w - 1)
  }

  /** The leading digit of `n` below `10 * p`. */
  function Lead(n: nat, p: nat): (q: nat)
    requires p >= 1 && n < 10 * p
    ensures q < 10
  {
    n / p
  }

  /** What remains of `n` below `p`. */
  function Rest(n: nat, p: nat): (r: nat)
    requires p >= 1
    ensures r < p
  {
    n % p
  }

  lemma DivisionBounds(n: nat, p: nat)
    requires p >= 1 && n < 10 * p
    ensures n / p < 10 && n % p < p && n == (n / p) * p + n % p
  {
  }

  lemma LexLeCons(c: char, x: string, d: char, y: string)
    ensures LexLe([c] + x, [d] + y) <==> c < d || (c == d && LexLe(x, y))
  {
    assert ([c] + x)[1..] == x && ([d] + y)[1..] == y;
  }

  /** The leading digit `q` and the remaining value `r` of `Fixed(n, w)`. */
  lemma FixedUnfold(n: nat, w: nat) returns (q: nat, r: nat)
    requires w > 0 && n < Pow10(w)
    ensures q < 10 && r < Pow10(w - 1) && n == q * Pow10(w - 1) + r
    ensures Fixed(n, w) == [DigitChar(q)] + Fixed(r, w - 1)
  {
    DivisionBounds(n, Pow10(w - 1));
    q, r := Lead(n, Pow10(w - 1)), Rest(n, Pow10(w - 1));
  }

  /** Numbers with equal leading digits compare as their remainders do; otherwise as
      their leading digits. */
  lemma OrderByDigits(qa: nat, ra: nat, qb: nat, rb: nat, p: nat)
    requires ra < p && rb < p
    ensures qa < qb ==> qa * p + ra < qb * p + rb
    ensures qa == qb ==> (qa * p + ra <= qb * p + rb <==> ra <= rb)
  {
    if qa < qb {
      assert (qa + 1) * p <= qb * p;
    }
  }

  lemma DigitConsOrder(qa: nat, x: string, qb: nat, y: string)
    requires qa < 10 && qb < 10
    ensures LexLe([DigitChar(qa)] + x, [DigitChar(qb)] + y) <==> qa < qb || (qa == qb && LexLe(x, y))
  {
    LexLeCons(DigitChar(qa), x, DigitChar(qb), y);
  }

  /** Fixed-width digit strings sort in numeric order. */
  lemma {:induction false} FixedOrder(a: nat, b: nat, w: nat)
    requires a < Pow10(w) && b < Pow10(w)
    ensures LexLe(Fixed(a, w), Fixed(b, w)) <==> a <= b
    decreases w
  {
    if w > 0 {
      var qa, ra := FixedUnfold(a, w);
      var qb, rb := FixedUnfold(b, w);
      OrderByDigits(qa, ra, qb, rb, Pow10(w - 1));
      OrderByDigits(qb, rb, qa, ra, Pow10(w - 1));
      DigitConsOrder(qa, Fixed(ra, w - 1), qb, Fixed(rb, w - 1));
      if qa == qb {
        FixedOrder(ra, rb, w - 1);
      }
    } else {
      assert Fixed(a, w) == "";
    }
  }

  /** Comparing strings of one length followed by the same suffix compares the strings. */
  lemma {:induction false} LexLeSameLength(x: string, y: string, s: string)
    requires |x| == |y|
    ensures LexLe(x + s, y + s) <==> LexLe(x, y)
    decreases |x|
  {
    if |x| == 0 {
      assert x + s == s && y + s == s;
      LexLeTotal(s, s);
    } else {
      assert (x + s)[1..] == x[1..] + s;
      assert (y + s)[1..] == y[1..] + s;
      LexLeSameLength(x[1..], y[1..], s);
    }
  }

  const FrameDigits: nat := 8

  /** The name ffmpeg gives frame `n`: `<prefix>_%08d.bmp`. */
  function FrameName(prefix: string, n: nat): string
    requires n < Pow10(FrameDigits)
  {
    prefix + "_" + Fixed(n, FrameDigits) + ".bmp"
  }

  /** Frame names sort in frame order. */
  lemma FrameNameOrder(prefix: string, a: nat, b: nat)
    requires a < Pow10(FrameDigits) && b < Pow10(FrameDigits)
    ensures LexLe(FrameName(prefix, a), FrameName(prefix, b)) <==> a <= b
  {
    var x := Fixed(a, FrameDigits);
    var y := Fixed(b, FrameDigits);
    assert FrameName(prefix, a) == (prefix + "_") + (x + ".bmp");
    assert FrameName(prefix, b) == (prefix + "_") + (y + ".bmp");
    LexLeCommonPrefix(prefix + "_", x + ".bmp", y + ".bmp");
    LexLeSameLength(x, y, ".bmp");
    FixedOrder(a, b, FrameDigits);
  }

  /** Python's `<=` on paths, for paths given as a directory and a name: the
      directories are compared as whole strings, then the names. pathlib compares
      component by component, which orders the same for frames of one directory but
      can differ for frames the recursive glob finds in subdirectories (a directory
      `t/0` against a file `t/a.bmp`, or a directory name holding a character below
      '/'). */
  predicate PathLe(p: Path, q: Path) {
    PairLe((p.dir, p.name), (q.dir, q.name))
  }

  lemma PathOrderIsTotal()
    ensures TotalOrder(PathLe)
  {
    PairOrderIsTotal();
    forall p: Path, q: Path ensures PathLe(p, q) || PathLe(q, p) {
      assert PairLe((p.dir, p.name), (q.dir, q.name)) || PairLe((q.dir, q.name), (p.dir, p.name));
    }
    forall p: Path, q: Path, r: Path | PathLe(p, q) && PathLe(q, r) ensures PathLe(p, r) {
      assert PairLe((p.dir, p.name), (r.dir, r.name));
    }
    forall p: Path, q: Path | PathLe(p, q) && PathLe(q, p) ensures p == q {
      assert (p.dir, p.name) == (q.dir, q.name);
    }
  }

  /** `sources.sort()` on a list of frame files. */
  function SortPaths(paths: seq<Path>): seq<Path> {
    Sort(paths, PathLe)
  }

  /** The frame files `ns` of one extraction, in the order of `ns`. */
  function FrameFiles(dir: string, prefix: string, ns: seq<nat>): (r: seq<Path>)
    requires forall i :: 0 <= i < |ns| ==> ns[i] < Pow10(FrameDigits)
    ensures |r| == |ns|
    ensures forall i :: 0 <= i < |ns| ==> r[i] == Path(dir, FrameName(prefix, ns[i]))
  {
    if ns == [] then [] else [Path(dir, FrameName(prefix, ns[0]))] + FrameFiles(dir, prefix, ns[1..])
  }

  /** However the directory listing orders the frames of one extraction, sorting puts
      them in frame-number order, so the n-th row of a colormap is the n-th second. */
  lemma SortedFramesAreInFrameOrder(dir: string, prefix: string, ns: seq<nat>, listing: seq<Path>)
    requires forall i :: 0 <= i < |ns| ==> ns[i] < Pow10(FrameDigits)
    requires forall i, j :: 0 <= i < j < |ns| ==> ns[i] < ns[j]
    requires multiset(listing) == multiset(FrameFiles(dir, prefix, ns))
    ensures SortPaths(listing) == FrameFiles(dir, prefix, ns)
  {
    var target := FrameFiles(dir, prefix, ns);
    forall i, j | 0 <= i < j < |target| ensures PathLe(target[i], target[j]) {
      FrameNameOrder(prefix, ns[i], ns[j]);
    }
    PathOrderIsTotal();
    SortIsSortedRearrangement(listing, target, PathLe);
  }
}

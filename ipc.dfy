/** The JSON IPC protocol the server speaks to each player over its socket: the command
    texts it writes, the newline framing of write_to_pipe, and the part of a reply the
    reconciler looks at. */
module Ipc {
  import opened Strings

  /** The three kinds of command the reconciler sends. */
  datatype Command =
    | GetProperty(property: string)
    | SetProperty(property: string, value: string)
    | SeekAbsolute(position: string)

  const LoopStart: string := "ab-loop-a"
  const LoopEnd: string := "ab-loop-b"
  const Volume: string := "volume"

  /** The command text exactly as the server formats it; a set or seek value is the
      stored field text, substituted unquoted. */
  function CommandText(c: Command): string {
    match c
    case GetProperty(p) => "{\"command\" : [\"get_property\",\"" + p + "\"]}"
    case SetProperty(p, v) => "{\"command\" : [\"set_property\",\"" + p + "\", " + v + "]}"
    case SeekAbsolute(v) => "{ \"command\": [\"seek\"," + v + ",\"absolute\"]}"
  }

  /** write_to_pipe's framing: a newline is appended unless the text already ends in one. */
  function Frame(text: string): (r: string)
    ensures EndsWith(r, "\n")
    ensures |text| <= |r| <= |text| + 1 && r[..|text|] == text
  {
    if EndsWith(text, "\n") then text else text + "\n"
  }

  /** Framing twice is framing once. */
  lemma FrameIdempotent(text: string)
    ensures Frame(Frame(text)) == Frame(text)
  {
  }

  /** Framing leaves an already terminated text alone and otherwise adds exactly one
      newline. */
  lemma FrameAddsOnlyMissingNewline(text: string)
    ensures EndsWith(text, "\n") <==> Frame(text) == text
    ensures !EndsWith(text, "\n") <==> Frame(text) == text + "\n"
  {
    if !EndsWith(text, "\n") {
      assert Frame(text) != text by {
        assert |Frame(text)| == |text| + 1;
      }
    }
  }

  /** The bytes written to the socket for a command. */
  function Wire(c: Command): string {
    Frame(CommandText(c))
  }

  /** Every command text ends in `}`, so its wire form is the text plus one newline. */
  lemma WireIsTextAndNewline(c: Command)
    ensures Wire(c) == CommandText(c) + "\n"
  {
    var t := CommandText(c);
    assert t[|t| - 1] == '}';
    assert !EndsWith(t, "\n") by {
      assert t[|t| - 1..] != "\n";
    }
  }

  /** The `data` member of a decoded reply, as far as a comparison with a float can tell. */
  datatype Json =
    | JNull
    | JBool(b: bool)
    | JNumber(n: real)
    | JString(s: string)
    | JComposite

  /** The player's reply for a property that is not set: `{"data":"no",...}`. */
  const NotSet: Json := JString("no")

  /** Python's `v != x` for a decoded JSON value `v` and a float `x`: only a number, or a
      boolean read as 1 or 0, can be equal to a float. */
  predicate DiffersFromFloat(v: Json, x: real) {
    match v
    case JNumber(n) => n != x
    case JBool(b) => (if b then 1.0 else 0.0) != x
    case _ => true
  }

  /** The not-set reply differs from every float, and a number differs from a float
      exactly when the two values are unequal. */
  lemma DiffersFromFloatCases(x: real, n: real)
    ensures DiffersFromFloat(NotSet, x)
    ensures DiffersFromFloat(JNumber(n), x) <==> n != x
  {
  }
}

/**
 * Display text as the integration builds it with f-strings. A text is the sequence of its
 * f-string parts, so that a formatted float stays a number together with its format
 * instead of becoming digits.
 */
module Display {

  /** The float formats the integration uses. */
  datatype NumFormat =
    | Grouped0  // `:,.0f`: no decimals, thousands separated by commas
    | Fixed0    // `:.0f`
    | Fixed1    // `:.1f`
    | Fixed2    // `:.2f`

  datatype Piece =
    | Lit(s: string)                     // literal text, or a substituted `str`
    | Int(n: int)                        // a substituted `int`, in decimal
    | Real(x: real, format: NumFormat)   // a substituted `float` with its format

  type Text = seq<Piece>

  /** A plain string as a text. */
  function Str(s: string): Text {
    [Lit(s)]
  }

  /** The text is falsy in Python: it renders as the empty string (numbers never do). */
  predicate IsBlank(t: Text) {
    forall i :: 0 <= i < |t| ==> t[i] == Lit("")
  }

  /** The texts one after another. */
  function Flatten(ts: seq<Text>): Text
    decreases |ts|
  {
    if ts == [] then [] else ts[0] + Flatten(ts[1..])
  }

  /** Each part with the separator in front of it. */
  function Led(parts: seq<Text>, sep: string): (r: seq<Text>)
    ensures |r| == |parts| && forall i :: 0 <= i < |parts| ==> r[i] == [Lit(sep)] + parts[i]
  {
    seq(|parts|, i requires 0 <= i < |parts| => [Lit(sep)] + parts[i])
  }

  /**
   * `sep.join(parts)`: the first part, then every further part with the separator in front of it;
   * nothing for no parts.
   */
  function Join(parts: seq<Text>, sep: string): (r: Text)
    ensures |parts| == 0 ==> r == []
    ensures |parts| > 0 ==> r == parts[0] + Flatten(Led(parts[1..], sep))
    decreases |parts|
  {
    if |parts| == 0 then []
    else if |parts| == 1 then
      assert Led(parts[1..], sep) == [];
      parts[0]
    else
      var tail := Join(parts[1..], sep);
      JoinStep(parts, sep, tail);
      parts[0] + [Lit(sep)] + tail
  }

  lemma JoinStep(parts: seq<Text>, sep: string, tail: Text)
    requires |parts| > 1 && tail == parts[1] + Flatten(Led(parts[2..], sep))
    ensures parts[0] + [Lit(sep)] + tail == parts[0] + Flatten(Led(parts[1..], sep))
  {
    var led := Led(parts[1..], sep);
    assert led == [[Lit(sep)] + parts[1]] + Led(parts[2..], sep);
    assert Flatten(led) == ([Lit(sep)] + parts[1]) + Flatten(led[1..]);
    assert parts[0] + [Lit(sep)] + tail == parts[0] + (([Lit(sep)] + parts[1]) + Flatten(Led(parts[2..], sep)));
  }

  /** Python's `x or fallback` on display text. */
  function OrElse(t: Text, fallback: string): (r: Text)
    requires fallback != ""
    ensures !IsBlank(r)
    ensures !IsBlank(t) ==> r == t
    ensures IsBlank(t) ==> r == Str(fallback)
  {
    if IsBlank(t) then
      assert Str(fallback)[0] != Lit("");
      Str(fallback)
    else t
  }
}

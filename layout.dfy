/**
 * The vertex formats handed to moderngl's `vertex_array` next to each
 * buffer: space-separated tokens `Nf`, N 32-bit floats per attribute, one
 * attribute name per token. The code only ever uses single-digit counts, so
 * those are the formats modelled. A layout fits a vertex table when the
 * attribute widths add up to the width of every row.
 */
module Layout {
  import opened Wrappers

  predicate IsCountChar(c: char)
  {
    '1' <= c <= '9'
  }

  predicate IsCount(n: nat)
  {
    1 <= n <= 9
  }

  function CountOf(c: char): (n: nat)
    requires IsCountChar(c)
    ensures IsCount(n)
  {
    (c as int - '0' as int) as nat
  }

  function CountChar(n: nat): (c: char)
    requires IsCount(n)
    ensures IsCountChar(c) && CountOf(c) == n
  {
    ('0' as int + n) as char
  }

  /** The attribute widths of a format string, or None when it is not a list of `Nf` tokens. */
  function ParseFormat(s: string): (r: Option<seq<nat>>)
    ensures r.Some? ==> |r.value| > 0 && |s| == 3 * |r.value| - 1
    ensures r.Some? ==> forall i :: 0 <= i < |r.value| ==> IsCount(r.value[i])
    decreases |s|
  {
    if |s| < 2 || !IsCountChar(s[0]) || s[1] != 'f' then None
    else if |s| == 2 then Some([CountOf(s[0])])
    else if s[2] != ' ' then None
    else
      match ParseFormat(s[3..])
      case None => None
      case Some(rest) => Some([CountOf(s[0])] + rest)
  }

  /** The format string for the given attribute widths. */
  function FormatString(widths: seq<nat>): (s: string)
    requires |widths| > 0 && forall i :: 0 <= i < |widths| ==> IsCount(widths[i])
    ensures |s| == 3 * |widths| - 1
  {
    if |widths| == 1 then [CountChar(widths[0]), 'f']
    else [CountChar(widths[0]), 'f', ' '] + FormatString(widths[1..])
  }

  lemma {:induction false} ParseFormatString(widths: seq<nat>)
    requires |widths| > 0 && forall i :: 0 <= i < |widths| ==> IsCount(widths[i])
    ensures ParseFormat(FormatString(widths)) == Some(widths)
  {
    var s := FormatString(widths);
    var c := CountChar(widths[0]);
    if |widths| > 1 {
      assert s == [c, 'f', ' '] + FormatString(widths[1..]);
      ParseFormatString(widths[1..]);
      assert s[3..] == FormatString(widths[1..]);
      assert [CountOf(c)] + widths[1..] == widths;
    } else {
      assert s == [c, 'f'];
      assert [CountOf(c)] == widths;
    }
  }

  lemma {:induction false} FormatStringParsed(s: string)
    requires ParseFormat(s).Some?
    ensures FormatString(ParseFormat(s).value) == s
    decreases |s|
  {
    if |s| > 2 {
      FormatStringParsed(s[3..]);
      assert s == [s[0], s[1], s[2]] + s[3..];
    } else {
      assert s == [s[0], s[1]];
    }
  }

  /** Floats per vertex: the sum of the attribute widths. */
  function Stride(widths: seq<nat>): nat
  {
    if widths == [] then 0 else widths[0] + Stride(widths[1..])
  }

  /** Every row of `rows` has exactly the width the format asks for, and there is one name per attribute. */
  ghost predicate Fits(format: string, names: seq<string>, rows: seq<seq<real>>)
  {
    ParseFormat(format).Some? && |ParseFormat(format).value| == |names|
    && forall k :: 0 <= k < |rows| ==> |rows[k]| == Stride(ParseFormat(format).value)
  }

  /** The three formats the code uses. */
  const PositionFormat := "3f"
  const ColorPositionFormat := "3f 3f"
  const TexturedFormat := "2f 3f 3f"

  lemma KnownFormats()
    ensures ParseFormat(PositionFormat) == Some([3]) && Stride([3]) == 3
    ensures ParseFormat(ColorPositionFormat) == Some([3, 3]) && Stride([3, 3]) == 6
    ensures ParseFormat(TexturedFormat) == Some([2, 3, 3]) && Stride([2, 3, 3]) == 8
  {
    var w1, w2, w3 := [3], [3, 3], [2, 3, 3];
    assert w2[1..] == w1 && w3[1..] == w2;
    assert FormatString(w1) == PositionFormat;
    assert FormatString(w2) == ColorPositionFormat;
    assert FormatString(w3) == TexturedFormat;
    ParseFormatString(w1);
    ParseFormatString(w2);
    ParseFormatString(w3);
  }
}

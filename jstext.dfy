/**
 * JavaScript strings as the search code sees them: sequences of UTF-16 code
 * units, and `Array.prototype.join(" ")` over them.
 */
module JsText {

  /** One UTF-16 code unit, the element of a JavaScript string. */
  newtype CodeUnit = x: int | 0 <= x < 0x1_0000

  type JsString = seq<CodeUnit>

  const Space: CodeUnit := 0x20

  /** Sum of the lengths of the parts. */
  function TotalLength(parts: seq<JsString>): nat
  {
    if |parts| == 0 then 0 else |parts[0]| + TotalLength(parts[1..])
  }

  /** `parts.join(" ")`: the parts in order with one space between neighbours. */
  function JoinWithSpace(parts: seq<JsString>): (r: JsString)
    ensures |parts| == 0 ==> r == []
    ensures |parts| > 0 ==> |r| == TotalLength(parts) + |parts| - 1
    ensures |parts| > 0 ==> r[..|parts[0]|] == parts[0]
  {
    if |parts| == 0 then []
    else if |parts| == 1 then parts[0]
    else parts[0] + [Space] + JoinWithSpace(parts[1..])
  }

  /** Joining a concatenation puts exactly one space where the two halves meet. */
  lemma {:induction false} JoinAppend(a: seq<JsString>, b: seq<JsString>)
    requires |a| > 0 && |b| > 0
    ensures JoinWithSpace(a + b) == JoinWithSpace(a) + [Space] + JoinWithSpace(b)
  {
    if |a| == 1 {
      assert (a + b)[1..] == b;
    } else {
      assert (a + b)[1..] == a[1..] + b;
      JoinAppend(a[1..], b);
    }
  }
}

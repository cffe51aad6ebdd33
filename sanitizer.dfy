/**
 * The two single-occurrence regular-expression replacements that turn the
 * raw input into the full-text query (src/Jump/search.ts, lines 115-117):
 * first the leftmost character outside `[a-zA-Z0-9\s]` is deleted, then the
 * leftmost match of `[a-zA-Z]{2,}` is made a required term with edit
 * distance one by wrapping it in "+" and "~1".
 *
 * Neither regular expression has the `g` or `u` flag, so each replaces only
 * its leftmost match and matches single UTF-16 code units.
 */
module QuerySanitizer {
  import opened Wrappers
  import opened JsText
  import opened Sequences

  const Plus: CodeUnit := 0x2B      // '+'
  const Tilde: CodeUnit := 0x7E     // '~'
  const DigitOne: CodeUnit := 0x31  // '1'
  const Minus: CodeUnit := 0x2D     // '-'

  predicate IsAsciiLetter(c: CodeUnit)
  {
    (0x41 <= c <= 0x5A) || (0x61 <= c <= 0x7A)
  }

  predicate IsAsciiDigit(c: CodeUnit)
  {
    0x30 <= c <= 0x39
  }

  /** `\s`: the ECMAScript WhiteSpace and LineTerminator code points. */
  predicate IsRegExpSpace(c: CodeUnit)
  {
    (0x09 <= c <= 0x0D) || c == 0x20 || c == 0xA0 || c == 0x1680
    || (0x2000 <= c <= 0x200A) || c == 0x2028 || c == 0x2029
    || c == 0x202F || c == 0x205F || c == 0x3000 || c == 0xFEFF
  }

  /** Members of the class `[a-zA-Z0-9\s]`; everything else is a symbol. */
  predicate IsWordOrSpace(c: CodeUnit)
  {
    IsAsciiLetter(c) || IsAsciiDigit(c) || IsRegExpSpace(c)
  }

  // ---------------------------------------------------------------------
  // Step 1: delete the first symbol
  // ---------------------------------------------------------------------

  predicate NoSymbol(s: JsString)
  {
    forall i :: 0 <= i < |s| ==> IsWordOrSpace(s[i])
  }

  /** `k` is where `/[^a-zA-Z0-9\s]/` matches: the first symbol of `s`. */
  predicate IsFirstSymbol(s: JsString, k: int)
  {
    0 <= k < |s| && !IsWordOrSpace(s[k])
    && forall i :: 0 <= i < k ==> IsWordOrSpace(s[i])
  }

  /** Left-to-right scan for the first symbol at or after `from`. */
  function FindSymbol(s: JsString, from: nat): (r: Option<nat>)
    requires from <= |s|
    ensures r.Some? ==> from <= r.value < |s| && !IsWordOrSpace(s[r.value])
    ensures r.Some? ==> forall i :: from <= i < r.value ==> IsWordOrSpace(s[i])
    ensures r.None? ==> forall i :: from <= i < |s| ==> IsWordOrSpace(s[i])
    decreases |s| - from
  {
    if from == |s| then None
    else if !IsWordOrSpace(s[from]) then Some(from)
    else FindSymbol(s, from + 1)
  }

  /** Step 1: the leftmost symbol, if there is one, is deleted. */
  function StripFirstSymbol(s: JsString): JsString
  {
    match FindSymbol(s, 0)
    case None => s
    case Some(k) => s[..k] + s[k + 1..]
  }

  /** Step 1 deletes exactly the first symbol, or nothing when there is none. */
  lemma StripFirstSymbolSpec(s: JsString)
    ensures NoSymbol(s) ==> StripFirstSymbol(s) == s
    ensures forall k :: IsFirstSymbol(s, k) ==> StripFirstSymbol(s) == s[..k] + s[k + 1..]
    ensures !NoSymbol(s) ==> |StripFirstSymbol(s)| == |s| - 1
  {
  }

  predicate IsSymbol(c: CodeUnit)
  {
    !IsWordOrSpace(c)
  }

  /** The letters, digits and spaces of `s`, in order. */
  function WordPart(s: JsString): JsString
  {
    Filter(s, IsWordOrSpace)
  }

  /** The symbols of `s`, in order. */
  function SymbolPart(s: JsString): JsString
  {
    Filter(s, IsSymbol)
  }

  /**
   * Step 1 keeps every letter, digit and space in order and removes only the
   * first of the symbols: the remaining symbols are the old ones minus the head.
   */
  lemma StripFirstSymbolParts(s: JsString)
    ensures WordPart(StripFirstSymbol(s)) == WordPart(s)
    ensures NoSymbol(s) ==> SymbolPart(StripFirstSymbol(s)) == SymbolPart(s) == []
    ensures !NoSymbol(s) ==>
      |SymbolPart(s)| > 0 && SymbolPart(StripFirstSymbol(s)) == SymbolPart(s)[1..]
  {
    match FindSymbol(s, 0)
    case None =>
      FilterNone(s, IsSymbol);
    case Some(k) =>
      assert forall i :: 0 <= i < k ==> !IsSymbol(s[..k][i]);
      FilterNone(s[..k], IsSymbol);
      DeleteFirstSymbol(s, k);
  }

  lemma DeleteFirstSymbol(s: JsString, k: nat)
    requires k < |s| && IsSymbol(s[k]) && SymbolPart(s[..k]) == []
    ensures WordPart(s[..k] + s[k + 1..]) == WordPart(s)
    ensures SymbolPart(s) == [s[k]] + SymbolPart(s[..k] + s[k + 1..])
  {
    FilterSkip(s, k, IsWordOrSpace);
    FilterAt(s, k, IsSymbol);
    FilterAppend(s[..k], s[k + 1..], IsSymbol);
  }

  // ---------------------------------------------------------------------
  // Step 2: mark the first word of two or more letters as fuzzy and required
  // ---------------------------------------------------------------------

  predicate IsLetterPairAt(s: JsString, p: int)
  {
    0 <= p && p + 1 < |s| && IsAsciiLetter(s[p]) && IsAsciiLetter(s[p + 1])
  }

  predicate HasLetterPair(s: JsString)
  {
    exists p :: 0 <= p < |s| && IsLetterPairAt(s, p)
  }

  /**
   * `s[i..j]` is where `/[a-zA-Z]{2,}/` matches: the leftmost position with two
   * letters, extended greedily over the letters that follow.
   */
  predicate IsLeftmostRun(s: JsString, i: int, j: int)
  {
    0 <= i && i + 2 <= j <= |s|
    && (forall k :: i <= k < j ==> IsAsciiLetter(s[k]))
    && (j == |s| || !IsAsciiLetter(s[j]))
    && (forall p :: 0 <= p < i ==> !IsLetterPairAt(s, p))
  }

  /** Left-to-right scan for the first position at or after `from` holding two letters. */
  function FindLetterPair(s: JsString, from: nat): (r: Option<nat>)
    requires from <= |s|
    ensures r.Some? ==> from <= r.value && IsLetterPairAt(s, r.value)
    ensures r.Some? ==> forall p :: from <= p < r.value ==> !IsLetterPairAt(s, p)
    ensures r.None? ==> forall p :: from <= p ==> !IsLetterPairAt(s, p)
    decreases |s| - from
  {
    if from + 1 >= |s| then None
    else if IsAsciiLetter(s[from]) && IsAsciiLetter(s[from + 1]) then Some(from)
    else FindLetterPair(s, from + 1)
  }

  /** Greedy extension of a letter run that starts at or before `from`. */
  function LetterRunEnd(s: JsString, from: nat): (j: nat)
    requires from <= |s|
    ensures from <= j <= |s|
    ensures forall k :: from <= k < j ==> IsAsciiLetter(s[k])
    ensures j == |s| || !IsAsciiLetter(s[j])
    decreases |s| - from
  {
    if from == |s| || !IsAsciiLetter(s[from]) then from
    else LetterRunEnd(s, from + 1)
  }

  /** Step 2: the leftmost run found by the scan is wrapped in "+" and "~1". */
  function MarkFirstWord(s: JsString): JsString
  {
    match FindLetterPair(s, 0)
    case None => s
    case Some(i) =>
      var j := LetterRunEnd(s, i);
      s[..i] + [Plus] + s[i..j] + [Tilde, DigitOne] + s[j..]
  }

  /** The leftmost run is determined by the string: no two runs qualify. */
  lemma LeftmostRunUnique(s: JsString, i: int, j: int, i': int, j': int)
    requires IsLeftmostRun(s, i, j) && IsLeftmostRun(s, i', j')
    ensures i == i' && j == j'
  {
    assert IsLetterPairAt(s, i) && IsLetterPairAt(s, i');
  }

  /** A string with two adjacent letters has a leftmost run, which is maximal on both sides. */
  lemma LeftmostRunExists(s: JsString) returns (i: nat, j: nat)
    requires HasLetterPair(s)
    ensures IsLeftmostRun(s, i, j)
    ensures i == 0 || !IsAsciiLetter(s[i - 1])
  {
    var p :| 0 <= p < |s| && IsLetterPairAt(s, p);
    var r := FindLetterPair(s, 0);
    assert r.Some?;
    i := r.value;
    j := LetterRunEnd(s, i);
    assert i > 0 ==> !IsLetterPairAt(s, i - 1);
  }

  /**
   * Step 2 leaves a string without two adjacent letters unchanged; otherwise
   * it rewrites only the leftmost run r as "+" + r + "~1", leaving the prefix
   * and the suffix alone, so the string grows by exactly three.
   */
  lemma MarkFirstWordSpec(s: JsString)
    ensures !HasLetterPair(s) ==> MarkFirstWord(s) == s
    ensures forall i, j :: IsLeftmostRun(s, i, j) ==>
      MarkFirstWord(s) == s[..i] + [Plus] + s[i..j] + [Tilde, DigitOne] + s[j..]
    ensures HasLetterPair(s) ==> |MarkFirstWord(s)| == |s| + 3
  {
    match FindLetterPair(s, 0)
    case None =>
      assert !HasLetterPair(s);
      assert forall i, j :: IsLeftmostRun(s, i, j) ==> IsLetterPairAt(s, i);
    case Some(i0) =>
      var j0 := LetterRunEnd(s, i0);
      assert IsLeftmostRun(s, i0, j0);
      forall i, j | IsLeftmostRun(s, i, j) ensures i == i0 && j == j0 {
        LeftmostRunUnique(s, i, j, i0, j0);
      }
  }

  /** The query handed to the full-text index (search.ts line 115). */
  function Sanitize(input: JsString): JsString
  {
    MarkFirstWord(StripFirstSymbol(input))
  }

  /** A query of symbols only loses its first symbol and is otherwise passed through. */
  lemma SymbolsOnlyQuery(s: JsString)
    requires |s| > 0
    requires forall i :: 0 <= i < |s| ==> !IsWordOrSpace(s[i])
    ensures Sanitize(s) == s[1..]
  {
  }

  /**
   * The sanitiser does not remove query operators: only the first symbol
   * goes, so "--foo" reaches the index as "-+foo~1" (two presence operators
   * on one term) and "+-" as a lone "-".
   */
  lemma OperatorsReachTheIndex()
    ensures Sanitize([Minus, Minus, 0x66, 0x6F, 0x6F]) == [Minus, Plus, 0x66, 0x6F, 0x6F, Tilde, DigitOne]
    ensures Sanitize([Plus, Minus]) == [Minus]
  {
    assert FindSymbol([Minus, Minus, 0x66, 0x6F, 0x6F], 0) == Some(0);
    assert FindLetterPair([Minus, 0x66, 0x6F, 0x6F], 0) == Some(1);
    assert LetterRunEnd([Minus, 0x66, 0x6F, 0x6F], 1) == 4;
  }
}

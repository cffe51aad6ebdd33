/**
 * The query resolver `search` (src/Jump/search.ts, lines 71-119): an empty
 * input is a no-op; otherwise the result is the date-range entry, if any,
 * followed by the full-text index's hits for the sanitised query.
 *
 * The stores, the parsers, the date utilities and the index are passed in
 * as functions; `H` is the index's hit type.
 */
module JumpSearch {
  import opened Wrappers
  import opened JsText
  import opened Time
  import opened DateResolution
  import QuerySanitizer

  /** An entry of the merged result: a date range to jump to, or an index hit. */
  datatype JumpResult<H> = DateResult(jump: DateJump) | IndexHit(hit: H)

  /** `!input`: absent or the empty string. */
  predicate IsBlank(input: Option<JsString>)
  {
    input.None? || input.value == []
  }

  function AsHits<H>(hits: seq<H>): (r: seq<JumpResult<H>>)
    ensures |r| == |hits|
    ensures forall k :: 0 <= k < |hits| ==> r[k] == IndexHit(hits[k])
  {
    if |hits| == 0 then [] else [IndexHit(hits[0])] + AsHits(hits[1..])
  }

  /** The final merge: the zero or one date entries, then the index hits. */
  function Merge<H>(date: Option<DateJump>, hits: seq<H>): seq<JumpResult<H>>
  {
    (if date.Some? then [DateResult(date.value)] else []) + AsHits(hits)
  }

  /** What `search` returns, as a function of its input and collaborators. */
  function SearchResults<H>(input: Option<JsString>, viewportScale: DisplayScale,
                           parseDateRange: JsString -> Option<DateRangePart>,
                           chronoParse: JsString -> seq<ParsedMoment>,
                           floor: (Instant, DisplayScale) -> Instant,
                           ceil: (Instant, DisplayScale) -> Instant,
                           searchIndex: JsString -> seq<H>): Option<seq<JumpResult<H>>>
  {
    if IsBlank(input) then None
    else
      Some(Merge(ResolveDateRange(input.value, viewportScale, parseDateRange, chronoParse, floor, ceil),
                 searchIndex(QuerySanitizer.Sanitize(input.value))))
  }

  /**
   * The merged list holds at most one date entry, present exactly when there
   * is a date, and in front; after it come exactly the hits, in the index's order.
   */
  lemma MergeShape<H>(date: Option<DateJump>, hits: seq<H>)
    ensures var r := Merge(date, hits);
      var n := |r| - |hits|;
      && 0 <= n <= 1
      && (n == 1 <==> date.Some?)
      && (n == 1 ==> r[0] == DateResult(date.value))
      && (forall k :: 0 <= k < |hits| ==> r[n + k] == IndexHit(hits[k]))
  {
  }

  /** `search`, with its local result list, parsed range and scale updated in place. */
  method Search<H>(input: Option<JsString>, viewportScale: DisplayScale,
                   parseDateRange: JsString -> Option<DateRangePart>,
                   chronoParse: JsString -> seq<ParsedMoment>,
                   floor: (Instant, DisplayScale) -> Instant,
                   ceil: (Instant, DisplayScale) -> Instant,
                   searchIndex: JsString -> seq<H>)
    returns (r: Option<seq<JumpResult<H>>>)
    ensures r == SearchResults(input, viewportScale, parseDateRange, chronoParse, floor, ceil, searchIndex)
  {
    if IsBlank(input) {
      return None;
    }
    var text := input.value;
    var result: seq<JumpResult<H>> := [];
    var markwhenParsed := parseDateRange(text + [Colon]);
    if markwhenParsed.Some? {
      var range := markwhenParsed.value;
      var scale := viewportScale;
      if range.toDateTime - range.fromDateTime < DayMillis {
        range := range.(fromDateTime := floor(range.fromDateTime, DayScale));
        range := range.(toDateTime := ceil(range.fromDateTime, DayScale));
        scale := DayScale;
      }
      assert DateJump(range, scale) == StructuredJump(markwhenParsed.value, viewportScale, floor, ceil);
      result := result + [DateResult(DateJump(range, scale))];
    } else {
      var mentions := chronoParse(text);
      if |mentions| > 0 {
        var chronoParsed := mentions[0];
        var from := chronoParsed.start;
        var to := if chronoParsed.end.Some? then chronoParsed.end.value else from;
        result := result + [DateResult(DateJump(
          DateRangePart(floor(from, DayScale), ceil(to, DayScale)), DayScale))];
        assert result == [DateResult(FuzzyJump(mentions[0], floor, ceil))];
      }
    }
    var searchTerm := QuerySanitizer.Sanitize(text);
    r := Some(result + AsHits(searchIndex(searchTerm)));
    ghost var date := ResolveDateRange(text, viewportScale, parseDateRange, chronoParse, floor, ceil);
    assert result == if date.Some? then [DateResult(date.value)] else [];
    assert r.value == Merge(date, searchIndex(searchTerm));
  }

  /**
   * An absent or empty input yields no result at all, whatever the parsers,
   * the date utilities and the index would have answered; any other input
   * yields a list.
   */
  lemma BlankInputIsNoOp<H>(input: Option<JsString>, viewportScale: DisplayScale,
                            parseDateRange: JsString -> Option<DateRangePart>,
                            chronoParse: JsString -> seq<ParsedMoment>,
                            floor: (Instant, DisplayScale) -> Instant,
                            ceil: (Instant, DisplayScale) -> Instant,
                            searchIndex: JsString -> seq<H>)
    ensures SearchResults(input, viewportScale, parseDateRange, chronoParse, floor, ceil, searchIndex).None?
      <==> IsBlank(input)
  {
  }

  /**
   * The merged list holds at most one date-range entry, in front; after it
   * come exactly the index's hits for the sanitised query, in the index's order.
   */
  lemma ResultShape<H>(text: JsString, viewportScale: DisplayScale,
                       parseDateRange: JsString -> Option<DateRangePart>,
                       chronoParse: JsString -> seq<ParsedMoment>,
                       floor: (Instant, DisplayScale) -> Instant,
                       ceil: (Instant, DisplayScale) -> Instant,
                       searchIndex: JsString -> seq<H>)
    requires text != []
    ensures var date := ResolveDateRange(text, viewportScale, parseDateRange, chronoParse, floor, ceil);
      var hits := searchIndex(QuerySanitizer.Sanitize(text));
      var r := SearchResults(Some(text), viewportScale, parseDateRange, chronoParse, floor, ceil, searchIndex);
      && r == Some(Merge(date, hits))
      && |hits| <= |r.value| <= |hits| + 1
      && (|r.value| == |hits| + 1 <==> date.Some?)
  {
  }

  /** Nothing parses as a date and the index finds nothing: an empty list, not no result. */
  lemma NothingFound<H>(text: JsString, viewportScale: DisplayScale,
                        parseDateRange: JsString -> Option<DateRangePart>,
                        chronoParse: JsString -> seq<ParsedMoment>,
                        floor: (Instant, DisplayScale) -> Instant,
                        ceil: (Instant, DisplayScale) -> Instant,
                        searchIndex: JsString -> seq<H>)
    requires text != []
    requires parseDateRange(text + [Colon]).None? && chronoParse(text) == []
    requires searchIndex(QuerySanitizer.Sanitize(text)) == []
    ensures var r := SearchResults(Some(text), viewportScale, parseDateRange, chronoParse, floor, ceil, searchIndex);
      r.Some? && r.value == []
  {
  }
}

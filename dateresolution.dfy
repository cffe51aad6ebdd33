/**
 * Date-range resolution (src/Jump/search.ts, lines 76-114): the structured
 * date-range grammar is tried on the input with ":" appended; only when it
 * yields nothing is the fuzzy natural-language parser consulted, and only
 * its first mention is used.
 */
module DateResolution {
  import opened Wrappers
  import opened JsText
  import opened Time

  /** A display granularity of the timeline: "day", "month", and so on. */
  type DisplayScale = string

  const DayScale: DisplayScale := "day"

  const Colon: CodeUnit := 0x3A  // ':'

  /** A range as the structured grammar parser returns it. */
  datatype DateRangePart = DateRangePart(fromDateTime: Instant, toDateTime: Instant)

  /** One mention found by the fuzzy parser: a start and an optional end. */
  datatype ParsedMoment = ParsedMoment(start: Instant, end: Option<Instant>)

  /** A date-range entry of the result: the range and the scale to show it at. */
  datatype DateJump = DateJump(dateRange: DateRangePart, scale: DisplayScale)

  /** The parsed range is shorter than one day (the source compares its length in days with 1). */
  predicate SpansLessThanADay(r: DateRangePart)
  {
    r.toDateTime - r.fromDateTime < DayMillis
  }

  /** The entry for a successful structured parse (lines 78-96). */
  function StructuredJump(parsed: DateRangePart, viewportScale: DisplayScale,
                          floor: (Instant, DisplayScale) -> Instant,
                          ceil: (Instant, DisplayScale) -> Instant): DateJump
  {
    if SpansLessThanADay(parsed) then
      var from := floor(parsed.fromDateTime, DayScale);
      DateJump(DateRangePart(from, ceil(from, DayScale)), DayScale)
    else
      DateJump(parsed, viewportScale)
  }

  /** The entry for the first mention of the fuzzy parser (lines 100-112). */
  function FuzzyJump(m: ParsedMoment, floor: (Instant, DisplayScale) -> Instant,
                     ceil: (Instant, DisplayScale) -> Instant): DateJump
  {
    DateJump(
      DateRangePart(floor(m.start, DayScale), ceil(m.end.GetOr(m.start), DayScale)),
      DayScale)
  }

  /** The zero or one date-range entries for a non-empty input. */
  function ResolveDateRange(input: JsString, viewportScale: DisplayScale,
                            parseDateRange: JsString -> Option<DateRangePart>,
                            chronoParse: JsString -> seq<ParsedMoment>,
                            floor: (Instant, DisplayScale) -> Instant,
                            ceil: (Instant, DisplayScale) -> Instant): Option<DateJump>
  {
    match parseDateRange(input + [Colon])
    case Some(parsed) => Some(StructuredJump(parsed, viewportScale, floor, ceil))
    case None =>
      var mentions := chronoParse(input);
      if |mentions| == 0 then None else Some(FuzzyJump(mentions[0], floor, ceil))
  }

  /**
   * A structured range shorter than a day is widened to day granularity: it
   * starts at the floored start, ends at the ceiling of that floored start
   * (so the parsed end plays no part), and forces the "day" scale. A longer
   * range is kept as parsed, with the viewport's scale.
   */
  lemma StructuredWidening(parsed: DateRangePart, viewportScale: DisplayScale,
                           floor: (Instant, DisplayScale) -> Instant,
                           ceil: (Instant, DisplayScale) -> Instant)
    ensures var j := StructuredJump(parsed, viewportScale, floor, ceil);
      SpansLessThanADay(parsed) ==>
        && j.scale == DayScale
        && j.dateRange.fromDateTime == floor(parsed.fromDateTime, DayScale)
        && j.dateRange.toDateTime == ceil(floor(parsed.fromDateTime, DayScale), DayScale)
    ensures var j := StructuredJump(parsed, viewportScale, floor, ceil);
      !SpansLessThanADay(parsed) ==> j.dateRange == parsed && j.scale == viewportScale
  {
  }

  /** Two sub-day ranges with the same start resolve to the same entry, whatever their ends. */
  lemma WideningIgnoresParsedEnd(p: DateRangePart, q: DateRangePart, viewportScale: DisplayScale,
                                 floor: (Instant, DisplayScale) -> Instant,
                                 ceil: (Instant, DisplayScale) -> Instant)
    requires SpansLessThanADay(p) && SpansLessThanADay(q)
    requires p.fromDateTime == q.fromDateTime
    ensures StructuredJump(p, viewportScale, floor, ceil) == StructuredJump(q, viewportScale, floor, ceil)
  {
  }

  /**
   * How long the widened range is depends on the ceiling of a day-aligned
   * instant: one whole day when that ceiling is the next day's start, and
   * nothing at all when the ceiling of an aligned instant is itself.
   */
  lemma WidenedLength(parsed: DateRangePart, viewportScale: DisplayScale,
                      floor: (Instant, DisplayScale) -> Instant,
                      ceil: (Instant, DisplayScale) -> Instant)
    requires SpansLessThanADay(parsed)
    ensures var d := floor(parsed.fromDateTime, DayScale);
      var r := StructuredJump(parsed, viewportScale, floor, ceil).dateRange;
      (ceil(d, DayScale) == d + DayMillis ==> r.toDateTime - r.fromDateTime == DayMillis)
      && (ceil(d, DayScale) == d ==> r.toDateTime == r.fromDateTime)
  {
  }

  /** A fuzzy mention always gives a day-scaled, day-floored and day-ceiled range. */
  lemma FuzzyNormalisation(m: ParsedMoment, floor: (Instant, DisplayScale) -> Instant,
                           ceil: (Instant, DisplayScale) -> Instant)
    ensures var j := FuzzyJump(m, floor, ceil);
      && j.scale == DayScale
      && j.dateRange.fromDateTime == floor(m.start, DayScale)
      && (m.end.Some? ==> j.dateRange.toDateTime == ceil(m.end.value, DayScale))
      && (m.end.None? ==> j.dateRange.toDateTime == ceil(m.start, DayScale))
  {
  }

  /** Once the structured parse succeeds, the fuzzy parser cannot change the outcome. */
  lemma StructuredShortCircuits(input: JsString, viewportScale: DisplayScale,
                                parseDateRange: JsString -> Option<DateRangePart>,
                                chronoA: JsString -> seq<ParsedMoment>,
                                chronoB: JsString -> seq<ParsedMoment>,
                                floor: (Instant, DisplayScale) -> Instant,
                                ceil: (Instant, DisplayScale) -> Instant)
    requires parseDateRange(input + [Colon]).Some?
    ensures ResolveDateRange(input, viewportScale, parseDateRange, chronoA, floor, ceil)
         == ResolveDateRange(input, viewportScale, parseDateRange, chronoB, floor, ceil)
         == Some(StructuredJump(parseDateRange(input + [Colon]).value, viewportScale, floor, ceil))
  {
  }

  /**
   * When the structured parse fails, the entry comes from the fuzzy parser's
   * first mention alone, and there is none exactly when it found nothing.
   */
  lemma FuzzyFallback(input: JsString, viewportScale: DisplayScale,
                      parseDateRange: JsString -> Option<DateRangePart>,
                      chronoParse: JsString -> seq<ParsedMoment>,
                      floor: (Instant, DisplayScale) -> Instant,
                      ceil: (Instant, DisplayScale) -> Instant)
    requires parseDateRange(input + [Colon]).None?
    ensures var r := ResolveDateRange(input, viewportScale, parseDateRange, chronoParse, floor, ceil);
      && (r.None? <==> |chronoParse(input)| == 0)
      && (r.Some? ==> r.value == FuzzyJump(chronoParse(input)[0], floor, ceil))
  {
  }
}

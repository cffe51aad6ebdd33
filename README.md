# Jump search of markwhen, modelled in Dafny

This project models the jump/search resolver of markwhen's timeline view
(`src/Jump/search.ts`). Given the text typed into the jump box, the resolver
does four things:

- It decides whether the text names a date range.
- It rewrites the text into a full-text query.
- It asks the search index for hits.
- It merges both into one ordered result list.

It also flattens the page timeline into the documents that the index is
built from.

The modules follow the parts of the file:

- `Wrappers` (`wrappers.dfy`): `Option`, standing for JavaScript's `undefined`.
- `JsText` (`jstext.dfy`): JavaScript strings as sequences of UTF-16 code
  units, and `join(" ")`.
- `Time` (`time.dfy`): instants in milliseconds, and the length of a day.
- `Sequences` (`sequences.dfy`): `flatMap`, and the elements of a sequence that satisfy a predicate (used to state step 1 of the sanitiser), with their concatenation laws.
- `QuerySanitizer` (`sanitizer.dfy`): the two single-match `replace` calls.
  Step 1 deletes the first character outside `[a-zA-Z0-9\s]`. Step 2
  rewrites the leftmost run of two or more ASCII letters `r` as `+r~1`.
- `DocumentProjection` (`projection.dfy`): `eventToDocument` and `mappedEvents`.
- `DateResolution` (`dateresolution.dfy`): the structured parse of `input + ":"`,
  the fuzzy fallback, and the widening of sub-day ranges.
- `JumpSearch` (`search.dfy`): the `search` function. It is written as a
  method that updates its local result list, parsed range and scale the way
  the source does. It is proved equal to the function `SearchResults`, and
  the lemmas are stated about that function.

The collaborators are passed in as functions:

- the structured date-range parser, `JsString -> Option<DateRangePart>`;
- the fuzzy parser, `JsString -> seq<ParsedMoment>`;
- `floorDateTime` and `ceilDateTime`, `(Instant, DisplayScale) -> Instant`;
- the date formatter, `Instant -> JsString`;
- the path resolver, `TimelineNode -> P`;
- the index query, `JsString -> seq<H>`.

The viewport scale is passed in as a value. Each collaborator is a total
function of the arguments shown: it always answers, never throws, and
answers the same for the same arguments. Nothing else is assumed about how
these functions behave.

Strings typed by the user are sequences of UTF-16 code units, not Dafny
`char`s. The source's regular expressions have no `u` flag, so they work on
code units. An astral character is two code units, and step 1 deletes only
its first one. Dafny's `char` cannot hold a lone surrogate. `\s` is the
ECMAScript set: WhiteSpace plus LineTerminator.

Some of the code's behaviour is easy to misread, and the model keeps it as written:

- Group members are projected one level deep. Each member of a group goes
  through `eventToDocument`; nothing recurses further.
- A sub-day structured range ends at `ceilDateTime(floorDateTime(from, "day"), "day")`.
  This is not necessarily the start of the next day. `WidenedLength`
  shows that the range is one day long if that ceiling moves an aligned
  instant on by a day, and empty if it leaves an aligned instant where it is.
- Group paths and event paths come from one total resolver. The code
  neither checks for a missing path nor skips one.
- A range whose end is before its start is kept. The code does not enforce
  `from <= to`; such a range counts as sub-day and is widened.

## Model

| member | source | states |
|---|---|---|
| `JsText.JoinWithSpace` | src/Jump/search.ts:34-36 | `join(" ")` of no parts is empty. Otherwise the result is as long as the parts plus one space between each pair, and it starts with the first part. |
| `JsText.JoinAppend` | src/Jump/search.ts:34-36 | Joining `a + b` gives the join of `a`, one space, then the join of `b`. |
| `QuerySanitizer.StripFirstSymbol` | src/Jump/search.ts:116 | Step 1, `replace(/[^a-zA-Z0-9\s]/, "")`. Its meaning is stated by `StripFirstSymbolSpec` and `StripFirstSymbolParts`. |
| `QuerySanitizer.FindSymbol` | src/Jump/search.ts:116 | The scan finds the first position at or after `from` holding a character outside `[a-zA-Z0-9\s]`. It finds nothing exactly when there is no such character. |
| `QuerySanitizer.StripFirstSymbolSpec` | src/Jump/search.ts:116 | Step 1 leaves a string with no symbol unchanged. Otherwise it deletes exactly the first symbol: the result is the prefix before it plus the suffix after it, one shorter. |
| `QuerySanitizer.StripFirstSymbolParts` | src/Jump/search.ts:116 | Step 1 keeps every letter, digit and space in order. Of the symbols, it removes only the first one. |
| `QuerySanitizer.MarkFirstWord` | src/Jump/search.ts:117 | Step 2, the replacement of the first match of `/[a-zA-Z]{2,}/` by `+`, the match, then `~1`. Its meaning is stated by `MarkFirstWordSpec`, with `LeftmostRunExists` and `LeftmostRunUnique`. |
| `QuerySanitizer.FindLetterPair` | src/Jump/search.ts:117 | The scan finds the leftmost position holding two adjacent ASCII letters, or reports that there is none. |
| `QuerySanitizer.LetterRunEnd` | src/Jump/search.ts:117 | The greedy `{2,}` extension stops at the first non-letter or at the end of the string. |
| `QuerySanitizer.LeftmostRunUnique` | src/Jump/search.ts:117 | At most one run fits "starts at the leftmost letter pair and extends over every letter after it". |
| `QuerySanitizer.LeftmostRunExists` | src/Jump/search.ts:117 | If a string has two adjacent letters, it has a leftmost run. The run is maximal on both sides: no letter comes just before it. |
| `QuerySanitizer.MarkFirstWordSpec` | src/Jump/search.ts:117 | With no two adjacent letters, step 2 changes nothing. Otherwise only the leftmost maximal run `r` becomes `+r~1`. Prefix and suffix are untouched and the length grows by 3. |
| `QuerySanitizer.SymbolsOnlyQuery` | src/Jump/search.ts:115-117 | A non-empty query made only of symbols loses its first character and is otherwise passed to the index unchanged. |
| `QuerySanitizer.Sanitize` | src/Jump/search.ts:115-117 | The query handed to the index: step 2 applied to the result of step 1. Stated by the two steps' lemmas, `SymbolsOnlyQuery` and `OperatorsReachTheIndex`. |
| `QuerySanitizer.OperatorsReachTheIndex` | src/Jump/search.ts:115-118 | The sanitiser keeps all symbols but the first, so query operators reach the index: `--foo` becomes `-+foo~1` and `+-` becomes `-`. |
| `DocumentProjection.EventToDocument` | src/Jump/search.ts:31-37 | `eventToDocument`: the event's own path, its formatted date, its supplemental texts and its tags each joined with one space, and its description. Its place in the projection is stated by `NodeDocumentsContents` and `DocumentPosition`. |
| `DocumentProjection.GroupDocument` | src/Jump/search.ts:44-51 | The document of a group itself. Its date text is absent when the group has no range, and its title and tags default to empty. It comes first among its group's documents, by `NodeDocumentsContents`. |
| `DocumentProjection.Raws` | src/Jump/search.ts:34 | `supplemental.map((s) => s.raw)` keeps the number and the order of the blocks. |
| `DocumentProjection.EventDocuments` | src/Jump/search.ts:52 | The members of a group give one `eventToDocument` each, in order. Each uses that member's own path. |
| `DocumentProjection.NodeDocuments` | src/Jump/search.ts:40-54 | A leaf event yields one document and a group yields one more than it has events. |
| `DocumentProjection.NodeDocumentsContents` | src/Jump/search.ts:40-54 | A leaf event gives its own `eventToDocument`. A group gives its own document first, then one per member in the group's order, each with the member's own path. |
| `DocumentProjection.MappedEvents` | src/Jump/search.ts:39-56 | `mappedEvents`, the flat-map of the timeline through `NodeDocuments`. Its length, its concatenation law and each document's position are stated by `MappedEventsCount`, `MappedEventsAppend`, `NodeDocumentsAt` and `DocumentPosition`. |
| `DocumentProjection.MappedEventsCount` | src/Jump/search.ts:39-56 | The projection holds as many documents as the sum of the per-node counts. |
| `DocumentProjection.MappedEventsAppend` | src/Jump/search.ts:40 | The flat-map of a concatenated timeline is the concatenation of the flat-maps. |
| `DocumentProjection.NodeDocumentsAt` | src/Jump/search.ts:39-56 | The documents of node `i` form one block. It comes after the documents of the earlier nodes and before those of the later ones. |
| `DocumentProjection.DocumentPosition` | src/Jump/search.ts:39-56 | Document `k` of node `i` is at offset `k` plus the document count of the nodes before `i`. |
| `DateResolution.StructuredJump` | src/Jump/search.ts:78-96 | The entry for a successful structured parse, with sub-day widening. Stated by `StructuredWidening`, `WideningIgnoresParsedEnd` and `WidenedLength`. |
| `DateResolution.FuzzyJump` | src/Jump/search.ts:98-112 | The entry for the fuzzy parser's first mention. Stated by `FuzzyNormalisation`. |
| `DateResolution.ResolveDateRange` | src/Jump/search.ts:76-114 | The zero or one date entries: the structured parse of `input + ":"` first, the fuzzy parser only when that fails. Stated by `StructuredShortCircuits` and `FuzzyFallback`. |
| `DateResolution.StructuredWidening` | src/Jump/search.ts:78-96 | A sub-day range: from becomes `floor(from, day)`, to becomes `ceil(floor(from, day), day)`, scale becomes "day". Any other range keeps its parsed values and the viewport's scale. |
| `DateResolution.WideningIgnoresParsedEnd` | src/Jump/search.ts:83-91 | Two sub-day ranges with the same start give the same entry, whatever their parsed ends. |
| `DateResolution.WidenedLength` | src/Jump/search.ts:83-91 | The widened range is one day long if `ceil` moves a day-aligned instant to the next day. It is empty if `ceil` leaves an aligned instant in place. |
| `DateResolution.FuzzyNormalisation` | src/Jump/search.ts:100-112 | A fuzzy entry always has scale "day". It runs from `floor(start, day)` to `ceil(end, day)` when an end is present, and to `ceil(start, day)` otherwise. |
| `DateResolution.StructuredShortCircuits` | src/Jump/search.ts:76-99 | When the structured parse of `input + ":"` succeeds, the entry is the structured one, whatever the fuzzy parser would return. |
| `DateResolution.FuzzyFallback` | src/Jump/search.ts:97-113 | When the structured parse fails, there is an entry exactly when the fuzzy parser found a mention, and the entry is made from its first mention. |
| `JumpSearch.Merge` | src/Jump/search.ts:118 | `[...result, ...hits]`. Its shape is stated by `MergeShape`. |
| `JumpSearch.SearchResults` | src/Jump/search.ts:71-119 | What `search` returns. The method `Search` is proved equal to it; `BlankInputIsNoOp`, `ResultShape` and `NothingFound` state its behaviour. |
| `JumpSearch.AsHits` | src/Jump/search.ts:118 | The index hits are spread into the result one for one, in the index's order. |
| `JumpSearch.Search` | src/Jump/search.ts:71-119 | The method, with its in-place updates of the result list, the parsed range and the scale, computes exactly `SearchResults`. |
| `JumpSearch.BlankInputIsNoOp` | src/Jump/search.ts:72-74 | The result is absent exactly when the input is absent or empty. This holds for any parsers, date utilities and index. |
| `JumpSearch.MergeShape` | src/Jump/search.ts:118 | `[...result, ...hits]` has at most one date entry, present exactly when there is a date, and in front. After it come exactly the hits, in the index's order. |
| `JumpSearch.ResultShape` | src/Jump/search.ts:75-118 | For non-empty input, the result is the merge of the resolved date entry with the index's hits for the sanitised query. Its length is the hit count, plus one exactly when a date was resolved. |
| `JumpSearch.NothingFound` | src/Jump/search.ts:75-118 | Input that is not a date and that the index does not match gives an empty list, not an absent result. |

## Left out

- Building the lunr index (lines 58-69) and its ranking are left out. Index queries are a function parameter returning hits in the index's order. The duplicate-ref policy and scoring are not visible here.
- `parseDateRange` and `chrono.parse` are foreign parsers; they are function parameters. Of a fuzzy result only its start and optional end instants are kept.
- The clock is left out. `chrono.parse(input)` (line 98) gets no reference date, so it reads relative phrases such as "tomorrow" against the current time, and the same input can give different ranges on different calls. The model's `chronoParse` is a fixed function of the input.
- Time zones are left out. `floorDateTime` and `ceilDateTime` work on a Luxon `DateTime` in its own zone, and `fromJSDate` (line 100) gives the local zone. Instants here are zone-free integers, and one `floor`/`ceil` pair serves both the structured and the fuzzy branch.
- A query that throws is left out. The index query (line 118) goes through lunr's query parser, which is not part of this model and can reject a query. `OperatorsReachTheIndex` shows that sanitised queries can still hold operators, such as `-+foo~1` for `--foo`. The model's `searchIndex` always answers, so `SearchResults` returns a list for every non-empty input, including those on which the source's `search` would throw.
- The structured parser's range object carries more fields than the two instants. The source pushes that object, mutated in place, into the result. The model keeps only `fromDateTime` and `toDateTime`, and updates a local copy, so any aliasing with the parser's object is not captured.
- Luxon is left out: `DateTime`, `fromJSDate` and `toLocaleString(DATETIME_HUGE)`. Instants are integers in milliseconds, and formatting is a function parameter.
- `diff(...).as("days") < 1` is a floating-point comparison; it is modelled as `to - from < 86 400 000` on integer milliseconds.
- `floorDateTime` and `ceilDateTime` are in a file that is not part of this model; they are function parameters with no assumed behaviour.
- `JSON.stringify` of paths and `mapStore.getAllPaths` are collapsed into one total function `TimelineNode -> P`. Nodes are values here, not objects, so two identical events at different places get the same path. The `undefined` path of an unmapped node, event or group, is not modelled: the non-null assertions at lines 42 and 52 are erased at run time, so such a node would get the path `JSON.stringify(undefined)`, which is `undefined`.
- Vue `computed` memoisation and the Pinia stores (page, event map, markers) are left out; their values arrive as parameters.
- Result entries carry a tag (`DateResult` or `IndexHit`). The source tells them apart by object shape.

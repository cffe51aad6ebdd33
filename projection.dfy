/**
 * The document projector (src/Jump/search.ts, lines 31-56): the top-level
 * timeline is flat-mapped into search documents, one per event and, for a
 * group, one for the group itself followed by one per event it holds.
 */
module DocumentProjection {
  import opened Wrappers
  import opened JsText
  import opened Time
  import opened Sequences

  /** One supplemental text block of an event; only its raw text is indexed. */
  datatype Supplemental = Supplemental(raw: JsString)

  /** A leaf event of the timeline. */
  datatype Event = Event(
    eventDescription: JsString,
    tags: seq<JsString>,
    supplemental: seq<Supplemental>,
    fromDateTime: Instant)

  /** A group: optional title and tags, an optional range, and its events in order. */
  datatype EventGroup = EventGroup(
    title: Option<JsString>,
    tags: Option<seq<JsString>>,
    rangeMin: Option<Instant>,
    events: seq<Event>)

  /** A top-level entry of the page timeline. */
  datatype TimelineNode = Single(event: Event) | Group(group: EventGroup)

  /**
   * A search document. `P` is the serialised path into the event tree; the
   * date-time text is absent for a group without a range.
   */
  datatype SearchDocument<P> = SearchDocument(
    path: P,
    dateTime: Option<JsString>,
    supplemental: JsString,
    description: JsString,
    tags: JsString)

  function Raws(blocks: seq<Supplemental>): (r: seq<JsString>)
    ensures |r| == |blocks|
    ensures forall k :: 0 <= k < |blocks| ==> r[k] == blocks[k].raw
  {
    if |blocks| == 0 then [] else [blocks[0].raw] + Raws(blocks[1..])
  }

  /** `eventToDocument` */
  function EventToDocument<P>(e: Event, path: P, format: Instant -> JsString): SearchDocument<P>
  {
    SearchDocument(
      path,
      Some(format(e.fromDateTime)),
      JoinWithSpace(Raws(e.supplemental)),
      e.eventDescription,
      JoinWithSpace(e.tags))
  }

  /** The document that stands for a group itself. */
  function GroupDocument<P>(g: EventGroup, path: P, format: Instant -> JsString): SearchDocument<P>
  {
    SearchDocument(
      path,
      if g.rangeMin.Some? then Some(format(g.rangeMin.value)) else None,
      [],
      g.title.GetOr([]),
      JoinWithSpace(g.tags.GetOr([])))
  }

  /** How many documents a node yields: one, plus one per event of a group. */
  function DocumentCount(n: TimelineNode): nat
  {
    match n
    case Single(_) => 1
    case Group(g) => 1 + |g.events|
  }

  function TotalDocumentCount(timeline: seq<TimelineNode>): nat
  {
    if |timeline| == 0 then 0
    else DocumentCount(timeline[0]) + TotalDocumentCount(timeline[1..])
  }

  function EventDocuments<P>(events: seq<Event>, pathOf: TimelineNode -> P,
                             format: Instant -> JsString): (r: seq<SearchDocument<P>>)
    ensures |r| == |events|
    ensures forall k :: 0 <= k < |events| ==>
      r[k] == EventToDocument(events[k], pathOf(Single(events[k])), format)
  {
    if |events| == 0 then []
    else
      [EventToDocument(events[0], pathOf(Single(events[0])), format)]
      + EventDocuments(events[1..], pathOf, format)
  }

  /** The documents of one top-level node (the body of the `flatMap`). */
  function NodeDocuments<P>(n: TimelineNode, pathOf: TimelineNode -> P,
                            format: Instant -> JsString): (r: seq<SearchDocument<P>>)
    ensures |r| == DocumentCount(n)
  {
    match n
    case Single(e) => [EventToDocument(e, pathOf(n), format)]
    case Group(g) => [GroupDocument(g, pathOf(n), format)] + EventDocuments(g.events, pathOf, format)
  }

  /**
   * A leaf event yields its own document; a group yields its own document
   * first and then one document per member event, in the group's order.
   */
  lemma NodeDocumentsContents<P>(n: TimelineNode, pathOf: TimelineNode -> P, format: Instant -> JsString)
    ensures var r := NodeDocuments(n, pathOf, format);
      && (n.Single? ==> r == [EventToDocument(n.event, pathOf(n), format)])
      && (n.Group? ==> r[0] == GroupDocument(n.group, pathOf(n), format))
      && (n.Group? ==> forall k :: 0 <= k < |n.group.events| ==>
            r[k + 1] == EventToDocument(n.group.events[k], pathOf(Single(n.group.events[k])), format))
  {
  }

  /** `mappedEvents`: the flat-map of the timeline. */
  function MappedEvents<P>(timeline: seq<TimelineNode>, pathOf: TimelineNode -> P,
                           format: Instant -> JsString): seq<SearchDocument<P>>
  {
    FlatMap(timeline, n => NodeDocuments(n, pathOf, format))
  }

  /** The projection holds as many documents as the nodes yield between them. */
  lemma {:induction false} MappedEventsCount<P>(timeline: seq<TimelineNode>,
                                                pathOf: TimelineNode -> P, format: Instant -> JsString)
    ensures |MappedEvents(timeline, pathOf, format)| == TotalDocumentCount(timeline)
  {
    if |timeline| > 0 {
      MappedEventsCount(timeline[1..], pathOf, format);
    }
  }

  /** Projection commutes with concatenation of timelines. */
  lemma MappedEventsAppend<P>(a: seq<TimelineNode>, b: seq<TimelineNode>,
                              pathOf: TimelineNode -> P, format: Instant -> JsString)
    ensures MappedEvents(a + b, pathOf, format)
      == MappedEvents(a, pathOf, format) + MappedEvents(b, pathOf, format)
  {
    FlatMapAppend(a, b, n => NodeDocuments(n, pathOf, format));
  }

  /**
   * Timeline order is kept: the documents of node `i` are a contiguous block
   * that starts after the documents of every earlier node.
   */
  lemma NodeDocumentsAt<P>(timeline: seq<TimelineNode>, i: nat,
                           pathOf: TimelineNode -> P, format: Instant -> JsString)
    requires i < |timeline|
    ensures MappedEvents(timeline, pathOf, format)
      == MappedEvents(timeline[..i], pathOf, format)
       + NodeDocuments(timeline[i], pathOf, format)
       + MappedEvents(timeline[i + 1..], pathOf, format)
  {
    FlatMapAt(timeline, i, n => NodeDocuments(n, pathOf, format));
  }

  /**
   * Document `k` of node `i` sits at the offset given by the documents of the
   * nodes before it.
   */
  lemma DocumentPosition<P>(timeline: seq<TimelineNode>, i: nat, k: nat,
                            pathOf: TimelineNode -> P, format: Instant -> JsString)
    requires i < |timeline| && k < DocumentCount(timeline[i])
    ensures |MappedEvents(timeline, pathOf, format)| == TotalDocumentCount(timeline)
    ensures TotalDocumentCount(timeline[..i]) + k < TotalDocumentCount(timeline)
    ensures MappedEvents(timeline, pathOf, format)[TotalDocumentCount(timeline[..i]) + k]
      == NodeDocuments(timeline[i], pathOf, format)[k]
  {
    FlatMapIndex(timeline, i, k, n => NodeDocuments(n, pathOf, format));
    MappedEventsCount(timeline, pathOf, format);
    MappedEventsCount(timeline[..i], pathOf, format);
  }
}

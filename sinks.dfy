/** The sinks an event is fanned out to, in the order lambda_handler calls them:
    the search index, the S3 micro-batch file, Kinesis, MSK and SNS. */
module Sinks {
  import opened Wrappers
  import opened Bson
  import opened Settings
  import opened ChangeEvents
  import opened StateStore

  /** What the search index receives: index(id=doc_id, body=doc_body) or delete(doc_id). */
  datatype EsCommand = Index(id: string, body: Doc) | Delete(id: string)

  /** A keyed record (Kinesis partition key, MSK message key) and its payload. */
  datatype Keyed = Keyed(key: string, value: Doc)

  /** Everything one invocation can change: the state collection, each sink's
      trace, this invocation's batch file and the batch files uploaded to S3. */
  datatype World = World(
    table: Table,
    es: seq<EsCommand>,
    batch: seq<Doc>,
    bucket: seq<seq<Doc>>,
    kinesis: seq<Keyed>,
    msk: seq<Keyed>,
    sns: seq<Doc>)

  function EsEntry(n: Normalized): EsCommand
    requires !n.Ignored?
  {
    if n.Upsert? then Index(n.id, n.body) else Delete(n.id)
  }

  /** One successful delivery of an event to one sink. */
  function Deliver(w: World, s: Sink, n: Normalized): World
    requires !n.Ignored?
  {
    match s
    case Es => w.(es := w.es + [EsEntry(n)])
    case Batch => w.(batch := w.batch + [n.payload])
    case Kinesis => w.(kinesis := w.kinesis + [Keyed(n.id, n.payload)])
    case Msk => w.(msk := w.msk + [Keyed(n.id, n.payload)])
    case Sns => w.(sns := w.sns + [n.payload])
  }

  /** Delivers to the enabled sinks of `order` in turn; the first delivery that
      raises ends the fan-out, with the earlier deliveries already made. */
  function FanOut(enabled: set<Sink>, w: World, n: Normalized, failing: set<Sink>, order: seq<Sink>)
    : (r: (Option<Error>, World))
    requires !n.Ignored?
    ensures r.1.table == w.table && r.1.bucket == w.bucket
    ensures r.0.Some? ==> r.0.value.SinkFailure? && r.0.value.sink in enabled * failing
    decreases |order|
  {
    if order == [] then (None, w)
    else if order[0] !in enabled then FanOut(enabled, w, n, failing, order[1..])
    else if order[0] in failing then (Some(SinkFailure(order[0])), w)
    else FanOut(enabled, Deliver(w, order[0], n), n, failing, order[1..])
  }

  /** The index in `order` of the first enabled sink whose delivery fails, or
      |order| when none fails. */
  function FailurePoint(enabled: set<Sink>, failing: set<Sink>, order: seq<Sink>): (k: nat)
    ensures k <= |order|
    ensures k < |order| ==> order[k] in enabled * failing
    ensures forall j :: 0 <= j < k ==> order[j] !in enabled * failing
  {
    if order == [] then 0
    else if order[0] in enabled * failing then 0
    else 1 + FailurePoint(enabled, failing, order[1..])
  }

  /** A sink's place in SINK_ORDER. */
  function Position(s: Sink): (p: nat)
    ensures p < |SINK_ORDER| && SINK_ORDER[p] == s
  {
    match s
    case Es => 0
    case Batch => 1
    case Kinesis => 2
    case Msk => 3
    case Sns => 4
  }

  /** [x] when sink s is enabled and comes before position k, else []. */
  function Got<T>(enabled: set<Sink>, s: Sink, k: nat, x: T): seq<T>
  {
    if s in enabled && Position(s) < k then [x] else []
  }

  /** Reference definition: the world after the enabled sinks among the first k
      of SINK_ORDER have each received the event once. */
  function Delivered(enabled: set<Sink>, w: World, n: Normalized, k: nat): World
    requires !n.Ignored?
  {
    w.(es := w.es + Got(enabled, Es, k, EsEntry(n)),
       batch := w.batch + Got(enabled, Batch, k, n.payload),
       kinesis := w.kinesis + Got(enabled, Kinesis, k, Keyed(n.id, n.payload)),
       msk := w.msk + Got(enabled, Msk, k, Keyed(n.id, n.payload)),
       sns := w.sns + Got(enabled, Sns, k, n.payload))
  }

  /** Getting past one more sink adds that sink's delivery when it is enabled. */
  lemma DeliveredStep(enabled: set<Sink>, w: World, n: Normalized, j: nat)
    requires !n.Ignored? && j < |SINK_ORDER|
    ensures Delivered(enabled, w, n, j + 1)
      == if SINK_ORDER[j] in enabled then Deliver(Delivered(enabled, w, n, j), SINK_ORDER[j], n)
         else Delivered(enabled, w, n, j)
  {
    var s := SINK_ORDER[j];
    assert Position(s) == j;
    forall t: Sink | t != s ensures Position(t) != j {}
  }

  lemma {:induction false} FanOutFrom(enabled: set<Sink>, w: World, n: Normalized, failing: set<Sink>, j: nat)
    requires !n.Ignored?
    requires j <= FailurePoint(enabled, failing, SINK_ORDER)
    ensures var k := FailurePoint(enabled, failing, SINK_ORDER);
      FanOut(enabled, Delivered(enabled, w, n, j), n, failing, SINK_ORDER[j..])
        == (if k < |SINK_ORDER| then Some(SinkFailure(SINK_ORDER[k])) else None, Delivered(enabled, w, n, k))
    decreases |SINK_ORDER| - j
  {
    var k := FailurePoint(enabled, failing, SINK_ORDER);
    if j < |SINK_ORDER| {
      var s := SINK_ORDER[j];
      assert SINK_ORDER[j..][0] == s && SINK_ORDER[j..][1..] == SINK_ORDER[j + 1..];
      DeliveredStep(enabled, w, n, j);
      if s !in enabled || s !in failing {
        FanOutFrom(enabled, w, n, failing, j + 1);
      }
    }
  }

  /** Fan-out order and abort: the enabled sinks receive the event in the order
      ES, batch, Kinesis, MSK, SNS (ES an index or delete command, the others the
      payload, keyed by the id for Kinesis and MSK) until the first enabled sink
      whose delivery fails; that failure is raised and no later sink is reached. */
  lemma FanOutInOrder(enabled: set<Sink>, w: World, n: Normalized, failing: set<Sink>)
    requires !n.Ignored?
    ensures var k := FailurePoint(enabled, failing, SINK_ORDER);
      FanOut(enabled, w, n, failing, SINK_ORDER)
        == (if k < |SINK_ORDER| then Some(SinkFailure(SINK_ORDER[k])) else None, Delivered(enabled, w, n, k))
  {
    assert Delivered(enabled, w, n, 0) == w;
    FanOutFrom(enabled, w, n, failing, 0);
  }

  /** With no failing sink every enabled sink receives the event exactly once
      and every disabled sink nothing. */
  lemma FanOutComplete(enabled: set<Sink>, w: World, n: Normalized)
    requires !n.Ignored?
    ensures var w' := FanOut(enabled, w, n, {}, SINK_ORDER).1;
      && FanOut(enabled, w, n, {}, SINK_ORDER).0 == None
      && w'.es == w.es + (if Es in enabled then [EsEntry(n)] else [])
      && w'.batch == w.batch + (if Batch in enabled then [n.payload] else [])
      && w'.kinesis == w.kinesis + (if Kinesis in enabled then [Keyed(n.id, n.payload)] else [])
      && w'.msk == w.msk + (if Msk in enabled then [Keyed(n.id, n.payload)] else [])
      && w'.sns == w.sns + (if Sns in enabled then [n.payload] else [])
      && w'.table == w.table && w'.bucket == w.bucket
  {
    FanOutInOrder(enabled, w, n, {});
  }

  /** Failures of disabled sinks are never met: only enabled sinks are called,
      and the fan-out completes. */
  lemma DisabledFailuresUnseen(enabled: set<Sink>, w: World, n: Normalized, failing: set<Sink>)
    requires !n.Ignored? && enabled * failing == {}
    ensures FanOut(enabled, w, n, failing, SINK_ORDER) == (None, FanOut(enabled, w, n, {}, SINK_ORDER).1)
  {
    FanOutInOrder(enabled, w, n, failing);
    FanOutInOrder(enabled, w, n, {});
    assert FailurePoint(enabled, failing, SINK_ORDER) == |SINK_ORDER|;
    assert FailurePoint(enabled, {}, SINK_ORDER) == |SINK_ORDER|;
  }

  /** w' is w after the enabled sinks have received, in order, the index
      commands es, the payloads ps (batch file, SNS) and the keyed payloads ks
      (Kinesis, MSK); disabled sinks receive nothing. */
  predicate Traces(enabled: set<Sink>, w: World, w': World, es: seq<EsCommand>, ps: seq<Doc>, ks: seq<Keyed>)
  {
    && w'.es == w.es + (if Es in enabled then es else [])
    && w'.batch == w.batch + (if Batch in enabled then ps else [])
    && w'.kinesis == w.kinesis + (if Kinesis in enabled then ks else [])
    && w'.msk == w.msk + (if Msk in enabled then ks else [])
    && w'.sns == w.sns + (if Sns in enabled then ps else [])
  }

  /** Delivering one sequence of events and then another is delivering both, in order. */
  lemma TracesConcat(enabled: set<Sink>, w0: World, w1: World, w2: World,
                     es: seq<EsCommand>, ps: seq<Doc>, ks: seq<Keyed>,
                     es': seq<EsCommand>, ps': seq<Doc>, ks': seq<Keyed>)
    requires Traces(enabled, w0, w1, es, ps, ks) && Traces(enabled, w1, w2, es', ps', ks')
    ensures Traces(enabled, w0, w2, es + es', ps + ps', ks + ks')
  {
  }

  /** A fan-out in which no sink fails delivers the event to every enabled sink. */
  lemma FanOutTraces(enabled: set<Sink>, w: World, n: Normalized, failing: set<Sink>)
    requires !n.Ignored?
    ensures var r := FanOut(enabled, w, n, failing, SINK_ORDER);
      r.0.None? ==> Traces(enabled, w, r.1, [EsEntry(n)], [n.payload], [Keyed(n.id, n.payload)])
  {
    FanOutInOrder(enabled, w, n, failing);
  }
}

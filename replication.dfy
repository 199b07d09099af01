/** One invocation of lambda_handler as a function of the state it starts in:
    read the checkpoint, poll the change stream up to MAX_LOOP times, fan each
    event out, checkpoint, then commit or recover. */
module Replication {
  import opened Wrappers
  import opened Bson
  import opened Settings
  import opened ChangeEvents
  import opened StateStore
  import opened Sinks

  /** One call of try_next: an event or None, with the stream's resume token
      afterwards; or an OperationFailure raised by the stream. */
  datatype Poll = Polled(event: Option<ChangeEvent>, token: Token) | Failed(code: int)

  /** The change stream of one invocation: opening it with watch() may raise an
      OperationFailure; otherwise the stream stays alive for exactly |polls|
      calls of try_next. */
  datatype Feed = Feed(openFailure: Option<int>, polls: seq<Poll>)

  /** A call of store_last_processed_id: in the loop after poll i, the reset to
      null after a history loss, or the final commit. */
  datatype StoreCall = InLoop(poll: nat) | Reset | Commit

  /** The failures an invocation meets: reading the checkpoint, delivering the
      event of poll i to a sink, a store call, the S3 upload. */
  datatype Faults = Faults(readFails: bool, sinks: set<(nat, Sink)>, stores: set<StoreCall>, upload: bool)
  {
    function FailingAt(i: nat): set<Sink>
    {
      set p | p in sinks && p.0 == i :: p.1
    }
  }

  /** The loop's variables: the world, the number of polls made (the source's i),
      events_processed and the stream's current resume token. */
  datatype LoopState = LoopState(w: World, i: nat, count: nat, resume: Option<Token>)

  /** The handler's result: status 200 with the number of events, 201, or an exception. */
  datatype Outcome = Ok200(processed: nat) | Ok201 | Raised(error: Error)

  predicate IsEvent(p: Poll)
  {
    p.Polled? && p.event.Some?
  }

  predicate IsEmptyPoll(p: Poll)
  {
    p.Polled? && p.event.None?
  }

  /** The number of polls in polls[lo..hi] that returned an event. */
  function EventCount(polls: seq<Poll>, lo: nat, hi: nat): nat
    requires lo <= hi <= |polls|
    decreases hi - lo
  {
    if lo == hi then 0 else (if IsEvent(polls[lo]) then 1 else 0) + EventCount(polls, lo + 1, hi)
  }

  /** The token of the last poll in polls[lo..hi] that returned an event. */
  function LastEventToken(polls: seq<Poll>, lo: nat, hi: nat): Option<Token>
    requires lo <= hi <= |polls|
    decreases hi - lo
  {
    if lo == hi then None
    else match LastEventToken(polls, lo + 1, hi)
      case Some(t) => Some(t)
      case None => if IsEvent(polls[lo]) then Some(polls[lo].token) else None
  }

  /** The outcome of one iteration: go on with the next state, or leave the
      loop (by a break, or with an exception). */
  datatype Step = Continue(next: LoopState) | Stop(error: Option<Error>, state: LoopState)

  function StepState(st: Step): LoopState
  {
    match st
    case Continue(s) => s
    case Stop(_, s) => s
  }

  /** The handling of one event after events_processed has been incremented
      to `count`: store its token when the batch sink is off and
      events_processed >= STATE_SYNC_COUNT. */
  function Checkpoint(cfg: Config, faults: Faults, at: nat, s: LoopState, token: Token): (st: Step)
    ensures StepState(st) == s || (st.Continue? && Batch !in cfg.enabled && s.count >= cfg.stateSyncCount)
    ensures StepState(st).w.table == s.w.table
            || StepState(st).w.table == Store(s.w.table, cfg.watchedDb, cfg.watchedCollection, Some(token))
    ensures st.Continue? && Batch !in cfg.enabled ==>
              StepState(st).w.table == if s.count >= cfg.stateSyncCount
                                       then Store(s.w.table, cfg.watchedDb, cfg.watchedCollection, Some(token))
                                       else s.w.table
    ensures StepState(st).w == s.w.(table := StepState(st).w.table)
    ensures StepState(st).(w := s.w) == s
    // it stops only when the store is due and raises, and then with that failure
    ensures st.Stop? <==> s.count >= cfg.stateSyncCount && Batch !in cfg.enabled && InLoop(at) in faults.stores
    ensures st.Stop? ==> st.error == Some(StoreFailure)
  {
    if s.count >= cfg.stateSyncCount && Batch !in cfg.enabled then
      if InLoop(at) in faults.stores then Stop(Some(StoreFailure), s)
      else Continue(s.(w := s.w.(table := Store(s.w.table, cfg.watchedDb, cfg.watchedCollection, Some(token)))))
    else Continue(s)
  }

  /** One iteration of the while loop of lambda_handler: i += 1, try_next, then
      the empty-poll policy or normalise, fan out, count and checkpoint. */
  function LoopStep(cfg: Config, polls: seq<Poll>, last: Option<Token>, faults: Faults, iso: nat -> string,
                    s: LoopState): (st: Step)
    requires s.i < |polls|
    ensures StepState(st).i == s.i + 1
    ensures polls[s.i].Polled? ==> StepState(st).resume == Some(polls[s.i].token)
    ensures polls[s.i].Failed? ==> StepState(st).resume == s.resume
    ensures st.Continue? ==> StepState(st).count == s.count + (if IsEvent(polls[s.i]) then 1 else 0)
    ensures st.Stop? && st.error.None? ==> IsEmptyPoll(polls[s.i]) && last.Some?
    ensures !IsEvent(polls[s.i]) ==> StepState(st).w == s.w && StepState(st).count == s.count
    ensures IsEmptyPoll(polls[s.i]) ==> (st.Continue? <==> last.None?) && (st.Stop? ==> st.error.None?)
    ensures Batch in cfg.enabled ==> StepState(st).w.table == s.w.table
    ensures st.Continue? && Batch !in cfg.enabled ==>
              StepState(st).w.table == if IsEvent(polls[s.i]) && StepState(st).count >= cfg.stateSyncCount
                                       then Store(s.w.table, cfg.watchedDb, cfg.watchedCollection, Some(polls[s.i].token))
                                       else s.w.table
    ensures StepState(st).w.bucket == s.w.bucket
    // a stream failure ends the loop with that OperationFailure
    ensures polls[s.i].Failed? ==> st == Stop(Some(OperationFailure(polls[s.i].code)), s.(i := s.i + 1))
    // a malformed event ends it with the exception normalisation raises
    ensures IsEvent(polls[s.i]) && Normalize(polls[s.i].event.value, iso).Err? ==>
              st == Stop(Some(Normalize(polls[s.i].event.value, iso).error),
                         s.(i := s.i + 1, resume := Some(polls[s.i].token)))
    // a failing enabled sink ends it with that sink's failure, after the earlier deliveries
    ensures IsEvent(polls[s.i]) && Normalize(polls[s.i].event.value, iso).Ok? ==>
              var n := Normalize(polls[s.i].event.value, iso).value;
              var (err, w) := if n.Ignored? then (None, s.w)
                              else FanOut(cfg.enabled, s.w, n, faults.FailingAt(s.i), SINK_ORDER);
              err.Some? ==> st == Stop(err, s.(i := s.i + 1, resume := Some(polls[s.i].token), w := w))
  {
    var at := s.i;
    match polls[at]
    case Failed(code) => Stop(Some(OperationFailure(code)), s.(i := at + 1))
    case Polled(None, token) =>
      var s' := s.(i := at + 1, resume := Some(token));
      if last.None? then Continue(s') else Stop(None, s')
    case Polled(Some(ev), token) =>
      var s' := s.(i := at + 1, resume := Some(token));
      match Normalize(ev, iso)
      case Err(e) => Stop(Some(e), s')
      case Ok(n) =>
        var (err, w) := if n.Ignored? then (None, s.w) else FanOut(cfg.enabled, s.w, n, faults.FailingAt(at), SINK_ORDER);
        if err.Some? then Stop(err, s'.(w := w))
        else Checkpoint(cfg, faults, at, s'.(w := w, count := s.count + 1), token)
  }

  /** The while loop of lambda_handler, from state s on. `last` is the
      checkpoint read at the start; the loop never changes it. */
  function Loop(cfg: Config, polls: seq<Poll>, last: Option<Token>, faults: Faults, iso: nat -> string,
                s: LoopState): (r: (Option<Error>, LoopState))
    requires s.i <= |polls|
    // it polls at most MAX_LOOP times and never past the stream's end
    ensures s.i <= r.1.i <= |polls|
    ensures r.1.i <= cfg.maxLoop || r.1.i == s.i
    // every event is counted, whatever its operation type
    ensures r.0.None? ==> r.1.count == s.count + EventCount(polls, s.i, r.1.i)
    // a loop that meets no event changes nothing
    ensures r.0.None? && r.1.count == s.count ==> r.1.w == s.w
    // it ends early only at an empty poll, and only when a checkpoint was read
    ensures r.0.None? && r.1.i < |polls| && r.1.i < cfg.maxLoop ==>
              last.Some? && s.i < r.1.i && IsEmptyPoll(polls[r.1.i - 1])
    // with the batch sink on, nothing is stored inside the loop
    ensures Batch in cfg.enabled ==> r.1.w.table == s.w.table
    ensures r.1.w.bucket == s.w.bucket
    // the stream's resume token at the end is that of the last poll made
    ensures r.1.i == s.i ==> r == (None, s)
    ensures r.0.None? && r.1.i > s.i ==> polls[r.1.i - 1].Polled? && r.1.resume == Some(polls[r.1.i - 1].token)
    decreases |polls| - s.i
  {
    if s.i == |polls| || s.i >= cfg.maxLoop then (None, s)
    else
      match LoopStep(cfg, polls, last, faults, iso, s)
      case Continue(s') => Loop(cfg, polls, last, faults, iso, s')
      case Stop(e, s') => (e, s')
  }

  /** At an empty poll within the budget: with a checkpoint read at the start
      the loop ends there; without one it goes on to the next poll. */
  lemma EmptyPoll(cfg: Config, polls: seq<Poll>, last: Option<Token>, faults: Faults, iso: nat -> string,
                  s: LoopState)
    requires s.i < |polls| && s.i < cfg.maxLoop && IsEmptyPoll(polls[s.i])
    ensures var s' := s.(i := s.i + 1, resume := Some(polls[s.i].token));
      && (last.Some? ==> Loop(cfg, polls, last, faults, iso, s) == (None, s'))
      && (last.None? ==> Loop(cfg, polls, last, faults, iso, s) == Loop(cfg, polls, last, faults, iso, s'))
  {
  }

  /** The collection at loop state e, reached from s with the batch sink off:
      the last event's token once events_processed has reached STATE_SYNC_COUNT
      and some event was met, otherwise as at s. */
  predicate CheckpointedAt(cfg: Config, polls: seq<Poll>, s: LoopState, e: LoopState)
    requires s.i <= e.i <= |polls|
  {
    e.w.table == if e.count >= cfg.stateSyncCount && e.count > s.count
                 then Store(s.w.table, cfg.watchedDb, cfg.watchedCollection, LastEventToken(polls, s.i, e.i))
                 else s.w.table
  }

  /** One iteration that goes on keeps CheckpointedAt: a later event's store
      overwrites an earlier one's. s' is the state after the iteration, as
      LoopStep describes it. */
  lemma CheckpointedStep(cfg: Config, polls: seq<Poll>, s: LoopState, s': LoopState, e: LoopState)
    requires s.i < |polls| && s'.i == s.i + 1
    requires s'.count == s.count + (if IsEvent(polls[s.i]) then 1 else 0)
    requires s'.w.table == if IsEvent(polls[s.i]) && s'.count >= cfg.stateSyncCount
                           then Store(s.w.table, cfg.watchedDb, cfg.watchedCollection, Some(polls[s.i].token))
                           else s.w.table
    requires s'.i <= e.i <= |polls| && e.count == s'.count + EventCount(polls, s'.i, e.i)
    requires CheckpointedAt(cfg, polls, s', e)
    ensures CheckpointedAt(cfg, polls, s, e)
  {
    var db, coll := cfg.watchedDb, cfg.watchedCollection;
    var tail := LastEventToken(polls, s.i + 1, e.i);
    NoEventNoToken(polls, s.i + 1, e.i);
    if IsEvent(polls[s.i]) {
      var token := polls[s.i].token;
      assert LastEventToken(polls, s.i, e.i) == if tail.Some? then tail else Some(token);
      if s'.count >= cfg.stateSyncCount && tail.Some? {
        StoreOverwrites(s.w.table, db, coll, Some(token), tail);
      }
    } else {
      assert LastEventToken(polls, s.i, e.i) == tail;
    }
  }

  /** In-loop checkpointing with the batch sink off: once events_processed has
      reached STATE_SYNC_COUNT every further event stores its token, so at the
      end the stored token is that of the last event; before that nothing is stored. */
  lemma {:induction false} InLoopCheckpoint(cfg: Config, polls: seq<Poll>, last: Option<Token>, faults: Faults,
                                            iso: nat -> string, s: LoopState)
    requires s.i <= |polls| && Batch !in cfg.enabled
    ensures var r := Loop(cfg, polls, last, faults, iso, s);
      r.0.None? ==> CheckpointedAt(cfg, polls, s, r.1)
    decreases |polls| - s.i
  {
    var r := Loop(cfg, polls, last, faults, iso, s);
    if r.0.None? && s.i < |polls| && s.i < cfg.maxLoop {
      var st := LoopStep(cfg, polls, last, faults, iso, s);
      if st.Continue? {
        assert r == Loop(cfg, polls, last, faults, iso, st.next);
        InLoopCheckpoint(cfg, polls, last, faults, iso, st.next);
        CheckpointedStep(cfg, polls, s, st.next, r.1);
      }
    }
  }

  /** An iteration that leaves the loop stores nothing: a raising step is
      interrupted before its checkpoint is written, and a break stores nothing. */
  lemma StopKeepsTable(cfg: Config, polls: seq<Poll>, last: Option<Token>, faults: Faults, iso: nat -> string,
                       s: LoopState)
    requires s.i < |polls|
    ensures var st := LoopStep(cfg, polls, last, faults, iso, s);
      st.Stop? ==> StepState(st).w.table == s.w.table
  {
  }

  /** One iteration within the budget, with the batch sink off: it goes on to
      s', having counted and checkpointed its event as CheckpointedStep
      expects, or it leaves the loop at s', where a raising exit has stored nothing. */
  lemma ExitStep(cfg: Config, polls: seq<Poll>, last: Option<Token>, faults: Faults, iso: nat -> string,
                 s: LoopState)
    returns (goesOn: bool, s': LoopState)
    requires s.i < |polls| && s.i < cfg.maxLoop && Batch !in cfg.enabled
    ensures s'.i == s.i + 1
    ensures goesOn ==>
              && Loop(cfg, polls, last, faults, iso, s) == Loop(cfg, polls, last, faults, iso, s')
              && s'.count == s.count + (if IsEvent(polls[s.i]) then 1 else 0)
              && s'.w.table == if IsEvent(polls[s.i]) && s'.count >= cfg.stateSyncCount
                               then Store(s.w.table, cfg.watchedDb, cfg.watchedCollection, Some(polls[s.i].token))
                               else s.w.table
    ensures !goesOn && Loop(cfg, polls, last, faults, iso, s).0.Some? ==>
              Loop(cfg, polls, last, faults, iso, s).1.i == s'.i
              && Loop(cfg, polls, last, faults, iso, s).1.w.table == s.w.table
  {
    var st := LoopStep(cfg, polls, last, faults, iso, s);
    goesOn, s' := st.Continue?, StepState(st);
    if !goesOn {
      StopKeepsTable(cfg, polls, last, faults, iso, s);
    }
  }

  /** A loop from s that raised at poll i - 1 and left the collection in w: the
      collection is what CheckpointedAt gives for the polls before that one. */
  predicate ExitCheckpointed(cfg: Config, polls: seq<Poll>, s: LoopState, w: World, i: nat)
    requires s.i <= |polls|
  {
    s.i < i <= |polls| && CheckpointedAt(cfg, polls, s, LoopState(w, i - 1, s.count + EventCount(polls, s.i, i - 1), None))
  }

  /** The iteration that raises: it has stored nothing. */
  lemma ExitCheckpointBase(cfg: Config, polls: seq<Poll>, s: LoopState, w: World, i: nat)
    requires s.i < |polls| && i == s.i + 1 && w.table == s.w.table
    ensures ExitCheckpointed(cfg, polls, s, w, i)
  {
  }

  /** An iteration before the one that raises keeps ExitCheckpointed, as CheckpointedStep. */
  lemma ExitCheckpointStep(cfg: Config, polls: seq<Poll>, s: LoopState, s': LoopState, w: World, i: nat)
    requires s.i < |polls| && s'.i == s.i + 1
    requires s'.count == s.count + (if IsEvent(polls[s.i]) then 1 else 0)
    requires s'.w.table == if IsEvent(polls[s.i]) && s'.count >= cfg.stateSyncCount
                           then Store(s.w.table, cfg.watchedDb, cfg.watchedCollection, Some(polls[s.i].token))
                           else s.w.table
    requires ExitCheckpointed(cfg, polls, s', w, i)
    ensures ExitCheckpointed(cfg, polls, s, w, i)
  {
    var k := i - 1;
    var e := LoopState(w, k, s'.count + EventCount(polls, s'.i, k), None);
    assert EventCount(polls, s.i, k) == (if IsEvent(polls[s.i]) then 1 else 0) + EventCount(polls, s'.i, k);
    CheckpointedStep(cfg, polls, s, s', e);
  }

  /** In-loop checkpointing when the loop raises, with the batch sink off: the
      collection holds what CheckpointedAt gives for the polls before the one that
      raised, so the raising poll's token is never stored and every stored token
      is that of an event that was fanned out, counted and checkpointed in full. */
  lemma {:induction false} ErrorExitCheckpoint(cfg: Config, polls: seq<Poll>, last: Option<Token>, faults: Faults,
                                               iso: nat -> string, s: LoopState)
    requires s.i <= |polls| && Batch !in cfg.enabled
    ensures var r := Loop(cfg, polls, last, faults, iso, s);
      r.0.Some? ==> ExitCheckpointed(cfg, polls, s, r.1.w, r.1.i)
    decreases |polls| - s.i
  {
    var r := Loop(cfg, polls, last, faults, iso, s);
    if r.0.Some? && s.i < |polls| && s.i < cfg.maxLoop {
      var goesOn, s' := ExitStep(cfg, polls, last, faults, iso, s);
      if goesOn {
        var r' := Loop(cfg, polls, last, faults, iso, s');
        assert r' == r;
        ErrorExitCheckpoint(cfg, polls, last, faults, iso, s');
        ExitCheckpointStep(cfg, polls, s, s', r'.1.w, r'.1.i);
      } else {
        ExitCheckpointBase(cfg, polls, s, r.1.w, r.1.i);
      }
    }
  }

  lemma {:induction false} NoEventNoToken(polls: seq<Poll>, lo: nat, hi: nat)
    requires lo <= hi <= |polls|
    ensures LastEventToken(polls, lo, hi).None? <==> EventCount(polls, lo, hi) == 0
    decreases hi - lo
  {
    if lo < hi {
      NoEventNoToken(polls, lo + 1, hi);
    }
  }

  /** The event one poll hands to the sinks: the normalised event, unless the
      poll returned none, the event is malformed or its operation type is ignored. */
  function Delivery(p: Poll, iso: nat -> string): (d: Option<Normalized>)
    ensures d.Some? ==> !d.value.Ignored?
  {
    if IsEvent(p) && Normalize(p.event.value, iso).Ok? && !Normalize(p.event.value, iso).value.Ignored?
    then Some(Normalize(p.event.value, iso).value)
    else None
  }

  /** What one delivered event puts in the search index, in the payload sinks
      and in the keyed sinks. */
  function EsPart(d: Option<Normalized>): seq<EsCommand>
    requires d.Some? ==> !d.value.Ignored?
  {
    if d.Some? then [EsEntry(d.value)] else []
  }

  function PayloadPart(d: Option<Normalized>): seq<Doc>
    requires d.Some? ==> !d.value.Ignored?
  {
    if d.Some? then [d.value.payload] else []
  }

  function KeyedPart(d: Option<Normalized>): seq<Keyed>
    requires d.Some? ==> !d.value.Ignored?
  {
    if d.Some? then [Keyed(d.value.id, d.value.payload)] else []
  }

  /** Reference definitions of what polls[lo..hi] hand to the sinks, in order:
      the search index commands, the payloads and the keyed payloads. */
  function EsDeliveries(polls: seq<Poll>, iso: nat -> string, lo: nat, hi: nat): seq<EsCommand>
    requires lo <= hi <= |polls|
    decreases hi - lo
  {
    if lo == hi then [] else EsPart(Delivery(polls[lo], iso)) + EsDeliveries(polls, iso, lo + 1, hi)
  }

  function PayloadDeliveries(polls: seq<Poll>, iso: nat -> string, lo: nat, hi: nat): seq<Doc>
    requires lo <= hi <= |polls|
    decreases hi - lo
  {
    if lo == hi then [] else PayloadPart(Delivery(polls[lo], iso)) + PayloadDeliveries(polls, iso, lo + 1, hi)
  }

  function KeyedDeliveries(polls: seq<Poll>, iso: nat -> string, lo: nat, hi: nat): seq<Keyed>
    requires lo <= hi <= |polls|
    decreases hi - lo
  {
    if lo == hi then [] else KeyedPart(Delivery(polls[lo], iso)) + KeyedDeliveries(polls, iso, lo + 1, hi)
  }

  /** w' is w after polls[lo..hi] have delivered their events to the enabled sinks. */
  predicate DeliveredOver(enabled: set<Sink>, polls: seq<Poll>, iso: nat -> string, lo: nat, hi: nat,
                          w: World, w': World)
    requires lo <= hi <= |polls|
  {
    Traces(enabled, w, w', EsDeliveries(polls, iso, lo, hi), PayloadDeliveries(polls, iso, lo, hi),
           KeyedDeliveries(polls, iso, lo, hi))
  }

  /** An iteration that goes on has delivered its event to every enabled sink. */
  lemma {:induction false} StepDelivers(cfg: Config, polls: seq<Poll>, last: Option<Token>, faults: Faults, iso: nat -> string,
                     s: LoopState)
    requires s.i < |polls|
    ensures var st := LoopStep(cfg, polls, last, faults, iso, s);
      var d := Delivery(polls[s.i], iso);
      st.Continue? ==> Traces(cfg.enabled, s.w, st.next.w, EsPart(d), PayloadPart(d), KeyedPart(d))
  {
    var p := polls[s.i];
    if Delivery(p, iso).Some? {
      FanOutTraces(cfg.enabled, s.w, Delivery(p, iso).value, faults.FailingAt(s.i));
    }
  }

  /** The deliveries of one poll are its parts. */
  lemma {:induction false} OnePollDelivery(enabled: set<Sink>, polls: seq<Poll>, iso: nat -> string, i: nat,
                                           w: World, w': World)
    requires i < |polls|
    requires var d := Delivery(polls[i], iso);
      Traces(enabled, w, w', EsPart(d), PayloadPart(d), KeyedPart(d))
    ensures DeliveredOver(enabled, polls, iso, i, i + 1, w, w')
  {
    var d := Delivery(polls[i], iso);
    assert EsDeliveries(polls, iso, i, i + 1) == EsPart(d) + [] == EsPart(d);
    assert PayloadDeliveries(polls, iso, i, i + 1) == PayloadPart(d) + [] == PayloadPart(d);
    assert KeyedDeliveries(polls, iso, i, i + 1) == KeyedPart(d) + [] == KeyedPart(d);
  }

  /** One iteration's delivery followed by the rest of the loop's. */
  lemma {:induction false} DeliveriesStep(enabled: set<Sink>, polls: seq<Poll>, iso: nat -> string, i: nat, j: nat, hi: nat,
                       w: World, w': World, e: World)
    requires j == i + 1 && j <= hi <= |polls|
    requires DeliveredOver(enabled, polls, iso, i, j, w, w')
    requires DeliveredOver(enabled, polls, iso, j, hi, w', e)
    ensures DeliveredOver(enabled, polls, iso, i, hi, w, e)
  {
    EsDeliveriesSplit(polls, iso, i, j, hi);
    PayloadDeliveriesSplit(polls, iso, i, j, hi);
    KeyedDeliveriesSplit(polls, iso, i, j, hi);
    TracesConcat(enabled, w, w', e,
                 EsDeliveries(polls, iso, i, j), PayloadDeliveries(polls, iso, i, j), KeyedDeliveries(polls, iso, i, j),
                 EsDeliveries(polls, iso, j, hi), PayloadDeliveries(polls, iso, j, hi), KeyedDeliveries(polls, iso, j, hi));
  }

  /** The deliveries of polls[i..hi] are those of poll i followed by the rest. */
  lemma {:induction false} EsDeliveriesSplit(polls: seq<Poll>, iso: nat -> string, i: nat, j: nat, hi: nat)
    requires j == i + 1 && j <= hi <= |polls|
    ensures EsDeliveries(polls, iso, i, hi) == EsDeliveries(polls, iso, i, j) + EsDeliveries(polls, iso, j, hi)
  {
    var part := EsPart(Delivery(polls[i], iso));
    assert EsDeliveries(polls, iso, i, j) == part + [] == part;
  }

  lemma {:induction false} PayloadDeliveriesSplit(polls: seq<Poll>, iso: nat -> string, i: nat, j: nat, hi: nat)
    requires j == i + 1 && j <= hi <= |polls|
    ensures PayloadDeliveries(polls, iso, i, hi) == PayloadDeliveries(polls, iso, i, j) + PayloadDeliveries(polls, iso, j, hi)
  {
    var part := PayloadPart(Delivery(polls[i], iso));
    assert PayloadDeliveries(polls, iso, i, j) == part + [] == part;
  }

  lemma {:induction false} KeyedDeliveriesSplit(polls: seq<Poll>, iso: nat -> string, i: nat, j: nat, hi: nat)
    requires j == i + 1 && j <= hi <= |polls|
    ensures KeyedDeliveries(polls, iso, i, hi) == KeyedDeliveries(polls, iso, i, j) + KeyedDeliveries(polls, iso, j, hi)
  {
    var part := KeyedPart(Delivery(polls[i], iso));
    assert KeyedDeliveries(polls, iso, i, j) == part + [] == part;
  }

  /** No poll, or a poll without an event, delivers nothing. */
  lemma {:induction false} NoDelivery(enabled: set<Sink>, polls: seq<Poll>, iso: nat -> string, i: nat, hi: nat, w: World)
    requires i <= hi <= |polls| && (hi == i || (hi == i + 1 && !IsEvent(polls[i])))
    ensures DeliveredOver(enabled, polls, iso, i, hi, w, w)
  {
  }

  /** One iteration within the budget, as the delivery proof needs it: either it
      goes on to s', having delivered its event, or it leaves the loop, and then
      without an exception only at an empty poll. */
  lemma {:induction false} DeliveryStep(cfg: Config, polls: seq<Poll>, last: Option<Token>, faults: Faults, iso: nat -> string,
                     s: LoopState)
    returns (goesOn: bool, s': LoopState)
    requires s.i < |polls| && s.i < cfg.maxLoop
    ensures s'.i == s.i + 1
    ensures goesOn ==> DeliveredOver(cfg.enabled, polls, iso, s.i, s'.i, s.w, s'.w)
                       && Loop(cfg, polls, last, faults, iso, s) == Loop(cfg, polls, last, faults, iso, s')
    ensures !goesOn && Loop(cfg, polls, last, faults, iso, s).0.None? ==>
              Loop(cfg, polls, last, faults, iso, s).1 == s' && s'.w == s.w && !IsEvent(polls[s.i])
  {
    var st := LoopStep(cfg, polls, last, faults, iso, s);
    goesOn, s' := st.Continue?, StepState(st);
    if goesOn {
      StepDelivers(cfg, polls, last, faults, iso, s);
      OnePollDelivery(cfg.enabled, polls, iso, s.i, s.w, s'.w);
    }
  }

  /** Sink traces: a loop that ends without an exception has delivered exactly
      the events it polled, in order, to every enabled sink. */
  lemma {:induction false} LoopDelivers(cfg: Config, polls: seq<Poll>, last: Option<Token>, faults: Faults,
                                        iso: nat -> string, s: LoopState)
    requires s.i <= |polls|
    ensures var r := Loop(cfg, polls, last, faults, iso, s);
      r.0.None? ==> DeliveredOver(cfg.enabled, polls, iso, s.i, r.1.i, s.w, r.1.w)
    decreases |polls| - s.i
  {
    var r := Loop(cfg, polls, last, faults, iso, s);
    if s.i == |polls| || s.i >= cfg.maxLoop {
      NoDelivery(cfg.enabled, polls, iso, s.i, s.i, s.w);
    } else if r.0.None? {
      var goesOn, s' := DeliveryStep(cfg, polls, last, faults, iso, s);
      if goesOn {
        var r' := Loop(cfg, polls, last, faults, iso, s');
        assert r' == r;
        LoopDelivers(cfg, polls, last, faults, iso, s');
        DeliveriesStep(cfg.enabled, polls, iso, s.i, s'.i, r'.1.i, s.w, s'.w, r'.1.w);
      } else {
        NoDelivery(cfg.enabled, polls, iso, s.i, s.i + 1, s.w);
      }
    }
  }

  /** The except clauses: an OperationFailure with code 136 stores null as the
      checkpoint and re-raises; every other exception re-raises. A store that
      fails while resetting raises instead. */
  function Recover(cfg: Config, w: World, e: Error, faults: Faults): (r: (Outcome, World))
    // it always raises: e itself, or the failure of the reset store
    ensures r.0 == Raised(e) || (e == OperationFailure(TOKEN_DATA_DELETED_CODE) && r.0 == Raised(StoreFailure))
    // only a history loss whose reset succeeds changes the world, by storing null
    ensures r.1 == if e == OperationFailure(TOKEN_DATA_DELETED_CODE) && r.0 == Raised(e)
                   then w.(table := Store(w.table, cfg.watchedDb, cfg.watchedCollection, None))
                   else w
  {
    if e == OperationFailure(TOKEN_DATA_DELETED_CODE) then
      if Reset in faults.stores then (Raised(StoreFailure), w)
      else (Raised(e), w.(table := Store(w.table, cfg.watchedDb, cfg.watchedCollection, None)))
    else (Raised(e), w)
  }

  /** The else clause: after at least one event, upload the batch file (when the
      batch sink is on) and then store the stream's resume token; after none,
      status 201. Exceptions raised here are not handled by the except clauses. */
  function Finish(cfg: Config, s: LoopState, faults: Faults): (r: (Outcome, World))
    // 201 exactly when no event was met, and then nothing changes
    ensures r.0 == Ok201 <==> s.count == 0
    ensures r.0 == Ok201 ==> r.1 == s.w
    // 200 exactly when neither the upload nor the commit raises
    ensures r.0.Ok200? <==> s.count > 0 && !(Batch in cfg.enabled && faults.upload) && Commit !in faults.stores
    ensures r.0.Ok200? ==>
              r.0.processed == s.count && r.1.table == Store(s.w.table, cfg.watchedDb, cfg.watchedCollection, s.resume)
    ensures r.0.Raised? ==> r.1.table == s.w.table && r.0.error in {UploadFailure, StoreFailure}
    // the batch file is uploaded once, before the commit, and only when an event was met
    ensures r.1.bucket == if Batch in cfg.enabled && s.count > 0 && !faults.upload
                          then s.w.bucket + [s.w.batch] else s.w.bucket
    ensures r.1.(table := s.w.table, bucket := s.w.bucket) == s.w
  {
    if s.count == 0 then (Ok201, s.w)
    else if Batch in cfg.enabled && faults.upload then (Raised(UploadFailure), s.w)
    else
      var w := if Batch in cfg.enabled then s.w.(bucket := s.w.bucket + [s.w.batch]) else s.w;
      if Commit in faults.stores then (Raised(StoreFailure), w)
      else (Ok200(s.count), w.(table := Store(w.table, cfg.watchedDb, cfg.watchedCollection, s.resume)))
  }

  /** The world once the temporary batch file is opened (empty) when the batch sink is on. */
  function Opened(cfg: Config, w: World): (r: World)
    ensures r.(batch := w.batch) == w
    ensures Batch in cfg.enabled ==> r.batch == []
  {
    if Batch in cfg.enabled then w.(batch := []) else w
  }

  /** Set-up: open the batch file, then get_last_processed_id. */
  function Start(cfg: Config, w: World, faults: Faults): (r: Result<(Option<Token>, World), Error>)
    ensures r.Err? <==> faults.readFails
    // the token returned is the one the current record now holds
    ensures r.Ok? ==> FirstCurrent(r.value.1.table).Some? && StoredCursor(r.value.1.table) == r.value.0
    // an existing current record is read and left alone
    ensures r.Ok? && FirstCurrent(w.table).Some? ==> r.value == (StoredCursor(w.table), Opened(cfg, w))
    ensures r.Ok? && FirstCurrent(w.table).None? ==>
              r.value == (None, Opened(cfg, w).(table := w.table + [Bootstrap(cfg.watchedDb, cfg.watchedCollection)]))
  {
    var w0 := Opened(cfg, w);
    match Read(w0.table, cfg.watchedDb, cfg.watchedCollection, faults.readFails)
    case Err(e) => Err(e)
    case Ok((last, t)) => Ok((last, w0.(table := t)))
  }

  /** The loop from its first iteration: i = 0, events_processed = 0, and the
      stream's resume token is the checkpoint it resumes after. */
  function Stream(cfg: Config, polls: seq<Poll>, last: Option<Token>, faults: Faults, iso: nat -> string,
                  w: World): (r: (Option<Error>, LoopState))
    ensures r.1.i <= |polls| && (r.1.i <= cfg.maxLoop || r.1.i == 0)
    ensures r.1.w.bucket == w.bucket
    ensures r.0.None? ==> r.1.count == EventCount(polls, 0, r.1.i)
    // at the end the resume token is that of the last poll; with no poll nothing has changed
    ensures r.1.i == 0 ==> r == (None, LoopState(w, 0, 0, last))
    ensures r.0.None? && r.1.i > 0 ==> polls[r.1.i - 1].Polled? && r.1.resume == Some(polls[r.1.i - 1].token)
  {
    Loop(cfg, polls, last, faults, iso, LoopState(w, 0, 0, last))
  }

  /** One invocation of lambda_handler. */
  function Invoke(cfg: Config, w: World, feed: Feed, faults: Faults, iso: nat -> string): (r: (Outcome, World))
    // a failed read raises before anything but the batch file is touched
    ensures faults.readFails ==> r == (Raised(StoreFailure), Opened(cfg, w))
    // a failure to open the stream always raises
    ensures feed.openFailure.Some? ==> r.0.Raised?
    // the bucket gains at most this invocation's batch file
    ensures r.1.bucket == w.bucket || (Batch in cfg.enabled && r.1.bucket == w.bucket + [r.1.batch])
  {
    match Start(cfg, w, faults)
    case Err(e) => (Raised(e), Opened(cfg, w))
    case Ok((last, w1)) =>
      if feed.openFailure.Some? then Recover(cfg, w1, OperationFailure(feed.openFailure.value), faults)
      else
        var (err, s) := Stream(cfg, feed.polls, last, faults, iso, w1);
        if err.Some? then Recover(cfg, s.w, err.value, faults) else Finish(cfg, s, faults)
  }

  /** One invocation of lambda_handler with get_last_processed_id as written:
      a current record without `lastProcessed` makes the read raise KeyError,
      which no except clause catches. */
  function InvokeAsWritten(cfg: Config, w: World, feed: Feed, faults: Faults, iso: nat -> string)
    : (r: (Outcome, World))
    ensures r.0 == Raised(KeyError) && r.1 == Opened(cfg, w) <==>
              ReadAsWritten(w.table, cfg.watchedDb, cfg.watchedCollection, faults.readFails) == Err(KeyError)
              || Invoke(cfg, w, feed, faults, iso) == (Raised(KeyError), Opened(cfg, w))
  {
    var w0 := Opened(cfg, w);
    if ReadAsWritten(w0.table, cfg.watchedDb, cfg.watchedCollection, faults.readFails) == Err(KeyError)
    then (Raised(KeyError), w0)
    else Invoke(cfg, w, feed, faults, iso)
  }

  /** The code as written and the corrected read agree on every invocation
      that does not find a current record without `lastProcessed`. */
  lemma AsWrittenAgrees(cfg: Config, w: World, feed: Feed, faults: Faults, iso: nat -> string)
    requires faults.readFails || FirstCurrent(w.table).None? || w.table[FirstCurrent(w.table).value].lastProcessed.Present?
    ensures InvokeAsWritten(cfg, w, feed, faults, iso) == Invoke(cfg, w, feed, faults, iso)
  {
  }

  /** As written, a first invocation on a state collection without a current
      record behaves like the corrected one, and if it processes no event (201)
      every later invocation that reaches the collection raises KeyError. */
  lemma AsWrittenBootstrapRaises(cfg: Config, w: World, feed: Feed, faults: Faults, iso: nat -> string,
                                 feed': Feed, faults': Faults)
    requires FirstCurrent(w.table).None? && !faults.readFails && !faults'.readFails
    ensures InvokeAsWritten(cfg, w, feed, faults, iso) == Invoke(cfg, w, feed, faults, iso)
    ensures var (out, w') := Invoke(cfg, w, feed, faults, iso);
      out == Ok201 ==>
        InvokeAsWritten(cfg, w', feed', faults', iso) == (Raised(KeyError), Opened(cfg, w'))
  {
    var db, coll := cfg.watchedDb, cfg.watchedCollection;
    ReadBootstrap(w.table, db, coll);
    var (out, w') := Invoke(cfg, w, feed, faults, iso);
    if out == Ok201 {
      NoEventsNoCommit(cfg, w, feed, faults, iso);
      assert w'.table == w.table + [Bootstrap(db, coll)];
      ReadExisting(w'.table, db, coll);
    }
  }

  /** The end commit of a run that leaves the loop without an exception: with
      no event it returns 201 and leaves the world as set-up left it; otherwise,
      unless the upload or the commit raises, it returns 200 with the number of
      events, after uploading the batch file when the batch sink is on, and the
      checkpoint is the stream's last resume token, whatever the loop stored. */
  lemma CleanRunCommits(cfg: Config, w: World, feed: Feed, faults: Faults, iso: nat -> string)
    requires Start(cfg, w, faults).Ok? && feed.openFailure.None?
    requires var (last, w1) := Start(cfg, w, faults).value;
      Stream(cfg, feed.polls, last, faults, iso, w1).0.None?
    ensures var (last, w1) := Start(cfg, w, faults).value;
      var s := Stream(cfg, feed.polls, last, faults, iso, w1).1;
      var w2 := if Batch in cfg.enabled then s.w.(bucket := s.w.bucket + [s.w.batch]) else s.w;
      && (s.count == 0 ==> Invoke(cfg, w, feed, faults, iso) == (Ok201, w1))
      && (s.count > 0 && !(Batch in cfg.enabled && faults.upload) && Commit !in faults.stores ==>
            && 0 < s.i && s.resume == Some(feed.polls[s.i - 1].token)
            && Invoke(cfg, w, feed, faults, iso)
               == (Ok200(EventCount(feed.polls, 0, s.i)),
                   w2.(table := Store(w1.table, cfg.watchedDb, cfg.watchedCollection, s.resume))))
  {
    var (last, w1) := Start(cfg, w, faults).value;
    var s0 := LoopState(w1, 0, 0, last);
    var s := Stream(cfg, feed.polls, last, faults, iso, w1).1;
    if Batch !in cfg.enabled && s.count > 0 {
      InLoopCheckpoint(cfg, feed.polls, last, faults, iso, s0);
      StoreOverwrites(w1.table, cfg.watchedDb, cfg.watchedCollection,
                      LastEventToken(feed.polls, 0, s.i), s.resume);
    }
  }

  /** What leaves the invocation, raised or not, after a loop without exception:
      every event it polled has reached every enabled sink, in order. */
  lemma InvocationDelivers(cfg: Config, w: World, feed: Feed, faults: Faults, iso: nat -> string)
    requires Start(cfg, w, faults).Ok? && feed.openFailure.None?
    requires var (last, w1) := Start(cfg, w, faults).value;
      Stream(cfg, feed.polls, last, faults, iso, w1).0.None?
    ensures var (last, w1) := Start(cfg, w, faults).value;
      var s := Stream(cfg, feed.polls, last, faults, iso, w1).1;
      DeliveredOver(cfg.enabled, feed.polls, iso, 0, s.i, w1, Invoke(cfg, w, feed, faults, iso).1)
  {
    var (last, w1) := Start(cfg, w, faults).value;
    LoopDelivers(cfg, feed.polls, last, faults, iso, LoopState(w1, 0, 0, last));
  }

  /** The collection after set-up (as before it when the read failed). */
  function TableAfterStart(cfg: Config, w: World, faults: Faults): Table
  {
    match Start(cfg, w, faults)
    case Err(_) => w.table
    case Ok((_, w1)) => w1.table
  }

  /** A 201 run leaves the world exactly as set-up left it: it uploads, delivers
      and stores nothing; a 200 run processed at least one event. (That a run
      meeting no event returns 201 is CleanRunCommits.) */
  lemma NoEventsNoCommit(cfg: Config, w: World, feed: Feed, faults: Faults, iso: nat -> string)
    ensures var (out, w') := Invoke(cfg, w, feed, faults, iso);
      && (out == Ok201 ==> Start(cfg, w, faults).Ok? && w' == Start(cfg, w, faults).value.1)
      && (out.Ok200? ==> out.processed > 0)
  {
  }

  /** Batch-file atomicity: with the batch sink on, the checkpoint changes only
      on a 200 run, which has uploaded exactly this invocation's batch file
      before storing, or on the reset after a history loss; every other run
      leaves the checkpoint as it was, and a failed upload leaves the bucket too. */
  lemma BatchAtomic(cfg: Config, w: World, feed: Feed, faults: Faults, iso: nat -> string)
    requires Batch in cfg.enabled
    ensures var (out, w') := Invoke(cfg, w, feed, faults, iso);
      var t := TableAfterStart(cfg, w, faults);
      && (out.Ok200? ==> w'.bucket == w.bucket + [w'.batch])
      && (w'.bucket == w.bucket || w'.bucket == w.bucket + [w'.batch])
      && (out == Raised(UploadFailure) ==> w'.bucket == w.bucket && w'.table == t)
      && (out.Ok200? || out == Raised(OperationFailure(TOKEN_DATA_DELETED_CODE)) || w'.table == t)
      && (out == Raised(OperationFailure(TOKEN_DATA_DELETED_CODE)) ==>
            w'.table == Store(t, cfg.watchedDb, cfg.watchedCollection, None))
  {
    if Start(cfg, w, faults).Ok? && feed.openFailure.None? {
      var (last, w1) := Start(cfg, w, faults).value;
      var r := Stream(cfg, feed.polls, last, faults, iso, w1);
      assert r.1.w.table == w1.table && r.1.w.bucket == w1.bucket;
      assert w1.bucket == w.bucket;
    }
  }

  /** History loss: an OperationFailure 136 from the stream resets the stored
      checkpoint to null and is still re-raised; on a coherent collection the
      next read then returns null. */
  lemma HistoryLostResets(cfg: Config, w: World, feed: Feed, faults: Faults, iso: nat -> string)
    requires Start(cfg, w, faults).Ok? && Reset !in faults.stores
    requires var (last, w1) := Start(cfg, w, faults).value;
      || feed.openFailure == Some(TOKEN_DATA_DELETED_CODE)
      || (feed.openFailure.None? &&
          Stream(cfg, feed.polls, last, faults, iso, w1).0 == Some(OperationFailure(TOKEN_DATA_DELETED_CODE)))
    requires Coherent(TableAfterStart(cfg, w, faults), cfg.watchedDb, cfg.watchedCollection)
    ensures var (out, w') := Invoke(cfg, w, feed, faults, iso);
      && out == Raised(OperationFailure(TOKEN_DATA_DELETED_CODE))
      && Coherent(w'.table, cfg.watchedDb, cfg.watchedCollection)
      && StoredCursor(w'.table) == None
  {
    var (last, w1) := Start(cfg, w, faults).value;
    var db, coll := cfg.watchedDb, cfg.watchedCollection;
    if feed.openFailure.Some? {
      ReadAfterStore(w1.table, db, coll, None);
    } else {
      var (err, s) := Stream(cfg, feed.polls, last, faults, iso, w1);
      LoopKeepsCheckpoint(cfg, feed.polls, last, faults, iso, LoopState(w1, 0, 0, last), None);
      ReadAfterStore(s.w.table, db, coll, None);
    }
  }

  /** Every other failure re-raises and stores nothing after the loop. */
  lemma OtherFailuresReraise(cfg: Config, w: World, feed: Feed, faults: Faults, iso: nat -> string)
    requires Start(cfg, w, faults).Ok? && feed.openFailure.None?
    requires var (last, w1) := Start(cfg, w, faults).value;
      var r := Stream(cfg, feed.polls, last, faults, iso, w1);
      r.0.Some? && r.0 != Some(OperationFailure(TOKEN_DATA_DELETED_CODE))
    ensures var (last, w1) := Start(cfg, w, faults).value;
      var r := Stream(cfg, feed.polls, last, faults, iso, w1);
      Invoke(cfg, w, feed, faults, iso) == (Raised(r.0.value), r.1.w)
  {
  }

  /** At-least-once with the batch sink off: every raised outcome but the reset
      after a history loss leaves as checkpoint the token of the last event that
      was processed in full (or the checkpoint read, if none reached
      STATE_SYNC_COUNT), never the token of the poll that raised; a replay
      resumes after it and so re-delivers the interrupted event. */
  lemma RaisedRunCheckpoint(cfg: Config, w: World, feed: Feed, faults: Faults, iso: nat -> string)
    requires Start(cfg, w, faults).Ok? && feed.openFailure.None? && Batch !in cfg.enabled
    ensures var (last, w1) := Start(cfg, w, faults).value;
      var (err, s) := Stream(cfg, feed.polls, last, faults, iso, w1);
      var k := if err.Some? && s.i > 0 then s.i - 1 else s.i;
      var n := EventCount(feed.polls, 0, k);
      var (out, w') := Invoke(cfg, w, feed, faults, iso);
      out.Raised? && out != Raised(OperationFailure(TOKEN_DATA_DELETED_CODE)) ==>
        && (err.Some? ==> 0 < s.i)
        && w'.table == if n >= cfg.stateSyncCount && n > 0
                       then Store(w1.table, cfg.watchedDb, cfg.watchedCollection, LastEventToken(feed.polls, 0, k))
                       else w1.table
  {
    var (last, w1) := Start(cfg, w, faults).value;
    var s0 := LoopState(w1, 0, 0, last);
    var (err, s) := Stream(cfg, feed.polls, last, faults, iso, w1);
    if err.Some? {
      ErrorExitCheckpoint(cfg, feed.polls, last, faults, iso, s0);
    } else {
      InLoopCheckpoint(cfg, feed.polls, last, faults, iso, s0);
    }
  }

  /** c is no older than lo (null is older than every token). */
  predicate AtLeast(c: Option<Token>, lo: Option<Token>)
  {
    lo.None? || (c.Some? && c.value >= lo.value)
  }

  /** Every token the stream reports is no older than lo. */
  predicate TokensAtLeast(polls: seq<Poll>, lo: Option<Token>)
  {
    forall j :: 0 <= j < |polls| && polls[j].Polled? ==> AtLeast(Some(polls[j].token), lo)
  }

  /** Reads and writes address one record, whose token is no older than lo. */
  predicate CheckpointAtLeast(cfg: Config, t: Table, lo: Option<Token>)
  {
    Coherent(t, cfg.watchedDb, cfg.watchedCollection) && AtLeast(StoredCursor(t), lo)
  }

  /** The loop only ever stores tokens the stream reported. */
  lemma {:induction false} LoopKeepsCheckpoint(cfg: Config, polls: seq<Poll>, last: Option<Token>, faults: Faults,
                                               iso: nat -> string, s: LoopState, lo: Option<Token>)
    requires s.i <= |polls|
    requires CheckpointAtLeast(cfg, s.w.table, lo) && AtLeast(s.resume, lo) && TokensAtLeast(polls, lo)
    ensures var r := Loop(cfg, polls, last, faults, iso, s);
      CheckpointAtLeast(cfg, r.1.w.table, lo) && AtLeast(r.1.resume, lo)
    decreases |polls| - s.i
  {
    if !(s.i == |polls| || s.i >= cfg.maxLoop) {
      var st := LoopStep(cfg, polls, last, faults, iso, s);
      var s' := StepState(st);
      if s'.w.table != s.w.table {
        ReadAfterStore(s.w.table, cfg.watchedDb, cfg.watchedCollection, Some(polls[s.i].token));
      }
      if st.Continue? {
        LoopKeepsCheckpoint(cfg, polls, last, faults, iso, s', lo);
      }
    }
  }

  /** Checkpoint monotonicity: when the stream reports no token older than the
      checkpoint read at the start, an invocation that does not meet a history
      loss leaves a checkpoint no older than that one. */
  lemma CheckpointMonotone(cfg: Config, w: World, feed: Feed, faults: Faults, iso: nat -> string)
    requires Start(cfg, w, faults).Ok?
    requires var (last, w1) := Start(cfg, w, faults).value;
      Coherent(w1.table, cfg.watchedDb, cfg.watchedCollection) && TokensAtLeast(feed.polls, last)
    ensures var (out, w') := Invoke(cfg, w, feed, faults, iso);
      out != Raised(OperationFailure(TOKEN_DATA_DELETED_CODE)) ==>
        CheckpointAtLeast(cfg, w'.table, Start(cfg, w, faults).value.0)
  {
    var (last, w1) := Start(cfg, w, faults).value;
    var db, coll := cfg.watchedDb, cfg.watchedCollection;
    assert StoredCursor(w1.table) == last by {
      ReadIdempotent(Opened(cfg, w).table, db, coll, last, w1.table);
    }
    if feed.openFailure.None? {
      var (err, s) := Stream(cfg, feed.polls, last, faults, iso, w1);
      LoopKeepsCheckpoint(cfg, feed.polls, last, faults, iso, LoopState(w1, 0, 0, last), last);
      if err.None? {
        FinishKeepsCheckpoint(cfg, s, faults, last);
      }
    }
  }

  /** The final commit stores the stream's resume token, so it keeps a
      checkpoint no older than lo when that token is no older than lo. */
  lemma FinishKeepsCheckpoint(cfg: Config, s: LoopState, faults: Faults, lo: Option<Token>)
    requires CheckpointAtLeast(cfg, s.w.table, lo) && AtLeast(s.resume, lo)
    ensures CheckpointAtLeast(cfg, Finish(cfg, s, faults).1.table, lo)
  {
    if s.count > 0 {
      ReadAfterStore(s.w.table, cfg.watchedDb, cfg.watchedCollection, s.resume);
    }
  }

  const NO_FAULTS: Faults := Faults(false, {}, {}, false)

  /** One event that normalises, reaches every enabled sink and whose
      checkpoint store (if any) succeeds: the loop goes on, with the event
      delivered, counted, and its token current. */
  lemma CleanEventStep(cfg: Config, polls: seq<Poll>, last: Option<Token>, faults: Faults, iso: nat -> string,
                       s: LoopState, n: Normalized)
    requires s.i < |polls| && IsEvent(polls[s.i])
    requires Normalize(polls[s.i].event.value, iso) == Ok(n) && !n.Ignored?
    requires cfg.enabled * faults.FailingAt(s.i) == {} && InLoop(s.i) !in faults.stores
    ensures var token := polls[s.i].token;
      var w := FanOut(cfg.enabled, s.w, n, {}, SINK_ORDER).1;
      var stores := s.count + 1 >= cfg.stateSyncCount && Batch !in cfg.enabled;
      var t := if stores then Store(w.table, cfg.watchedDb, cfg.watchedCollection, Some(token)) else w.table;
      LoopStep(cfg, polls, last, faults, iso, s) == Continue(LoopState(w.(table := t), s.i + 1, s.count + 1, Some(token)))
  {
    var token := polls[s.i].token;
    DisabledFailuresUnseen(cfg.enabled, s.w, n, faults.FailingAt(s.i));
    var w := FanOut(cfg.enabled, s.w, n, {}, SINK_ORDER).1;
    assert LoopStep(cfg, polls, last, faults, iso, s)
        == Checkpoint(cfg, faults, s.i, LoopState(w, s.i + 1, s.count + 1, Some(token)), token);
  }

  const DOC_A: Doc := map["_id" := Str("A"), "x" := Int(1)]
  const INSERT_A: ChangeEvent := ChangeEvent("insert", Some(DOC_A), map[], 100)
  const DELETE_A: ChangeEvent := ChangeEvent("delete", None, map["_id" := Str("A")], 101)

  lemma NormalizeInsertDeleteA(iso: nat -> string)
    ensures Normalize(INSERT_A, iso)
      == Ok(Upsert("A", Body("insert", DOC_A, 100, iso), WithId("A", Body("insert", DOC_A, 100, iso))))
    ensures Normalize(DELETE_A, iso) == Ok(Removal("A", WithId("A", Stamp("delete", 101, iso))))
  {
    assert DocId(DOC_A) == "A";
  }

  /** With the search index as the only sink, an event reaches the index alone. */
  lemma EsOnly(w: World, n: Normalized)
    requires !n.Ignored?
    ensures FanOut({Es}, w, n, {}, SINK_ORDER).1 == w.(es := w.es + [EsEntry(n)])
  {
    FanOutComplete({Es}, w, n);
  }

  const POLLS_A: seq<Poll> := [Polled(Some(INSERT_A), 7), Polled(Some(DELETE_A), 8)]

  lemma InsertAStep(db: string, coll: string, w: World, last: Option<Token>, iso: nat -> string)
    ensures var body := Body("insert", DOC_A, 100, iso);
      LoopStep(Config(db, coll, 10, 2, {Es}), POLLS_A, last, NO_FAULTS, iso, LoopState(w, 0, 0, last))
        == Continue(LoopState(w.(es := w.es + [Index("A", body)]), 1, 1, Some(7)))
  {
    var body := Body("insert", DOC_A, 100, iso);
    var n := Upsert("A", body, WithId("A", body));
    NormalizeInsertDeleteA(iso);
    EsOnly(w, n);
    assert NO_FAULTS.FailingAt(0) == {};
    CleanEventStep(Config(db, coll, 10, 2, {Es}), POLLS_A, last, NO_FAULTS, iso, LoopState(w, 0, 0, last), n);
  }

  lemma DeleteAStep(db: string, coll: string, w: World, last: Option<Token>, iso: nat -> string)
    ensures LoopStep(Config(db, coll, 10, 2, {Es}), POLLS_A, last, NO_FAULTS, iso, LoopState(w, 1, 1, Some(7)))
        == Continue(LoopState(w.(es := w.es + [Delete("A")], table := Store(w.table, db, coll, Some(8))), 2, 2, Some(8)))
  {
    var n := Removal("A", WithId("A", Stamp("delete", 101, iso)));
    NormalizeInsertDeleteA(iso);
    EsOnly(w, n);
    assert NO_FAULTS.FailingAt(1) == {};
    CleanEventStep(Config(db, coll, 10, 2, {Es}), POLLS_A, last, NO_FAULTS, iso, LoopState(w, 1, 1, Some(7)), n);
  }

  lemma StreamInsertDeleteA(db: string, coll: string, w: World, last: Option<Token>, iso: nat -> string)
    ensures var body := Body("insert", DOC_A, 100, iso);
      var w' := w.(es := w.es + [Index("A", body), Delete("A")], table := Store(w.table, db, coll, Some(8)));
      Stream(Config(db, coll, 10, 2, {Es}), POLLS_A, last, NO_FAULTS, iso, w) == (None, LoopState(w', 2, 2, Some(8)))
  {
    var cfg := Config(db, coll, 10, 2, {Es});
    var body := Body("insert", DOC_A, 100, iso);
    var wa := w.(es := w.es + [Index("A", body)]);
    var s1 := LoopState(wa, 1, 1, Some(7));
    var s2 := LoopState(wa.(es := wa.es + [Delete("A")], table := Store(wa.table, db, coll, Some(8))), 2, 2, Some(8));
    InsertAStep(db, coll, w, last, iso);
    DeleteAStep(db, coll, wa, last, iso);
    assert Loop(cfg, POLLS_A, last, NO_FAULTS, iso, LoopState(w, 0, 0, last)) == Loop(cfg, POLLS_A, last, NO_FAULTS, iso, s1);
    assert Loop(cfg, POLLS_A, last, NO_FAULTS, iso, s1) == Loop(cfg, POLLS_A, last, NO_FAULTS, iso, s2);
    assert wa.es + [Delete("A")] == w.es + [Index("A", body), Delete("A")];
  }

  /** An insert of document "A" {x: 1} at time 100 and its delete at 101, with
      STATE_SYNC_COUNT = 2 and the search index as the only sink: the index
      receives the upsert and then the delete, and the checkpoint ends at the
      second event's token. */
  lemma InsertThenDelete(db: string, coll: string, w: World, iso: nat -> string)
    requires Coherent(w.table, db, coll)
    ensures var cfg := Config(db, coll, 10, 2, {Es});
      var feed := Feed(None, POLLS_A);
      var (out, w') := Invoke(cfg, w, feed, NO_FAULTS, iso);
      && out == Ok200(2)
      && w'.es == w.es + [Index("A", Body("insert", DOC_A, 100, iso)), Delete("A")]
      && StoredCursor(w'.table) == Some(8)
    // as written, the handler does the same unless the current record lacks
    // `lastProcessed`, and then it raises KeyError before polling
    ensures var cfg := Config(db, coll, 10, 2, {Es});
      var feed := Feed(None, POLLS_A);
      InvokeAsWritten(cfg, w, feed, NO_FAULTS, iso)
        == if w.table[FirstCurrent(w.table).value].lastProcessed.Absent? then (Raised(KeyError), w)
           else Invoke(cfg, w, feed, NO_FAULTS, iso)
  {
    var cfg := Config(db, coll, 10, 2, {Es});
    var last := StoredCursor(w.table);
    assert Start(cfg, w, NO_FAULTS) == Ok((last, w)) by {
      ReadExisting(w.table, db, coll);
    }
    StreamInsertDeleteA(db, coll, w, last, iso);
    var t2 := Store(w.table, db, coll, Some(8));
    ReadAfterStore(w.table, db, coll, Some(8));
    ReadAfterStore(t2, db, coll, Some(8));
  }

  function PollsB(doc: Doc): seq<Poll>
  {
    [Polled(None, 1), Polled(None, 2), Polled(None, 3), Polled(Some(ChangeEvent("insert", Some(doc), map[], 5)), 4)]
  }

  lemma BacksOffThreeTimes(db: string, coll: string, w: World, doc: Doc, iso: nat -> string)
    ensures var cfg := Config(db, coll, 10, 1, {});
      Loop(cfg, PollsB(doc), None, NO_FAULTS, iso, LoopState(w, 0, 0, None))
        == Loop(cfg, PollsB(doc), None, NO_FAULTS, iso, LoopState(w, 3, 0, Some(3)))
  {
    var cfg := Config(db, coll, 10, 1, {});
    var polls := PollsB(doc);
    var s1 := LoopState(w, 1, 0, Some(1));
    var s2 := LoopState(w, 2, 0, Some(2));
    assert LoopStep(cfg, polls, None, NO_FAULTS, iso, LoopState(w, 0, 0, None)) == Continue(s1);
    assert LoopStep(cfg, polls, None, NO_FAULTS, iso, s1) == Continue(s2);
    assert LoopStep(cfg, polls, None, NO_FAULTS, iso, s2) == Continue(LoopState(w, 3, 0, Some(3)));
    assert Loop(cfg, polls, None, NO_FAULTS, iso, s1) == Loop(cfg, polls, None, NO_FAULTS, iso, s2);
  }

  lemma InsertAfterBackOff(db: string, coll: string, w: World, doc: Doc, iso: nat -> string)
    ensures var cfg := Config(db, coll, 10, 1, {});
      LoopStep(cfg, PollsB(doc), None, NO_FAULTS, iso, LoopState(w, 3, 0, Some(3)))
        == Continue(LoopState(w.(table := Store(w.table, db, coll, Some(4))), 4, 1, Some(4)))
  {
    var cfg := Config(db, coll, 10, 1, {});
    var polls := PollsB(doc);
    var n := Normalize(polls[3].event.value, iso).value;
    assert NO_FAULTS.FailingAt(3) == {};
    assert FanOut(cfg.enabled, w, n, {}, SINK_ORDER).1 == w by {
      FanOutComplete(cfg.enabled, w, n);
    }
    CleanEventStep(cfg, polls, None, NO_FAULTS, iso, LoopState(w, 3, 0, Some(3)), n);
  }

  /** First invocation, no checkpoint yet: three empty polls do not end the
      loop, so the insert that follows them is processed and committed. */
  lemma FirstRunBacksOff(db: string, coll: string, w: World, doc: Doc, iso: nat -> string)
    requires w.table == []
    ensures var cfg := Config(db, coll, 10, 1, {});
      var (out, w') := Invoke(cfg, w, Feed(None, PollsB(doc)), NO_FAULTS, iso);
      out == Ok200(1) && StoredCursor(w'.table) == Some(4)
  {
    var cfg := Config(db, coll, 10, 1, {});
    var polls := PollsB(doc);
    var t1 := [Bootstrap(db, coll)];
    var w1 := w.(table := t1);
    assert Start(cfg, w, NO_FAULTS) == Ok((None, w1)) by {
      ReadBootstrap([], db, coll);
      assert [] + t1 == t1;
    }
    var t2 := Store(t1, db, coll, Some(4));
    var s4 := LoopState(w1.(table := t2), 4, 1, Some(4));
    BacksOffThreeTimes(db, coll, w1, doc, iso);
    InsertAfterBackOff(db, coll, w1, doc, iso);
    assert Stream(cfg, polls, None, NO_FAULTS, iso, w1) == (None, s4);
    ReadBootstrap([], db, coll);
    ReadAfterStore(t1, db, coll, Some(4));
    ReadAfterStore(t2, db, coll, Some(4));
  }
}

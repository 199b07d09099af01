/** lambda_handler and the helpers it calls, as methods that update the state
    collection and the sinks in place. Each method is proved to leave the
    world exactly as the functional model in module Replication describes. */
module Handler {
  import opened Wrappers
  import opened Bson
  import opened Settings
  import opened ChangeEvents
  import opened StateStore
  import opened Sinks
  import opened Replication

  /** The state collection and the sinks one invocation writes to: the search
      index, the open batch file, the S3 bucket, the Kinesis stream, the MSK
      topic and the SNS event topic. */
  class Replicator {
    var table: Table
    var es: seq<EsCommand>
    var batch: seq<Doc>
    var bucket: seq<seq<Doc>>
    var kinesis: seq<Keyed>
    var msk: seq<Keyed>
    var sns: seq<Doc>

    /** The fields as one World value. */
    function Observe(): World
      reads this
    {
      World(table, es, batch, bucket, kinesis, msk, sns)
    }

    constructor (w: World)
      ensures Observe() == w
    {
      table, es, batch, bucket := w.table, w.es, w.batch, w.bucket;
      kinesis, msk, sns := w.kinesis, w.msk, w.sns;
    }

    /** get_last_processed_id: find the current record and return its token,
        or insert the bootstrap record and return null. `unreachable` says the
        state collection cannot be read. */
    method GetLastProcessedId(db: string, coll: string, unreachable: bool) returns (r: Result<Option<Token>, Error>)
      modifies this
      ensures match Read(old(table), db, coll, unreachable)
        case Err(e) => r == Err(e) && Observe() == old(Observe())
        case Ok((v, t)) => r == Ok(v) && Observe() == old(Observe()).(table := t)
    {
      if unreachable {
        return Err(StoreFailure);
      }
      var k := FirstCurrent(table);
      if k.None? {
        table := table + [Bootstrap(db, coll)];
        return Ok(None);
      }
      return Ok(CursorValue(table[k.value].lastProcessed));
    }

    /** store_last_processed_id: set lastProcessed on the record for (db, coll),
        if there is one. `fails` says the update raises. */
    method StoreLastProcessedId(db: string, coll: string, c: Option<Token>, fails: bool) returns (err: Option<Error>)
      modifies this
      ensures err == if fails then Some(StoreFailure) else None
      ensures Observe() == old(Observe()).(table := if fails then old(table) else Store(old(table), db, coll, c))
    {
      if fails {
        return Some(StoreFailure);
      }
      var k := FirstMatch(table, db, coll);
      if k.Some? {
        table := table[k.value := table[k.value].(lastProcessed := Present(c))];
      }
      return None;
    }

    /** es_client.index for an upsert, es_client.delete for a removal. */
    method PublishEs(n: Normalized, fails: bool) returns (err: Option<Error>)
      requires !n.Ignored?
      modifies this
      ensures (err, Observe()) == if fails then (Some(SinkFailure(Es)), old(Observe())) else (None, Deliver(old(Observe()), Es, n))
    {
      if fails {
        return Some(SinkFailure(Es));
      }
      es := es + [EsEntry(n)];
      return None;
    }

    /** fobj.write of the payload line to this invocation's batch file. */
    method WriteBatch(n: Normalized, fails: bool) returns (err: Option<Error>)
      requires !n.Ignored?
      modifies this
      ensures (err, Observe()) == if fails then (Some(SinkFailure(Batch)), old(Observe())) else (None, Deliver(old(Observe()), Batch, n))
    {
      if fails {
        return Some(SinkFailure(Batch));
      }
      batch := batch + [n.payload];
      return None;
    }

    /** publish_kinesis_event: put_record with the id as partition key. */
    method PublishKinesisEvent(n: Normalized, fails: bool) returns (err: Option<Error>)
      requires !n.Ignored?
      modifies this
      ensures (err, Observe()) == if fails then (Some(SinkFailure(Kinesis)), old(Observe())) else (None, Deliver(old(Observe()), Kinesis, n))
    {
      if fails {
        return Some(SinkFailure(Kinesis));
      }
      kinesis := kinesis + [Keyed(n.id, n.payload)];
      return None;
    }

    /** publish_message: send to the MSK topic with the id as key, then flush. */
    method PublishMessage(n: Normalized, fails: bool) returns (err: Option<Error>)
      requires !n.Ignored?
      modifies this
      ensures (err, Observe()) == if fails then (Some(SinkFailure(Msk)), old(Observe())) else (None, Deliver(old(Observe()), Msk, n))
    {
      if fails {
        return Some(SinkFailure(Msk));
      }
      msk := msk + [Keyed(n.id, n.payload)];
      return None;
    }

    /** publish_sns_event: publish the payload to the event topic. */
    method PublishSnsEvent(n: Normalized, fails: bool) returns (err: Option<Error>)
      requires !n.Ignored?
      modifies this
      ensures (err, Observe()) == if fails then (Some(SinkFailure(Sns)), old(Observe())) else (None, Deliver(old(Observe()), Sns, n))
    {
      if fails {
        return Some(SinkFailure(Sns));
      }
      sns := sns + [n.payload];
      return None;
    }

    /** load_data_s3: upload this invocation's batch file to the bucket. */
    method LoadDataS3(fails: bool) returns (err: Option<Error>)
      modifies this
      ensures err == if fails then Some(UploadFailure) else None
      ensures Observe() == if fails then old(Observe()) else old(Observe()).(bucket := old(bucket) + [old(batch)])
    {
      if fails {
        return Some(UploadFailure);
      }
      bucket := bucket + [batch];
      return None;
    }

    /** One `if sink in os.environ` block of the publishing code: call the sink
        when it is enabled. Its effect is the first step of the fan-out over
        [s] + rest. */
    method Offer(enabled: set<Sink>, n: Normalized, failing: set<Sink>, s: Sink, ghost rest: seq<Sink>)
      returns (err: Option<Error>)
      requires !n.Ignored?
      modifies this
      ensures err.Some? ==> (err, Observe()) == Sinks.FanOut(enabled, old(Observe()), n, failing, [s] + rest)
      ensures err.None? ==> Sinks.FanOut(enabled, Observe(), n, failing, rest)
                            == Sinks.FanOut(enabled, old(Observe()), n, failing, [s] + rest)
    {
      assert ([s] + rest)[0] == s && ([s] + rest)[1..] == rest;
      if s !in enabled {
        return None;
      }
      var fails := s in failing;
      match s
      case Es => err := PublishEs(n, fails);
      case Batch => err := WriteBatch(n, fails);
      case Kinesis => err := PublishKinesisEvent(n, fails);
      case Msk => err := PublishMessage(n, fails);
      case Sns => err := PublishSnsEvent(n, fails);
    }

    /** The publishing block of one event: each enabled sink in turn, the
        first one that raises ending the block. */
    method FanOut(enabled: set<Sink>, n: Normalized, failing: set<Sink>) returns (err: Option<Error>)
      requires !n.Ignored?
      modifies this
      ensures (err, Observe()) == Sinks.FanOut(enabled, old(Observe()), n, failing, SINK_ORDER)
    {
      assert SINK_ORDER == [Es] + [Batch, Kinesis, Msk, Sns];
      err := Offer(enabled, n, failing, Es, [Batch, Kinesis, Msk, Sns]);
      if err.Some? { return; }
      assert [Batch, Kinesis, Msk, Sns] == [Batch] + [Kinesis, Msk, Sns];
      err := Offer(enabled, n, failing, Batch, [Kinesis, Msk, Sns]);
      if err.Some? { return; }
      assert [Kinesis, Msk, Sns] == [Kinesis] + [Msk, Sns];
      err := Offer(enabled, n, failing, Kinesis, [Msk, Sns]);
      if err.Some? { return; }
      assert [Msk, Sns] == [Msk] + [Sns];
      err := Offer(enabled, n, failing, Msk, [Sns]);
      if err.Some? { return; }
      assert [Sns] == [Sns] + [];
      err := Offer(enabled, n, failing, Sns, []);
    }

    /** The except clauses: on OperationFailure 136 store null first; then re-raise. */
    method HandleFailure(cfg: Config, e: Error, faults: Faults) returns (out: Outcome)
      modifies this
      ensures (out, Observe()) == Recover(cfg, old(Observe()), e, faults)
    {
      if e == OperationFailure(TOKEN_DATA_DELETED_CODE) {
        var err := StoreLastProcessedId(cfg.watchedDb, cfg.watchedCollection, None, Reset in faults.stores);
        if err.Some? {
          return Raised(err.value);
        }
      }
      return Raised(e);
    }

    /** One iteration of the while loop: i += 1, try_next, then the empty-poll
        policy, or normalise, publish, count and checkpoint. `stop` says the
        loop is left (by a break or an exception, `failure`). */
    method Iterate(cfg: Config, polls: seq<Poll>, last: Option<Token>, faults: Faults, iso: nat -> string,
                   at: nat, count: nat, resume: Option<Token>)
      returns (stop: bool, failure: Option<Error>, count': nat, resume': Option<Token>)
      requires at < |polls|
      modifies this
      ensures var st := LoopStep(cfg, polls, last, faults, iso, LoopState(old(Observe()), at, count, resume));
        && stop == st.Stop? && failure == (if stop then st.error else None)
        && StepState(st) == LoopState(Observe(), at + 1, count', resume')
    {
      stop, failure, count', resume' := false, None, count, resume;
      var p := polls[at];
      if p.Failed? {
        return true, Some(OperationFailure(p.code)), count, resume;
      }
      resume' := Some(p.token);
      if p.event.None? {
        stop := last.Some?;
        return;
      }
      stop, failure, count' := Process(cfg, polls, last, faults, iso, at, count, resume);
    }

    /** The event branch of an iteration: normalise, publish, count, checkpoint. */
    method Process(cfg: Config, polls: seq<Poll>, last: Option<Token>, faults: Faults, iso: nat -> string,
                   at: nat, count: nat, resume: Option<Token>)
      returns (stop: bool, failure: Option<Error>, count': nat)
      requires at < |polls| && IsEvent(polls[at])
      modifies this
      ensures var st := LoopStep(cfg, polls, last, faults, iso, LoopState(old(Observe()), at, count, resume));
        && stop == st.Stop? && failure == (if stop then st.error else None)
        && StepState(st) == LoopState(Observe(), at + 1, count', Some(polls[at].token))
    {
      var token := polls[at].token;
      var nr := Normalize(polls[at].event.value, iso);
      if nr.Err? {
        return true, Some(nr.error), count;
      }
      if !nr.value.Ignored? {
        var err := FanOut(cfg.enabled, nr.value, faults.FailingAt(at));
        if err.Some? {
          return true, err, count;
        }
      }
      count' := count + 1;
      failure := Sync(cfg, faults, at, count', token);
      stop := failure.Some?;
    }

    /** The checkpoint after an event: store its token when the batch sink is
        off and events_processed has reached STATE_SYNC_COUNT. */
    method Sync(cfg: Config, faults: Faults, at: nat, count: nat, token: Token) returns (err: Option<Error>)
      modifies this
      ensures var st := Checkpoint(cfg, faults, at, LoopState(old(Observe()), at + 1, count, Some(token)), token);
        && err == (if st.Stop? then st.error else None) && (st.Stop? ==> err.Some?)
        && Observe() == StepState(st).w
    {
      err := None;
      if count >= cfg.stateSyncCount && Batch !in cfg.enabled {
        err := StoreLastProcessedId(cfg.watchedDb, cfg.watchedCollection, Some(token), InLoop(at) in faults.stores);
      }
    }

    /** The else clause: with events processed, upload the batch file (batch
        sink on) and commit the stream's resume token; otherwise 201. */
    method Conclude(cfg: Config, count: nat, resume: Option<Token>, faults: Faults) returns (out: Outcome)
      modifies this
      ensures (out, Observe()) == Finish(cfg, LoopState(old(Observe()), 0, count, resume), faults)
    {
      if count == 0 {
        return Ok201;
      }
      if Batch in cfg.enabled {
        var err := LoadDataS3(faults.upload);
        if err.Some? {
          return Raised(err.value);
        }
      }
      var err := StoreLastProcessedId(cfg.watchedDb, cfg.watchedCollection, resume, Commit in faults.stores);
      if err.Some? {
        return Raised(err.value);
      }
      return Ok200(count);
    }

    /** Set-up: open the batch file (batch sink on), then get_last_processed_id. */
    method Begin(cfg: Config, faults: Faults) returns (r: Result<Option<Token>, Error>)
      modifies this
      ensures match Start(cfg, old(Observe()), faults)
        case Err(e) => r == Err(e) && Observe() == Opened(cfg, old(Observe()))
        case Ok((last, w)) => r == Ok(last) && Observe() == w
    {
      if Batch in cfg.enabled {
        batch := [];
      }
      r := GetLastProcessedId(cfg.watchedDb, cfg.watchedCollection, faults.readFails);
    }

    /** The while loop over an open change stream: at most MAX_LOOP polls,
        while the stream is alive. */
    method WatchLoop(cfg: Config, polls: seq<Poll>, last: Option<Token>, faults: Faults, iso: nat -> string)
      returns (failure: Option<Error>, i: nat, count: nat, resume: Option<Token>)
      modifies this
      ensures (failure, LoopState(Observe(), i, count, resume)) == Stream(cfg, polls, last, faults, iso, old(Observe()))
    {
      i, count, resume := 0, 0, last;
      failure := None;
      ghost var result := Stream(cfg, polls, last, faults, iso, Observe());
      while i < |polls| && i < cfg.maxLoop
        invariant i <= |polls|
        invariant Loop(cfg, polls, last, faults, iso, LoopState(Observe(), i, count, resume)) == result
        invariant failure.None?
        decreases |polls| - i
      {
        ghost var before := LoopState(Observe(), i, count, resume);
        assert Loop(cfg, polls, last, faults, iso, before)
            == match LoopStep(cfg, polls, last, faults, iso, before)
               case Continue(s') => Loop(cfg, polls, last, faults, iso, s')
               case Stop(e, s') => (e, s');
        var stop;
        stop, failure, count, resume := Iterate(cfg, polls, last, faults, iso, i, count, resume);
        i := i + 1;
        if stop {
          break;
        }
      }
    }

    /** lambda_handler: set-up, the polling loop, then the except or else clause. */
    method Handle(cfg: Config, feed: Feed, faults: Faults, iso: nat -> string) returns (out: Outcome)
      modifies this
      ensures (out, Observe()) == Invoke(cfg, old(Observe()), feed, faults, iso)
    {
      var read := Begin(cfg, faults);
      if read.Err? {
        return Raised(read.error);
      }
      if feed.openFailure.Some? {
        out := HandleFailure(cfg, OperationFailure(feed.openFailure.value), faults);
        return;
      }
      var failure, i, count, resume := WatchLoop(cfg, feed.polls, read.value, faults, iso);
      if failure.Some? {
        out := HandleFailure(cfg, failure.value, faults);
      } else {
        out := Conclude(cfg, count, resume, faults);
      }
    }
  }

}

/** Deployment configuration, sinks and the exceptions the handler can raise. */
module Settings {
  /** The downstream sinks, each switched on by an environment variable:
      ES_INDEX_NAME, BUCKET_NAME, KINESIS_STREAM, MSK_BOOTSTRAP_SRV, SNS_TOPIC_ARN_EVENT. */
  datatype Sink = Es | Batch | Kinesis | Msk | Sns

  /** The order in which the handler fans an event out. */
  const SINK_ORDER: seq<Sink> := [Es, Batch, Kinesis, Msk, Sns]

  /** The environment the handler reads. `maxLoop` and `stateSyncCount` are the
      int() of MAX_LOOP and STATE_SYNC_COUNT, so they may be zero or negative. */
  datatype Config = Config(
    watchedDb: string,
    watchedCollection: string,
    maxLoop: int,
    stateSyncCount: int,
    enabled: set<Sink>)

  /** The OperationFailure code for "data for the resume token has been deleted". */
  const TOKEN_DATA_DELETED_CODE: int := 136

  /** A resume token. Tokens are totally ordered positions in the change stream. */
  type Token = nat

  /** What an invocation can raise. */
  datatype Error =
    | OperationFailure(code: int)  // raised by the change stream
    | KeyError                     // a missing dictionary key
    | AttributeError               // a null full document for an insert or update
    | SinkFailure(sink: Sink)      // a delivery to one sink raised
    | StoreFailure                 // the state collection could not be read or written
    | UploadFailure                // the batch file could not be uploaded to S3
}

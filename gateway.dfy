/**
 * The DataFed command gateway (df.command) seen from this layer: a command
 * string goes in, and either a typed reply comes back or an exception is
 * raised.  The gateway is scripted: its answer to a command may depend on
 * every command issued before it.  It also provides the record type that
 * the layer builds from a RecordDataReply.
 */
module DataFed {
  import opened Common

  /** The fields of SDMS RecordData that DataRecord copies. */
  datatype RecordData = RecordData(
    ct: int, ut: int, dt: int,
    owner: string, creator: string, source: string,
    size: int, id: string, title: string, alias: string, repoId: string,
    metadata: string)

  /** One entry of the xfr list of a data put reply. */
  datatype Transfer = Transfer(status: int)

  /** What a reply carries besides its kind and error text. */
  datatype Payload =
    | NoPayload
    | Listing(items: seq<string>, offset: int, total: int)
    | Records(data: seq<RecordData>)
    | Transfers(xfr: seq<Transfer>)

  /** The name the gateway reports as message[1]. */
  datatype ReplyKind = ListingReply | RecordDataReply | OtherReply

  datatype Reply = Reply(kind: ReplyKind, errMsg: string, payload: Payload)

  /** What one df.command call does: answer, or raise an exception with a message. */
  datatype Response = Answered(reply: Reply) | Raised(msg: string)

  /** What a sequence of gateway calls leaves behind: the command log and the outcome. */
  datatype Run<+T> = Run(log: seq<string>, result: Result<T>)

  /**
   * The gateway: every command issued is appended to the log, and the
   * response is the script applied to the log that ends with that command.
   */
  class Gateway {
    var log: seq<string>
    const respond: seq<string> -> Response

    constructor (respond: seq<string> -> Response)
      ensures log == [] && this.respond == respond
    {
      log := [];
      this.respond := respond;
    }

    /** df.command(com) */
    method Command(com: string) returns (r: Response)
      modifies this
      ensures log == old(log) + [com]
      ensures r == respond(log)
    {
      log := log + [com];
      r := respond(log);
    }
  }

  /**
   * DataRecord: the record view built from a RecordDataReply.  Timestamps
   * stay epoch integers and the metadata stays its JSON text.
   */
  datatype DataRecord = DataRecord(
    createTime: int, updateTime: int, uploadTime: int,
    owner: string, creator: string, source: string,
    size: int, id: string, title: string, alias: string, repoId: string,
    metadata: string)

  /** The gateway fields a DataRecord holds, read back. */
  function Fields(rec: DataRecord): RecordData {
    RecordData(rec.createTime, rec.updateTime, rec.uploadTime, rec.owner, rec.creator,
               rec.source, rec.size, rec.id, rec.title, rec.alias, rec.repoId, rec.metadata)
  }

  /**
   * DataRecord.__init__: copies every field of message[0].data[0]; a reply
   * without a first data element raises.
   */
  function RecordFromReply(reply: Reply): (r: Result<DataRecord>)
    ensures r.Ok? <==> reply.payload.Records? && |reply.payload.data| > 0
    ensures r.Ok? ==> Fields(r.value) == reply.payload.data[0]
    ensures r.Err? ==> r.error == MalformedReply("data")
  {
    if reply.payload.Records? && |reply.payload.data| > 0 then
      var d := reply.payload.data[0];
      Ok(DataRecord(d.ct, d.ut, d.dt, d.owner, d.creator, d.source, d.size, d.id, d.title,
                    d.alias, d.repoId, d.metadata))
    else
      Err(MalformedReply("data"))
  }

  /**
   * The reply of create_df_record and data_update: a RecordDataReply becomes
   * its record, any other kind a ValueError with the gateway's error text,
   * and a raised exception passes through.
   */
  function RecordOutcome(resp: Response): (r: Result<DataRecord>)
    ensures resp.Raised? ==> r == Err(GatewayError(resp.msg))
    ensures resp.Answered? && resp.reply.kind != RecordDataReply ==>
              r == Err(ValueError(resp.reply.errMsg))
    ensures resp.Answered? && resp.reply.kind == RecordDataReply ==> r == RecordFromReply(resp.reply)
    ensures r.Ok? ==> resp.Answered? && resp.reply.kind == RecordDataReply
                      && Fields(r.value) == resp.reply.payload.data[0]
  {
    match resp
    case Raised(m) => Err(GatewayError(m))
    case Answered(reply) =>
      if reply.kind == RecordDataReply then RecordFromReply(reply) else Err(ValueError(reply.errMsg))
  }
}

/**
 * put_df_data: uploads a file into a record with one "data put" command.
 * The loop around the call is meant to retry once after setting the Globus
 * endpoint, but its unconditional break ends it after the first call.
 * PutDfData models the code as written; PutDfDataRetrying is the loop with
 * the break moved into the successful branch.
 */
module Upload {
  import opened Common
  import opened PyStrings
  import opened DataFed
  import opened Endpoint

  /** The exception text with which the gateway reports a missing default endpoint. */
  const NoEndpoint := "No endpoint set"

  /** The transfer status of a completed upload. */
  const TransferSucceeded := 3

  function PutCommand(recordId: string, dataPath: string, wait: bool): string {
    "data put" + (if wait then " --wait" else "") + " " + recordId + " \"" + dataPath + "\""
  }

  function PutFailedMsg(recordId: string): string {
    "Something went wrong when putting data for record: " + recordId
  }

  function TransferFailedMsg(recordId: string): string {
    "Something went wrong with the transfer for record: " + recordId
  }

  /**
   * The checks on the reply: it must carry a first transfer, and when
   * waiting, that transfer must have succeeded.
   */
  function TransferOutcome(reply: Reply, recordId: string, wait: bool): (r: Result<Reply>)
    ensures r.Ok? <==> reply.payload.Transfers? && |reply.payload.xfr| > 0
                       && (!wait || reply.payload.xfr[0].status == TransferSucceeded)
    ensures r.Ok? ==> r.value == reply
    ensures reply.payload.Transfers? && |reply.payload.xfr| > 0 && r.Err? ==>
              r.error == ValueError(TransferFailedMsg(recordId))
  {
    if !reply.payload.Transfers? || |reply.payload.xfr| == 0 then Err(MalformedReply("xfr"))
    else if wait && reply.payload.xfr[0].status != TransferSucceeded then Err(ValueError(TransferFailedMsg(recordId)))
    else Ok(reply)
  }

  /**
   * The calls put_df_data makes as written: one put; after a "No endpoint
   * set" exception one endpoint command, and then the failure that message
   * is None.
   */
  function PutRun(respond: seq<string> -> Response, log: seq<string>, recordId: string, dataPath: string,
                  wait: bool, hostname: string): Run<Reply>
  {
    var l := log + [PutCommand(recordId, dataPath, wait)];
    match respond(l)
    case Answered(reply) => Run(l, TransferOutcome(reply, recordId, wait))
    case Raised(m) =>
      if m != NoEndpoint then Run(l, Err(GatewayError(m)))
      else
        var ep := EndpointRun(respond, l, hostname);
        if ep.result.Err? then Run(ep.log, Err(ep.result.error))
        else Run(ep.log, Err(ValueError(PutFailedMsg(recordId))))
  }

  /** put_df_data(record_id, data_path, wait) as written; hostname stands for socket.gethostname(). */
  method PutDfData(gw: Gateway, recordId: string, dataPath: string, wait: bool, hostname: string)
    returns (r: Result<Reply>)
    modifies gw
    ensures Run(gw.log, r) == PutRun(gw.respond, old(gw.log), recordId, dataPath, wait, hostname)
  {
    var com := "data put";
    if wait {
      com := com + " --wait";
    }
    com := com + " " + recordId;
    com := com + " \"" + dataPath + "\"";
    assert com == PutCommand(recordId, dataPath, wait);
    var attempts := 0;
    var message: Option<Reply> := None;
    // The unconditional break at the end of the body, as a flag the guard tests.
    var stopped := false;
    while attempts < 2 && !stopped
      invariant !stopped ==> attempts == 0 && message.None? && gw.log == old(gw.log)
      invariant stopped ==> Run(gw.log, AfterLoop(message, recordId, wait))
                            == PutRun(gw.respond, old(gw.log), recordId, dataPath, wait, hostname)
      decreases 2 - attempts, if stopped then 0 else 1
    {
      var resp := gw.Command(com);
      if resp.Raised? {
        if resp.msg == NoEndpoint {
          var ep := SetGlobusEndpoint(gw, hostname);
          if ep.Err? {
            return Err(ep.error);
          }
        } else {
          return Err(GatewayError(resp.msg));
        }
        attempts := attempts + 1;
      } else {
        message := Some(resp.reply);
      }
      stopped := true;
    }
    if message.None? {
      return Err(ValueError("Something went wrong when putting data for record: " + recordId));
    }
    r := TransferOutcome(message.value, recordId, wait);
  }

  /** What put_df_data does after its loop, given the reply it kept, if any. */
  function AfterLoop(message: Option<Reply>, recordId: string, wait: bool): Result<Reply> {
    if message.None? then Err(ValueError(PutFailedMsg(recordId)))
    else TransferOutcome(message.value, recordId, wait)
  }

  /**
   * The calls of the corrected loop from attempt `attempts` on: a put, and
   * after a "No endpoint set" exception the endpoint command and a new
   * attempt, at most two attempts in all.
   */
  function RetryRun(respond: seq<string> -> Response, log: seq<string>, recordId: string, dataPath: string,
                    wait: bool, hostname: string, attempts: nat): Run<Reply>
    decreases 2 - attempts
  {
    if attempts >= 2 then Run(log, Err(ValueError(PutFailedMsg(recordId))))
    else
      var l := log + [PutCommand(recordId, dataPath, wait)];
      match respond(l)
      case Answered(reply) => Run(l, TransferOutcome(reply, recordId, wait))
      case Raised(m) =>
        if m != NoEndpoint then Run(l, Err(GatewayError(m)))
        else
          var ep := EndpointRun(respond, l, hostname);
          if ep.result.Err? then Run(ep.log, Err(ep.result.error))
          else RetryRun(respond, ep.log, recordId, dataPath, wait, hostname, attempts + 1)
  }

  /** put_df_data with the break taken only once a reply has arrived. */
  method PutDfDataRetrying(gw: Gateway, recordId: string, dataPath: string, wait: bool, hostname: string)
    returns (r: Result<Reply>)
    modifies gw
    ensures Run(gw.log, r) == RetryRun(gw.respond, old(gw.log), recordId, dataPath, wait, hostname, 0)
  {
    var com := "data put";
    if wait {
      com := com + " --wait";
    }
    com := com + " " + recordId;
    com := com + " \"" + dataPath + "\"";
    assert com == PutCommand(recordId, dataPath, wait);
    var attempts := 0;
    var message: Option<Reply> := None;
    while attempts < 2
      invariant 0 <= attempts <= 2 && message.None?
      invariant RetryRun(gw.respond, old(gw.log), recordId, dataPath, wait, hostname, 0)
                == RetryRun(gw.respond, gw.log, recordId, dataPath, wait, hostname, attempts)
      decreases 2 - attempts
    {
      ghost var before := gw.log;
      var resp := gw.Command(com);
      if resp.Answered? {
        message := Some(resp.reply);
        assert RetryRun(gw.respond, before, recordId, dataPath, wait, hostname, attempts)
               == Run(gw.log, TransferOutcome(resp.reply, recordId, wait));
        break;
      }
      if resp.msg != NoEndpoint {
        return Err(GatewayError(resp.msg));
      }
      var ep := SetGlobusEndpoint(gw, hostname);
      if ep.Err? {
        return Err(ep.error);
      }
      attempts := attempts + 1;
    }
    if message.None? {
      return Err(ValueError("Something went wrong when putting data for record: " + recordId));
    }
    r := TransferOutcome(message.value, recordId, wait);
  }

  // ---------------------------------------------------------------------
  // What put_df_data does as written
  // ---------------------------------------------------------------------

  /**
   * The gateway sees exactly one put command; the only other command is the
   * endpoint command, sent exactly when the put raised "No endpoint set"
   * and the host is known.
   */
  lemma PutCallsGatewayOnce(respond: seq<string> -> Response, log: seq<string>, recordId: string,
                            dataPath: string, wait: bool, hostname: string)
    ensures var run := PutRun(respond, log, recordId, dataPath, wait, hostname);
            var l := log + [PutCommand(recordId, dataPath, wait)];
            && (run.log == l || run.log == l + [SetEndpointCommand(ResolveEndpoint(hostname).value)])
            && (run.log != l <==> respond(l) == Raised(NoEndpoint) && ResolveEndpoint(hostname).Ok?)
  {
  }

  /**
   * A "No endpoint set" exception always ends in failure: the error of
   * setting the endpoint, or else the ValueError for the missing reply,
   * even when the endpoint was set.
   */
  lemma NoEndpointNeverRetries(respond: seq<string> -> Response, log: seq<string>, recordId: string,
                               dataPath: string, wait: bool, hostname: string)
    requires respond(log + [PutCommand(recordId, dataPath, wait)]) == Raised(NoEndpoint)
    ensures var run := PutRun(respond, log, recordId, dataPath, wait, hostname);
            var ep := EndpointRun(respond, log + [PutCommand(recordId, dataPath, wait)], hostname);
            && run.result.Err?
            && (ep.result.Ok? ==> run.result == Err(ValueError(PutFailedMsg(recordId))))
  {
  }

  /** Any other exception from the put passes through, and nothing else is sent. */
  lemma OtherExceptionsPropagate(respond: seq<string> -> Response, log: seq<string>, recordId: string,
                                 dataPath: string, wait: bool, hostname: string, m: string)
    requires respond(log + [PutCommand(recordId, dataPath, wait)]) == Raised(m) && m != NoEndpoint
    ensures PutRun(respond, log, recordId, dataPath, wait, hostname)
              == Run(log + [PutCommand(recordId, dataPath, wait)], Err(GatewayError(m)))
  {
  }

  /**
   * When the put is answered, the result is the reply exactly when it carries
   * a transfer and, with wait, that transfer has status 3.
   */
  lemma AnsweredPutChecksTransfer(respond: seq<string> -> Response, log: seq<string>, recordId: string,
                                  dataPath: string, wait: bool, hostname: string)
    requires respond(log + [PutCommand(recordId, dataPath, wait)]).Answered?
    ensures var reply := respond(log + [PutCommand(recordId, dataPath, wait)]).reply;
            var run := PutRun(respond, log, recordId, dataPath, wait, hostname);
            && (run.result == Ok(reply) <==>
                  reply.payload.Transfers? && |reply.payload.xfr| > 0
                  && (!wait || reply.payload.xfr[0].status == TransferSucceeded))
  {
  }

  /** The put command names the record, then the quoted path; --wait comes first when asked for. */
  lemma PutCommandShape(recordId: string, dataPath: string)
    ensures PutCommand(recordId, dataPath, true) == "data put --wait " + recordId + " \"" + dataPath + "\""
    ensures PutCommand(recordId, dataPath, false) == "data put " + recordId + " \"" + dataPath + "\""
    ensures EndsWith(PutCommand(recordId, dataPath, true), "\"" + dataPath + "\"")
  {
    ConcatFrame("data put --wait " + recordId + " ", "", "\"" + dataPath + "\"");
    assert PutCommand(recordId, dataPath, true) == "data put --wait " + recordId + " " + "" + ("\"" + dataPath + "\"");
  }

  // ---------------------------------------------------------------------
  // The corrected loop
  // ---------------------------------------------------------------------

  /**
   * After "No endpoint set" and a successful endpoint command the corrected
   * loop puts again and ends with the second reply's transfer check.
   */
  lemma RetryingPutsAgain(respond: seq<string> -> Response, log: seq<string>, recordId: string,
                          dataPath: string, wait: bool, hostname: string)
    requires respond(log + [PutCommand(recordId, dataPath, wait)]) == Raised(NoEndpoint)
    requires ResolveEndpoint(hostname).Ok?
    requires var com := PutCommand(recordId, dataPath, wait);
             var ep := SetEndpointCommand(ResolveEndpoint(hostname).value);
             respond(log + [com, ep]).Answered? && respond(log + [com, ep, com]).Answered?
    ensures var com := PutCommand(recordId, dataPath, wait);
            var l := log + [com, SetEndpointCommand(ResolveEndpoint(hostname).value), com];
            RetryRun(respond, log, recordId, dataPath, wait, hostname, 0)
              == Run(l, TransferOutcome(respond(l).reply, recordId, wait))
  {
    var com := PutCommand(recordId, dataPath, wait);
    var ep := SetEndpointCommand(ResolveEndpoint(hostname).value);
    assert log + [com] + [ep] == log + [com, ep];
    assert log + [com, ep] + [com] == log + [com, ep, com];
  }

  /** When no retry is needed, the corrected loop behaves exactly as the code as written. */
  lemma RetryAgreesWhenNoRetryIsNeeded(respond: seq<string> -> Response, log: seq<string>, recordId: string,
                                       dataPath: string, wait: bool, hostname: string)
    requires respond(log + [PutCommand(recordId, dataPath, wait)]) != Raised(NoEndpoint)
    ensures RetryRun(respond, log, recordId, dataPath, wait, hostname, 0)
              == PutRun(respond, log, recordId, dataPath, wait, hostname)
  {
  }

  /**
   * From attempt `attempts` on, the corrected loop only extends the log, by at
   * most a put and an endpoint command per remaining attempt.
   */
  lemma {:induction false} RetryExtendsLog(respond: seq<string> -> Response, log: seq<string>,
                                           recordId: string, dataPath: string, wait: bool,
                                           hostname: string, attempts: nat)
    requires attempts <= 2
    ensures var run := RetryRun(respond, log, recordId, dataPath, wait, hostname, attempts);
            && |log| <= |run.log| <= |log| + 2 * (2 - attempts)
            && run.log[..|log|] == log
    decreases 2 - attempts
  {
    if attempts < 2 {
      var l := log + [PutCommand(recordId, dataPath, wait)];
      if respond(l).Raised? && respond(l).msg == NoEndpoint {
        var ep := EndpointRun(respond, l, hostname);
        if ep.result.Ok? {
          RetryExtendsLog(respond, ep.log, recordId, dataPath, wait, hostname, attempts + 1);
          var run := RetryRun(respond, ep.log, recordId, dataPath, wait, hostname, attempts + 1);
          assert run.log[..|log|] == run.log[..|ep.log|][..|log|];
        }
      }
    }
  }

  /**
   * From attempt `attempts` on, the corrected loop sends the put at most once
   * per remaining attempt: at most twice in all.
   */
  lemma {:induction false} RetryPutsAtMostTwice(respond: seq<string> -> Response, log: seq<string>,
                                                recordId: string, dataPath: string, wait: bool,
                                                hostname: string, attempts: nat)
    requires attempts <= 2
    ensures var run := RetryRun(respond, log, recordId, dataPath, wait, hostname, attempts);
            |log| <= |run.log| && multiset(run.log[|log|..])[PutCommand(recordId, dataPath, wait)] <= 2 - attempts
    decreases 2 - attempts
  {
    RetryExtendsLog(respond, log, recordId, dataPath, wait, hostname, attempts);
    var run := RetryRun(respond, log, recordId, dataPath, wait, hostname, attempts);
    var put := PutCommand(recordId, dataPath, wait);
    if attempts < 2 {
      var l := log + [put];
      if respond(l).Raised? && respond(l).msg == NoEndpoint && ResolveEndpoint(hostname).Ok? {
        var uuid := ResolveEndpoint(hostname).value;
        var epc := SetEndpointCommand(uuid);
        EndpointCommandIsNotPut(uuid, recordId, dataPath, wait);
        var next := log + [put, epc];
        if respond(next).Answered? {
          RetryGoesOnAfterEndpoint(respond, log, recordId, dataPath, wait, hostname, attempts);
          RetryExtendsLog(respond, next, recordId, dataPath, wait, hostname, attempts + 1);
          RetryPutsAtMostTwice(respond, next, recordId, dataPath, wait, hostname, attempts + 1);
          assert run == RetryRun(respond, next, recordId, dataPath, wait, hostname, attempts + 1);
          TailAfterTwo(log, put, epc, run.log);
        } else {
          RetryStopsAfterEndpoint(respond, log, recordId, dataPath, wait, hostname, attempts);
          assert run.log[|log|..] == [put, epc];
        }
      } else {
        RetryStopsAfterPut(respond, log, recordId, dataPath, wait, hostname, attempts);
        assert run.log[|log|..] == [put];
      }
    }
  }

  /** Proof helper: unless the put asks for an endpoint that can be resolved, the attempt ends the run. */
  lemma RetryStopsAfterPut(respond: seq<string> -> Response, log: seq<string>, recordId: string,
                           dataPath: string, wait: bool, hostname: string, attempts: nat)
    requires attempts < 2
    requires var l := log + [PutCommand(recordId, dataPath, wait)];
             !(respond(l).Raised? && respond(l).msg == NoEndpoint && ResolveEndpoint(hostname).Ok?)
    ensures RetryRun(respond, log, recordId, dataPath, wait, hostname, attempts).log
              == log + [PutCommand(recordId, dataPath, wait)]
  {
  }

  /** Proof helper: after "No endpoint set" and an answered endpoint command, the next attempt starts. */
  lemma RetryGoesOnAfterEndpoint(respond: seq<string> -> Response, log: seq<string>, recordId: string,
                                 dataPath: string, wait: bool, hostname: string, attempts: nat)
    requires attempts < 2
    requires var l := log + [PutCommand(recordId, dataPath, wait)];
             && respond(l).Raised? && respond(l).msg == NoEndpoint && ResolveEndpoint(hostname).Ok?
             && respond(log + [PutCommand(recordId, dataPath, wait), SetEndpointCommand(ResolveEndpoint(hostname).value)]).Answered?
    ensures var next := log + [PutCommand(recordId, dataPath, wait), SetEndpointCommand(ResolveEndpoint(hostname).value)];
            RetryRun(respond, log, recordId, dataPath, wait, hostname, attempts)
              == RetryRun(respond, next, recordId, dataPath, wait, hostname, attempts + 1)
  {
    var l := log + [PutCommand(recordId, dataPath, wait)];
    assert l + [SetEndpointCommand(ResolveEndpoint(hostname).value)]
        == log + [PutCommand(recordId, dataPath, wait), SetEndpointCommand(ResolveEndpoint(hostname).value)];
  }

  /** Proof helper: after "No endpoint set" and a failed endpoint command, the run ends. */
  lemma RetryStopsAfterEndpoint(respond: seq<string> -> Response, log: seq<string>, recordId: string,
                                dataPath: string, wait: bool, hostname: string, attempts: nat)
    requires attempts < 2
    requires var l := log + [PutCommand(recordId, dataPath, wait)];
             && respond(l).Raised? && respond(l).msg == NoEndpoint && ResolveEndpoint(hostname).Ok?
             && !respond(log + [PutCommand(recordId, dataPath, wait), SetEndpointCommand(ResolveEndpoint(hostname).value)]).Answered?
    ensures RetryRun(respond, log, recordId, dataPath, wait, hostname, attempts).log
              == log + [PutCommand(recordId, dataPath, wait), SetEndpointCommand(ResolveEndpoint(hostname).value)]
  {
    var l := log + [PutCommand(recordId, dataPath, wait)];
    assert l + [SetEndpointCommand(ResolveEndpoint(hostname).value)]
        == log + [PutCommand(recordId, dataPath, wait), SetEndpointCommand(ResolveEndpoint(hostname).value)];
  }

  /** Proof helper: a log that extends `log + [a, b]` counts `a` once more than its part after `b`. */
  lemma TailAfterTwo(log: seq<string>, a: string, b: string, full: seq<string>)
    requires a != b && |log| + 2 <= |full| && full[..|log| + 2] == log + [a, b]
    ensures multiset(full[|log|..])[a] == 1 + multiset(full[|log| + 2..])[a]
  {
    assert full[|log|..] == [a, b] + full[|log| + 2..];
  }

  /** The endpoint command is never a put command: they start with 'e' and 'd'. */
  lemma EndpointCommandIsNotPut(uuid: string, recordId: string, dataPath: string, wait: bool)
    ensures SetEndpointCommand(uuid) != PutCommand(recordId, dataPath, wait)
  {
    var e, p := SetEndpointCommand(uuid), PutCommand(recordId, dataPath, wait);
    assert e == "ep default set " + uuid;
    assert e[0] == 'e';
    assert p == "data put" + ((if wait then " --wait" else "") + " " + recordId + " \"" + dataPath + "\"");
    assert p[0] == 'd';
    DifferAtStart(e, p);
  }

  /** A gateway whose first command raises "No endpoint set" and which answers every later one with a finished transfer. */
  function EndpointFirstScript(log: seq<string>): Response {
    if |log| == 1 then Raised(NoEndpoint)
    else Answered(Reply(OtherReply, "", Transfers([Transfer(TransferSucceeded)])))
  }

  /**
   * On a known host whose first put fails for lack of an endpoint, the code
   * as written raises although the endpoint is set and a second put would
   * succeed; the corrected loop returns that second reply.
   */
  lemma NoRetryCounterexample()
    ensures PutRun(EndpointFirstScript, [], "r1", "f.h5", true, "mac109728").result
              == Err(ValueError(PutFailedMsg("r1")))
    ensures RetryRun(EndpointFirstScript, [], "r1", "f.h5", true, "mac109728", 0).result
              == Ok(Reply(OtherReply, "", Transfers([Transfer(TransferSucceeded)])))
  {
    assert ResolveEndpoint("mac109728") == Ok(HostToUuid["mac109728"]);
    var com := PutCommand("r1", "f.h5", true);
    var l := [com, SetEndpointCommand(HostToUuid["mac109728"])];
    assert [] + [com] == [com];
    assert [com] + [SetEndpointCommand(HostToUuid["mac109728"])] == l;
    assert |l + [com]| == 3;
  }
}

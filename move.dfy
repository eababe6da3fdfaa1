/**
 * move_to_collection: links the ids to the destination collection and
 * unlinks them from the source, ten ids per command, batch by batch.  A
 * reply that is not a ListingReply is tolerated when its error text says
 * the link already exists or the item does not exist; any other aborts.
 */
module Move {
  import opened Common
  import opened PyStrings
  import opened DataFed

  const BatchSize: nat := 10

  function Min(a: int, b: int): int { if a < b then a else b }

  /** The slices ids[s:s + 10] for s = 0, 10, 20, ... below the length. */
  function Batches<T>(xs: seq<T>): seq<seq<T>>
    decreases |xs|
  {
    if xs == [] then [] else [xs[..Min(BatchSize, |xs|)]] + Batches(xs[Min(BatchSize, |xs|)..])
  }

  function Flatten<T>(bs: seq<seq<T>>): seq<T> {
    if bs == [] then [] else bs[0] + Flatten(bs[1..])
  }

  /** Putting the batches back together gives the ids, in order. */
  lemma {:induction false} BatchesFlatten<T>(xs: seq<T>)
    ensures Flatten(Batches(xs)) == xs
    decreases |xs|
  {
    if xs != [] {
      var m := Min(BatchSize, |xs|);
      BatchesFlatten(xs[m..]);
      assert Batches(xs)[1..] == Batches(xs[m..]);
      assert xs[..m] + xs[m..] == xs;
    }
  }

  /**
   * There are ceil(n / 10) batches; batch k is ids[10k : 10k + 10], so every
   * batch holds between one and ten ids.
   */
  lemma {:induction false} BatchesShape<T>(xs: seq<T>)
    ensures |Batches(xs)| == (|xs| + 9) / 10
    ensures forall k :: 0 <= k < |Batches(xs)| ==>
              10 * k < |xs| && Batches(xs)[k] == xs[10 * k..Min(10 * k + 10, |xs|)]
    decreases |xs|
  {
    if xs != [] {
      var m := Min(BatchSize, |xs|);
      var rest := xs[m..];
      BatchesShape(rest);
      var bs := Batches(xs);
      assert bs == [xs[..m]] + Batches(rest);
      forall k | 1 <= k < |bs|
        ensures 10 * k < |xs| && bs[k] == xs[10 * k..Min(10 * k + 10, |xs|)]
      {
        assert bs[k] == Batches(rest)[k - 1];
        assert m == 10;
        var lo, hi := 10 * (k - 1), Min(10 * (k - 1) + 10, |rest|);
        assert lo + 10 == 10 * k && hi + 10 == Min(10 * k + 10, |xs|);
        assert rest == xs[10..];
        SliceOfSlice(xs, 10, lo, hi);
      }
    }
  }

  /** A slice of a suffix is a slice of the whole, shifted. */
  lemma SliceOfSlice<T>(xs: seq<T>, a: nat, lo: nat, hi: nat)
    requires a <= |xs| && lo <= hi <= |xs| - a
    ensures xs[a..][lo..hi] == xs[a + lo..a + hi]
  {
    forall i | 0 <= i < hi - lo ensures xs[a..][lo..hi][i] == xs[a + lo..a + hi][i] {
      assert xs[a..][lo..hi][i] == xs[a + lo + i];
    }
  }

  /** Every element is a str, so ' '.join succeeds. */
  predicate IsStrs(b: seq<PyValue>) {
    forall i :: 0 <= i < |b| ==> b[i].PyStr?
  }

  function Strs(b: seq<PyValue>): (r: seq<string>)
    requires IsStrs(b)
    ensures |r| == |b| && forall i :: 0 <= i < |b| ==> r[i] == b[i].s
  {
    seq(|b|, i requires 0 <= i < |b| => b[i].s)
  }

  const IdsTypeMsg := "ids must either be a string or a list of strings denoting record or collection ids"

  /** The TypeError ' '.join raises for an element that is not a str. */
  const JoinError := TypeError("sequence item: expected str instance")

  const SomethingWrong := ValueError("Something went wrong: \treceived meessage: ")

  /** The error texts that _send_command only warns about. */
  const LinkedMarker := "already linked to "
  const MissingMarker := "does not exist"

  /**
   * _send_command's verdict on a response: a ListingReply, or another reply
   * whose error text holds one of the two markers, is returned; any other
   * reply is a ValueError and an exception passes through.
   */
  function SendOutcome(resp: Response): (r: Result<Reply>)
    ensures r.Ok? <==>
              resp.Answered? && (resp.reply.kind == ListingReply
                                 || Contains(resp.reply.errMsg, LinkedMarker)
                                 || Contains(resp.reply.errMsg, MissingMarker))
    ensures r.Ok? ==> r.value == resp.reply
    ensures resp.Answered? && r.Err? ==> r.error == SomethingWrong
  {
    match resp
    case Raised(m) => Err(GatewayError(m))
    case Answered(reply) =>
      if reply.kind == ListingReply then Ok(reply)
      else if Contains(reply.errMsg, LinkedMarker) then Ok(reply)
      else if Contains(reply.errMsg, MissingMarker) then Ok(reply)
      else Err(SomethingWrong)
  }

  /** _send_command(com) */
  method SendCommand(gw: Gateway, com: string) returns (r: Result<Reply>)
    modifies gw
    ensures gw.log == old(gw.log) + [com]
    ensures r == SendOutcome(gw.respond(gw.log))
  {
    var message := gw.Command(com);
    r := SendOutcome(message);
  }

  function AddCommand(line: string, dest: string): string { "coll add " + line + " " + dest }
  function RemoveCommand(line: string, source: string): string { "coll remove " + line + " " + source }

  /**
   * The calls for the remaining batches: per batch the add command and then
   * the remove command, stopping at the first response that is not
   * tolerated.  `last` is the reply kept in mesg so far.
   */
  function RunMove(respond: seq<string> -> Response, log: seq<string>, bs: seq<seq<PyValue>>,
                   source: string, dest: string, last: Option<Reply>): Run<Reply>
    decreases |bs|
  {
    if bs == [] then
      Run(log, if last.None? then Err(UnboundLocalError("mesg")) else Ok(last.value))
    else if !IsStrs(bs[0]) then Run(log, Err(JoinError))
    else
      var line := Join(" ", Strs(bs[0]));
      var l1 := log + [AddCommand(line, dest)];
      match SendOutcome(respond(l1))
      case Err(e) => Run(l1, Err(e))
      case Ok(_) =>
        var l2 := l1 + [RemoveCommand(line, source)];
        match SendOutcome(respond(l2))
        case Err(e) => Run(l2, Err(e))
        case Ok(m) => RunMove(respond, l2, bs[1..], source, dest, Some(m))
  }

  /** A single str id is a one-element list; anything but a str, list or tuple is a TypeError. */
  function MoveIds(ids: PyValue): Result<seq<PyValue>> {
    if ids.PyStr? then Ok([ids])
    else if IsSequence(ids) then Ok(ids.items)
    else Err(TypeError(IdsTypeMsg))
  }

  function MoveRun(respond: seq<string> -> Response, log: seq<string>, ids: PyValue,
                   source: string, dest: string): Run<Reply>
  {
    match MoveIds(ids)
    case Err(e) => Run(log, Err(e))
    case Ok(xs) => RunMove(respond, log, Batches(xs), source, dest, None)
  }

  /** move_to_collection(ids, source_coll, dest_coll); the result is the last reply, as mesg. */
  method MoveToCollection(gw: Gateway, ids: PyValue, source: string, dest: string) returns (r: Result<Reply>)
    modifies gw
    ensures Run(gw.log, r) == MoveRun(gw.respond, old(gw.log), ids, source, dest)
  {
    var xs: seq<PyValue>;
    if ids.PyStr? {
      xs := [ids];
    } else if IsSequence(ids) {
      xs := ids.items;
    } else {
      return Err(TypeError(IdsTypeMsg));
    }
    var mesg: Option<Reply> := None;
    var start := 0;
    while start < |xs|
      invariant 0 <= start
      invariant RunMove(gw.respond, old(gw.log), Batches(xs), source, dest, None)
                == RunMove(gw.respond, gw.log, Batches(xs[Min(start, |xs|)..]), source, dest, mesg)
      decreases |xs| - start
    {
      var end := Min(start + BatchSize, |xs|);
      var batch := xs[start..end];
      assert Batches(xs[start..]) == [batch] + Batches(xs[end..]) by {
        assert xs[start..][..Min(BatchSize, |xs| - start)] == batch;
        assert xs[start..][Min(BatchSize, |xs| - start)..] == xs[end..];
      }
      if !IsStrs(batch) {
        return Err(JoinError);
      }
      var line := Join(" ", Strs(batch));
      var m := SendCommand(gw, "coll add " + line + " " + dest);
      if m.Err? {
        return Err(m.error);
      }
      m := SendCommand(gw, "coll remove " + line + " " + source);
      if m.Err? {
        return Err(m.error);
      }
      mesg := Some(m.value);
      start := start + BatchSize;
      assert Min(start, |xs|) == end;
    }
    assert xs[Min(start, |xs|)..] == [];
    if mesg.None? {
      return Err(UnboundLocalError("mesg"));
    }
    return Ok(mesg.value);
  }

  // ---------------------------------------------------------------------
  // The commands a move sends
  // ---------------------------------------------------------------------

  predicate AllStrs(bs: seq<seq<PyValue>>) {
    forall k :: 0 <= k < |bs| ==> IsStrs(bs[k])
  }

  /** The commands of a move in which every response is tolerated. */
  function Plan(bs: seq<seq<PyValue>>, source: string, dest: string): (p: seq<string>)
    requires AllStrs(bs)
    ensures |p| == 2 * |bs|
  {
    if bs == [] then []
    else
      var line := Join(" ", Strs(bs[0]));
      [AddCommand(line, dest), RemoveCommand(line, source)] + Plan(bs[1..], source, dest)
  }

  /** The plan for batch k is its add command followed by its remove command. */
  lemma {:induction false} PlanPairs(bs: seq<seq<PyValue>>, source: string, dest: string, k: nat)
    requires AllStrs(bs) && k < |bs|
    ensures Plan(bs, source, dest)[2 * k] == AddCommand(Join(" ", Strs(bs[k])), dest)
    ensures Plan(bs, source, dest)[2 * k + 1] == RemoveCommand(Join(" ", Strs(bs[k])), source)
  {
    if k > 0 {
      PlanPairs(bs[1..], source, dest, k - 1);
      assert bs[1..][k - 1] == bs[k];
    }
  }

  /** The response to planned command j, sent after the commands before it, is tolerated. */
  predicate ToleratedAt(respond: seq<string> -> Response, log: seq<string>, plan: seq<string>, j: nat)
    requires j < |plan|
  {
    SendOutcome(respond(log + plan[..j + 1])).Ok?
  }

  /** The position of the first planned command whose response is not tolerated, |plan| if none. */
  function FirstFatal(respond: seq<string> -> Response, log: seq<string>, plan: seq<string>): (f: nat)
    ensures f <= |plan|
    ensures forall j :: 0 <= j < f ==> ToleratedAt(respond, log, plan, j)
    ensures f < |plan| ==> !ToleratedAt(respond, log, plan, f)
    ensures f < |plan| ==> SendOutcome(respond(log + plan[..f + 1])).Err?
    ensures f == |plan| && plan != [] ==> SendOutcome(respond(log + plan)).Ok?
    ensures f == |plan| <==> forall j :: 0 <= j < |plan| ==> ToleratedAt(respond, log, plan, j)
    decreases |plan|
  {
    if plan == [] then 0
    else if SendOutcome(respond(log + [plan[0]])).Err? then
      assert plan[..1] == [plan[0]];
      0
    else
      var f := FirstFatal(respond, log + [plan[0]], plan[1..]);
      ToleratedShift(respond, log, plan);
      assert plan[..1] == [plan[0]];
      assert log + [plan[0]] + plan[1..] == log + plan;
      assert |plan| == 1 ==> plan == [plan[0]];
      1 + f
  }

  /**
   * FirstFatal is the only position before which every response is tolerated
   * and at which, unless it is the end of the plan, one is not.
   */
  lemma FirstFatalUnique(respond: seq<string> -> Response, log: seq<string>, plan: seq<string>, k: nat)
    requires k <= |plan|
    requires forall j :: 0 <= j < k ==> ToleratedAt(respond, log, plan, j)
    requires k < |plan| ==> !ToleratedAt(respond, log, plan, k)
    ensures k == FirstFatal(respond, log, plan)
  {
  }

  /** Proof helper: command j of the plan, for j > 0, is command j - 1 of its tail sent after its first command. */
  lemma ToleratedShift(respond: seq<string> -> Response, log: seq<string>, plan: seq<string>)
    requires plan != []
    ensures ToleratedAt(respond, log, plan, 0) <==> SendOutcome(respond(log + [plan[0]])).Ok?
    ensures forall j :: 0 < j < |plan| ==>
              (ToleratedAt(respond, log, plan, j) <==> ToleratedAt(respond, log + [plan[0]], plan[1..], j - 1))
  {
    assert plan[..1] == [plan[0]];
    forall j | 0 < j < |plan|
      ensures ToleratedAt(respond, log, plan, j) <==> ToleratedAt(respond, log + [plan[0]], plan[1..], j - 1)
    {
      assert log + [plan[0]] + plan[1..][..j] == log + plan[..j + 1];
    }
  }

  /**
   * Sending planned commands one after another with _send_command's
   * tolerance, stopping at the first that is not tolerated.
   */
  function PlanRun(respond: seq<string> -> Response, log: seq<string>, plan: seq<string>,
                   last: Option<Reply>): Run<Reply>
    decreases |plan|
  {
    if plan == [] then
      Run(log, if last.None? then Err(UnboundLocalError("mesg")) else Ok(last.value))
    else
      var l := log + [plan[0]];
      match SendOutcome(respond(l))
      case Err(e) => Run(l, Err(e))
      case Ok(m) => PlanRun(respond, l, plan[1..], Some(m))
  }

  /** A move of batches of strs is the run of its plan. */
  lemma {:induction false} MoveIsPlanRun(respond: seq<string> -> Response, log: seq<string>,
                                         bs: seq<seq<PyValue>>, source: string, dest: string,
                                         last: Option<Reply>)
    requires AllStrs(bs)
    ensures RunMove(respond, log, bs, source, dest, last) == PlanRun(respond, log, Plan(bs, source, dest), last)
    decreases |bs|
  {
    if bs != [] {
      var plan := Plan(bs, source, dest);
      var line := Join(" ", Strs(bs[0]));
      var a, r := AddCommand(line, dest), RemoveCommand(line, source);
      var rest := Plan(bs[1..], source, dest);
      assert plan == [a, r] + rest;
      assert plan[0] == a && plan[1..][0] == r && plan[1..][1..] == rest;
      var l1 := log + [a];
      var l2 := l1 + [r];
      if SendOutcome(respond(l1)).Ok? && SendOutcome(respond(l2)).Ok? {
        assert AllStrs(bs[1..]) by {
          forall k | 0 <= k < |bs[1..]| ensures IsStrs(bs[1..][k]) {
            assert bs[1..][k] == bs[k + 1];
          }
        }
        MoveIsPlanRun(respond, l2, bs[1..], source, dest, Some(SendOutcome(respond(l2)).value));
      }
    }
  }

  /**
   * A plan run sends the commands up to and including the first one that is
   * not tolerated and fails with its error; if all are tolerated it sends
   * them all and returns the last reply.
   */
  lemma {:induction false} PlanRunShape(respond: seq<string> -> Response, log: seq<string>, plan: seq<string>,
                                        last: Option<Reply>)
    ensures var run := PlanRun(respond, log, plan, last);
            var f := FirstFatal(respond, log, plan);
            && (f < |plan| ==> run == Run(log + plan[..f + 1], Err(SendOutcome(respond(log + plan[..f + 1])).error)))
            && (f == |plan| && plan != [] ==> run == Run(log + plan, SendOutcome(respond(log + plan))))
    decreases |plan|
  {
    if plan != [] {
      var l := log + [plan[0]];
      assert plan[..1] == [plan[0]];
      var o := SendOutcome(respond(l));
      if o.Ok? {
        PlanRunShape(respond, l, plan[1..], Some(o.value));
        var f' := FirstFatal(respond, l, plan[1..]);
        if f' < |plan| - 1 {
          assert l + plan[1..][..f' + 1] == log + plan[..f' + 2];
        } else if plan[1..] != [] {
          assert l + plan[1..] == log + plan;
        } else {
          assert l == log + plan;
        }
      }
    }
  }

  /**
   * With every id a str, a move sends the planned commands in order up to and
   * including the first one whose response is not tolerated, and fails with
   * that response's error; when every response is tolerated it sends the
   * whole plan and returns the last reply.
   */
  lemma MoveFollowsPlan(respond: seq<string> -> Response, log: seq<string>,
                        bs: seq<seq<PyValue>>, source: string, dest: string, last: Option<Reply>)
    requires AllStrs(bs)
    ensures var run := RunMove(respond, log, bs, source, dest, last);
            var plan := Plan(bs, source, dest);
            var f := FirstFatal(respond, log, plan);
            && (f < |plan| ==> run == Run(log + plan[..f + 1], Err(SendOutcome(respond(log + plan[..f + 1])).error)))
            && (f == |plan| && plan != [] ==> run == Run(log + plan, SendOutcome(respond(log + plan))))
  {
    MoveIsPlanRun(respond, log, bs, source, dest, last);
    PlanRunShape(respond, log, Plan(bs, source, dest), last);
  }

  /** With every batch joinable and every response tolerated, 2 * ceil(n / 10) commands are sent. */
  lemma MoveSendsTwoPerBatch(respond: seq<string> -> Response, log: seq<string>, xs: seq<PyValue>,
                            source: string, dest: string)
    requires AllStrs(Batches(xs)) && xs != []
    requires var plan := Plan(Batches(xs), source, dest);
             forall j :: 0 <= j < |plan| ==> ToleratedAt(respond, log, plan, j)
    ensures var run := RunMove(respond, log, Batches(xs), source, dest, None);
            |run.log| == |log| + 2 * ((|xs| + 9) / 10) && run.result.Ok?
  {
    BatchesShape(xs);
    MoveFollowsPlan(respond, log, Batches(xs), source, dest, None);
  }

  /** Every batch of a list of strs is a list of strs. */
  lemma BatchesAreStrs(xs: seq<PyValue>)
    requires IsStrs(xs)
    ensures AllStrs(Batches(xs))
  {
    BatchesShape(xs);
    var bs: seq<seq<PyValue>> := Batches(xs);
    forall k, i | 0 <= k < |bs| && 0 <= i < |bs[k]| ensures bs[k][i].PyStr? {
      assert bs[k][i] == xs[10 * k + i];
    }
  }

  /** An empty list of ids sends nothing and fails reading the unset mesg. */
  lemma EmptyIdsFail(respond: seq<string> -> Response, log: seq<string>, source: string, dest: string)
    ensures MoveRun(respond, log, PyList([]), source, dest) == Run(log, Err(UnboundLocalError("mesg")))
    ensures MoveRun(respond, log, PyTuple([]), source, dest) == Run(log, Err(UnboundLocalError("mesg")))
  {
  }

  /** A single id behaves as the one-element list holding it, and sends one add and one remove. */
  lemma SingleIdIsOneBatch(respond: seq<string> -> Response, log: seq<string>, id: string,
                           source: string, dest: string)
    ensures MoveRun(respond, log, PyStr(id), source, dest) == MoveRun(respond, log, PyList([PyStr(id)]), source, dest)
    ensures Batches([PyStr(id)]) == [[PyStr(id)]]
    ensures Plan(Batches([PyStr(id)]), source, dest) == [AddCommand(id, dest), RemoveCommand(id, source)]
  {
    var one := [PyStr(id)];
    assert one[..Min(BatchSize, 1)] == one && one[Min(BatchSize, 1)..] == [];
    assert Batches(one) == [one];
    assert Strs(one) == [id];
  }

  /** An id that is not a str makes the move fail: with a TypeError unless an earlier response already aborted it. */
  lemma {:induction false} NonStringIdFails(respond: seq<string> -> Response, log: seq<string>,
                                           bs: seq<seq<PyValue>>, source: string, dest: string,
                                           last: Option<Reply>)
    requires !AllStrs(bs)
    ensures RunMove(respond, log, bs, source, dest, last).result.Err?
    decreases |bs|
  {
    if IsStrs(bs[0]) {
      assert !AllStrs(bs[1..]) by {
        var k :| 0 <= k < |bs| && !IsStrs(bs[k]);
        assert bs[1..][k - 1] == bs[k];
      }
      var line := Join(" ", Strs(bs[0]));
      var l1 := log + [AddCommand(line, dest)];
      var l2 := l1 + [RemoveCommand(line, source)];
      if SendOutcome(respond(l1)).Ok? && SendOutcome(respond(l2)).Ok? {
        NonStringIdFails(respond, l2, bs[1..], source, dest, Some(SendOutcome(respond(l2)).value));
      }
    }
  }
}

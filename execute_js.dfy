/**
 * The `execute_js` command: how one script execution is correlated with the
 * `__script_result` event that answers it, through the executor's map of
 * pending results, and which JSON reply the command returns on each path.
 *
 * Concurrency is rendered sequentially: each listener invocation, the eval
 * failure and the timeout are events applied to the executor one at a time.
 */
module ExecuteJs {
  import opened Wrappers
  import opened Json
  import opened ScriptResult

  /** The sending half of an execution's one-shot result channel. */
  datatype Waiter = Waiter(execId: string)

  /** What the receiving half observes once the sender has left the map. */
  datatype Receipt = Sent(result: Value) | Dropped

  /** How the wait for one execution ends. */
  datatype Outcome =
    | EvalFailed(error: string)   // the webview refused the wrapped script
    | Received(result: Value)     // the channel delivered a normalised reply
    | ChannelClosed               // the sender was dropped without a reply
    | TimedOut                    // nothing arrived within the deadline

  const TimeoutMessage: string := "Script execution timeout"
  const ChannelClosedMessage: string := "Script execution failed: channel closed"
  const EvalFailurePrefix: string := "Failed to execute script: "

  /** The execution id an event payload names, when it names one as a JSON string. */
  function EventExecId(payload: map<string, Value>): (r: Option<string>)
    ensures r.Some? <==> "exec_id" in payload && payload["exec_id"].String?
    ensures r.Some? ==> r.value == payload["exec_id"].s
  {
    match Get(payload, "exec_id")
    case Some(String(id)) => Some(id)
    case _ => None
  }

  /**
   * The command's return value on each path: always `Ok`, carrying the
   * received reply or a failure object naming what went wrong.
   */
  function Response(o: Outcome): (r: Result<Value, string>)
    ensures r.Success?
    ensures o.Received? ==> r.value == o.result
    ensures !o.Received? ==> IsFailureShape(r.value)
    ensures o.EvalFailed? ==> r.value.fields["error"] == String(EvalFailurePrefix + o.error)
    ensures o.ChannelClosed? ==> r.value.fields["error"] == String(ChannelClosedMessage)
    ensures o.TimedOut? ==> r.value.fields["error"] == String(TimeoutMessage)
  {
    match o
    case EvalFailed(e) => Success(FailureJson(EvalFailurePrefix + e))
    case Received(v) => Success(v)
    case ChannelClosed => Success(FailureJson(ChannelClosedMessage))
    case TimedOut => Success(FailureJson(TimeoutMessage))
  }

  /**
   * The first of `arrivals` that names `execId`: the one whose reply is
   * forwarded. `arrivals` are ordered as their forwarding tasks take the
   * lock on the pending map, which need not be the order the listener saw.
   */
  function FirstMatch(arrivals: seq<map<string, Value>>, execId: string): (r: Option<map<string, Value>>)
    ensures r.None? <==> forall i :: 0 <= i < |arrivals| ==> EventExecId(arrivals[i]) != Some(execId)
    ensures r.Some? ==>
              exists i :: 0 <= i < |arrivals| && arrivals[i] == r.value
                          && EventExecId(arrivals[i]) == Some(execId)
                          && forall j :: 0 <= j < i ==> EventExecId(arrivals[j]) != Some(execId)
  {
    if arrivals == [] then None
    else if EventExecId(arrivals[0]) == Some(execId) then Some(arrivals[0])
    else
      var r := FirstMatch(arrivals[1..], execId);
      assert forall i :: 1 <= i < |arrivals| ==> arrivals[i] == arrivals[1..][i - 1];
      r
  }

  /**
   * How `execute_js` ends, given whether the eval call failed and the
   * `__script_result` events that reach its listener before the deadline.
   */
  function ExpectedOutcome(execId: string, evalError: Option<string>, arrivals: seq<map<string, Value>>): (o: Outcome)
    ensures !o.ChannelClosed?
    ensures o.EvalFailed? <==> evalError.Some?
    ensures o.Received? <==> evalError.None? && FirstMatch(arrivals, execId).Some?
    ensures o.TimedOut? <==> evalError.None? && FirstMatch(arrivals, execId).None?
    ensures o.Received? ==> o.result == Normalize(FirstMatch(arrivals, execId).value)
  {
    if evalError.Some? then EvalFailed(evalError.value)
    else match FirstMatch(arrivals, execId)
      case Some(p) => Received(Normalize(p))
      case None => TimedOut
  }

  lemma {:induction false} FirstMatchSnoc(arrivals: seq<map<string, Value>>, p: map<string, Value>, execId: string)
    ensures FirstMatch(arrivals + [p], execId)
            == if FirstMatch(arrivals, execId).Some? then FirstMatch(arrivals, execId)
               else if EventExecId(p) == Some(execId) then Some(p)
               else None
  {
    if arrivals != [] {
      assert (arrivals + [p])[1..] == arrivals[1..] + [p];
      FirstMatchSnoc(arrivals[1..], p, execId);
    }
  }

  /** Once a matching event has arrived, later events change nothing. */
  lemma {:induction false} LaterArrivalsIgnored(execId: string, evalError: Option<string>,
                                                 arrivals: seq<map<string, Value>>, later: seq<map<string, Value>>)
    requires FirstMatch(arrivals, execId).Some?
    ensures ExpectedOutcome(execId, evalError, arrivals + later)
            == ExpectedOutcome(execId, evalError, arrivals)
  {
    FirstMatchAppend(arrivals, later, execId);
  }

  lemma {:induction false} FirstMatchAppend(arrivals: seq<map<string, Value>>, later: seq<map<string, Value>>, execId: string)
    requires FirstMatch(arrivals, execId).Some?
    ensures FirstMatch(arrivals + later, execId) == FirstMatch(arrivals, execId)
  {
    assert arrivals != [];
    assert (arrivals + later)[0] == arrivals[0];
    if EventExecId(arrivals[0]) != Some(execId) {
      assert (arrivals + later)[1..] == arrivals[1..] + later;
      FirstMatchAppend(arrivals[1..], later, execId);
    }
  }

  /** An event naming another execution is ignored, wherever it arrives. */
  lemma {:induction false} OtherExecutionsIgnored(execId: string, evalError: Option<string>,
                                                   before: seq<map<string, Value>>, p: map<string, Value>,
                                                   after: seq<map<string, Value>>)
    requires EventExecId(p) != Some(execId)
    ensures ExpectedOutcome(execId, evalError, before + [p] + after)
            == ExpectedOutcome(execId, evalError, before + after)
  {
    FirstMatchSkips(before, p, after, execId);
  }

  lemma {:induction false} FirstMatchSkips(before: seq<map<string, Value>>, p: map<string, Value>,
                                           after: seq<map<string, Value>>, execId: string)
    requires EventExecId(p) != Some(execId)
    ensures FirstMatch(before + [p] + after, execId) == FirstMatch(before + after, execId)
  {
    if before == [] {
      assert before + [p] + after == [p] + after;
      assert before + after == after;
      assert ([p] + after)[0] == p;
      assert ([p] + after)[1..] == after;
    } else {
      assert (before + [p] + after)[0] == (before + after)[0] == before[0];
      assert (before + [p] + after)[1..] == before[1..] + [p] + after;
      assert (before + after)[1..] == before[1..] + after;
      FirstMatchSkips(before[1..], p, after, execId);
    }
  }

  /**
   * The command reports success exactly when the eval call went through
   * and the first event naming this execution says `"success": true`.
   */
  lemma ExecuteJsSucceedsIff(execId: string, evalError: Option<string>, arrivals: seq<map<string, Value>>)
    ensures var r := Response(ExpectedOutcome(execId, evalError, arrivals)).value;
            IsSuccessShape(r)
            <==> evalError.None? && FirstMatch(arrivals, execId).Some?
                 && "success" in FirstMatch(arrivals, execId).value
                 && FirstMatch(arrivals, execId).value["success"] == Bool(true)
  {
  }

  /** Holds the pending result channels of every script execution in flight. */
  class ScriptExecutor {
    var pendingResults: map<string, Waiter>
    var receipts: map<string, Receipt>

    /** Each waiter sits under its own id, and no id is pending after it settled. */
    ghost predicate Valid()
      reads this
    {
      && (forall id :: id in pendingResults ==> pendingResults[id].execId == id)
      && pendingResults.Keys !! receipts.Keys
    }

    /** A fresh execution id: neither pending nor already settled. */
    predicate Unused(execId: string)
      reads this
    {
      execId !in pendingResults && execId !in receipts
    }

    constructor ()
      ensures Valid()
      ensures pendingResults == map[] && receipts == map[]
    {
      pendingResults := map[];
      receipts := map[];
    }

    /** Dispatch: store the sender for the result that will come back. */
    method Register(execId: string)
      requires Valid() && Unused(execId)
      modifies this
      ensures Valid()
      ensures pendingResults == old(pendingResults)[execId := Waiter(execId)]
      ensures receipts == old(receipts)
    {
      pendingResults := pendingResults[execId := Waiter(execId)];
    }

    /**
     * The `__script_result` listener of execution `listenerId` receives
     * `payload`: it forwards the normalised reply only when the payload names
     * this execution and the execution is still pending.
     */
    method Deliver(listenerId: string, payload: map<string, Value>) returns (forwarded: bool)
      requires Valid()
      modifies this
      ensures Valid()
      ensures forwarded <==> EventExecId(payload) == Some(listenerId) && listenerId in old(pendingResults)
      ensures forwarded ==> old(pendingResults)[listenerId] == Waiter(listenerId)
      ensures forwarded ==> pendingResults == old(pendingResults) - {listenerId}
                            && receipts == old(receipts)[listenerId := Sent(Normalize(payload))]
      ensures !forwarded ==> pendingResults == old(pendingResults) && receipts == old(receipts)
    {
      forwarded := false;
      match EventExecId(payload)
      case Some(id) =>
        if id == listenerId && listenerId in pendingResults {
          pendingResults := pendingResults - {listenerId};
          receipts := receipts[listenerId := Sent(Normalize(payload))];
          forwarded := true;
        }
      case None =>
    }

    /** The given id leaves the map without a reply: its sender is dropped. */
    method Abandon(execId: string)
      requires Valid()
      modifies this
      ensures Valid()
      ensures pendingResults == old(pendingResults) - {execId}
      ensures receipts == if execId in old(pendingResults) then old(receipts)[execId := Dropped]
                          else old(receipts)
    {
      if execId in pendingResults {
        pendingResults := pendingResults - {execId};
        receipts := receipts[execId := Dropped];
      }
    }

    /** The webview refused the script: clean up the pending entry and report it. */
    method EvalFail(execId: string, error: string) returns (response: Value)
      requires Valid()
      modifies this
      ensures Valid()
      ensures pendingResults == old(pendingResults) - {execId}
      ensures receipts == if execId in old(pendingResults) then old(receipts)[execId := Dropped]
                          else old(receipts)
      ensures response == Response(EvalFailed(error)).value
    {
      Abandon(execId);
      response := FailureJson(EvalFailurePrefix + error);
    }

    /** The deadline passed: clean up the pending entry and report it. */
    method Timeout(execId: string) returns (response: Value)
      requires Valid()
      modifies this
      ensures Valid()
      ensures pendingResults == old(pendingResults) - {execId}
      ensures receipts == if execId in old(pendingResults) then old(receipts)[execId := Dropped]
                          else old(receipts)
      ensures response == Response(TimedOut).value
    {
      Abandon(execId);
      response := FailureJson(TimeoutMessage);
    }

    /**
     * The `__script_result` listener of execution `listenerId` receiving
     * `arrivals` in order: the first one naming the execution settles it,
     * if it is still pending, and nothing else changes.
     */
    method Listen(listenerId: string, arrivals: seq<map<string, Value>>)
      requires Valid()
      modifies this
      ensures Valid()
      ensures if listenerId in old(pendingResults) && FirstMatch(arrivals, listenerId).Some?
              then && pendingResults == old(pendingResults) - {listenerId}
                   && receipts == old(receipts)[listenerId := Sent(Normalize(FirstMatch(arrivals, listenerId).value))]
              else pendingResults == old(pendingResults) && receipts == old(receipts)
    {
      ghost var wasPending := listenerId in pendingResults;
      var i := 0;
      while i < |arrivals|
        invariant 0 <= i <= |arrivals|
        invariant Valid()
        invariant if wasPending && FirstMatch(arrivals[..i], listenerId).Some?
                  then && pendingResults == old(pendingResults) - {listenerId}
                       && receipts == old(receipts)[listenerId := Sent(Normalize(FirstMatch(arrivals[..i], listenerId).value))]
                  else pendingResults == old(pendingResults) && receipts == old(receipts)
      {
        var forwarded := Deliver(listenerId, arrivals[i]);
        FirstMatchSnoc(arrivals[..i], arrivals[i], listenerId);
        assert arrivals[..i + 1] == arrivals[..i] + [arrivals[i]];
        i := i + 1;
      }
      assert arrivals[..i] == arrivals;
    }

    /**
     * One execution from dispatch to reply. `evalError` is the webview's
     * refusal of the wrapped script, if any; `arrivals` are the
     * `__script_result` events its listener sees before the deadline, in
     * order. Afterwards the id is settled, no longer pending, and every
     * other execution's entry is as it was.
     */
    method ExecuteJs(execId: string, evalError: Option<string>, arrivals: seq<map<string, Value>>)
      returns (r: Result<Value, string>)
      requires Valid() && Unused(execId)
      modifies this
      ensures Valid()
      ensures r == Response(ExpectedOutcome(execId, evalError, arrivals))
      ensures pendingResults == old(pendingResults)
      ensures execId in receipts && receipts == old(receipts)[execId := receipts[execId]]
      ensures receipts[execId] == match ExpectedOutcome(execId, evalError, arrivals)
                                  case Received(v) => Sent(v)
                                  case _ => Dropped
    {
      Register(execId);
      if evalError.Some? {
        var response := EvalFail(execId, evalError.value);
        assert pendingResults == old(pendingResults);
        return Success(response);
      }
      Listen(execId, arrivals);
      if execId in pendingResults {
        var response := Timeout(execId);
        assert pendingResults == old(pendingResults);
        r := Success(response);
      } else {
        r := Success(receipts[execId].result);
      }
    }
  }

  /**
   * A reply and the timeout racing for one execution, with a second
   * execution in flight: whichever comes second finds nothing to settle.
   */
  method SettledOnceScenario(reply: map<string, Value>)
    requires EventExecId(reply) == Some("a")
  {
    var executor := new ScriptExecutor();
    executor.Register("a");
    executor.Register("b");
    var first := executor.Deliver("a", reply);
    assert first && executor.receipts["a"] == Sent(Normalize(reply));
    var second := executor.Deliver("a", reply);
    assert !second;
    var late := executor.Timeout("a");
    assert executor.receipts["a"] == Sent(Normalize(reply));
    var stray := executor.Deliver("b", reply);
    assert !stray && executor.pendingResults == map["b" := Waiter("b")];
  }
}

/**
  * Request descriptors and the batch dispatcher.
  *
  * `RequestInfo` is an immutable descriptor whose constructor drops the body
  * of GET and DELETE requests. `AsyncHandler` resolves each descriptor's
  * method name to a client operation, issues one call per descriptor and
  * appends each response to its `responses` list, failing fast on a non-2xx
  * status when `raise_on_error` is set. `Requests.ClientRequests` runs one
  * batch on a fresh handler and returns that list.
  *
  * The concurrent part is sequentialised: every lookup runs in the loop that
  * spawns the tasks, before any task runs, and the tasks then complete in the
  * order given by `schedule`, a permutation of the request indices.
  */
module HttpRequests {
  import opened Wrappers
  import opened PyValues
  import opened Transport

  // ---------------------------------------------------------------------------
  // RequestInfo
  // ---------------------------------------------------------------------------

  datatype RequestInfo = RequestInfo(methodName: string, path: string, params: Value, body: Value)

  /** The constructor's test: the method name, upper-cased, is GET or DELETE. */
  predicate DropsBody(methodName: string)
  {
    Upper(methodName) == "GET" || Upper(methodName) == "DELETE"
  }

  /** `RequestInfo(method, path, params=None, body=None)`. */
  function NewRequestInfo(methodName: string, path: string, params: Value := PyNone, body: Value := PyNone): (d: RequestInfo)
    ensures d.methodName == methodName && d.path == path && d.params == params
    ensures DropsBody(methodName) ==> d.body == PyNone
    ensures !DropsBody(methodName) ==> d.body == body
  {
    RequestInfo(methodName, path, params, if DropsBody(methodName) then PyNone else body)
  }

  /** Building a descriptor again from a descriptor's own fields changes nothing. */
  lemma NewRequestInfoIsStable(methodName: string, path: string, params: Value, body: Value)
    ensures var d := NewRequestInfo(methodName, path, params, body);
            NewRequestInfo(d.methodName, d.path, d.params, d.body) == d
  {
  }

  const ReprPrefix := "RequestInfo(method: "

  /** `repr(d)`: "RequestInfo(method: M, path: P, params: Q, body: B)", each field rendered by `str`. */
  function ReprOf(d: RequestInfo): (r: string)
    ensures |r| > |ReprPrefix| + |d.methodName|
    ensures r[..|ReprPrefix|] == ReprPrefix
    ensures r[|ReprPrefix|..|ReprPrefix| + |d.methodName|] == d.methodName
    ensures var tail := ", body: " + ToStr(d.body) + ")";
            && |ReprPrefix| + |d.methodName| + |tail| <= |r|
            && r[|r| - |tail|..] == tail
            && r[|ReprPrefix| + |d.methodName|..|r| - |tail|] == ", path: " + d.path + ", params: " + ToStr(d.params)
  {
    ReprPrefix + d.methodName + ", path: " + d.path + ", params: " + ToStr(d.params)
      + ", body: " + ToStr(d.body) + ")"
  }

  const BodylessTail := ", body: None)"

  /** The repr of a GET or DELETE descriptor always ends in ", body: None)". */
  lemma ReprOfBodylessDescriptor(methodName: string, path: string, params: Value, body: Value)
    requires DropsBody(methodName)
    ensures var r := ReprOf(NewRequestInfo(methodName, path, params, body));
            |r| >= |BodylessTail| && r[|r| - |BodylessTail|..] == BodylessTail
  {
  }

  /**
    * A POST descriptor with a text body and no params keeps its body, and
    * params render as None. The expected text is written as the pieces of
    * the format, because the solver does not split one long string literal
    * into them by itself.
    */
  lemma ReprOfPostExample()
    ensures ReprOf(NewRequestInfo("POST", "/path", body := PyStr("body content")))
            == "RequestInfo(method: " + "POST" + ", path: " + "/path" + ", params: " + "None"
               + ", body: " + "body content" + ")"
  {
  }

  // ---------------------------------------------------------------------------
  // Method lookup
  // ---------------------------------------------------------------------------

  /** The exceptions a batch can end with. */
  datatype Raised =
    | KeyError(key: string)              // unknown method name in the lookup table
    | HttpStatusError(response: Response) // `raise_for_status` on a non-2xx response
    | TransportError(reason: string)     // the client call itself raised

  const MethodTable: map<string, HttpMethod> :=
    map["GET" := Get, "POST" := Post, "PUT" := Put, "PATCH" := Patch, "DELETE" := Delete]

  /** `get_method_by_name`: the table entry for the upper-cased name, or the `KeyError` it raises. */
  function MethodByName(name: string): (r: Result<HttpMethod, Raised>)
    ensures r.Success? <==> Upper(name) in {"GET", "POST", "PUT", "PATCH", "DELETE"}
    ensures r.Success? ==> Upper(OperationName(r.value)) == Upper(name)
    ensures r.Failure? ==> r.error == KeyError(Upper(name))
  {
    var key := Upper(name);
    if key in MethodTable then
      var m := MethodTable[key];
      UpperOperationName(m);
      Success(m)
    else
      Failure(KeyError(key))
  }

  /** Every operation's name upper-cases to its own table key. */
  lemma UpperOperationName(m: HttpMethod)
    ensures Upper(OperationName(m)) in MethodTable && MethodTable[Upper(OperationName(m))] == m
  {
    match m
    case Get => assert Upper("get") == "GET";
    case Post => assert Upper("post") == "POST";
    case Put => assert Upper("put") == "PUT";
    case Patch => assert Upper("patch") == "PATCH";
    case Delete => assert Upper("delete") == "DELETE";
  }

  lemma UpperIdempotent(s: string)
    ensures Upper(Upper(s)) == Upper(s)
  {
  }

  /** The lookup does not depend on the case of the name. */
  lemma MethodByNameIgnoresCase(name: string)
    ensures MethodByName(name) == MethodByName(Upper(name))
  {
    UpperIdempotent(name);
  }

  /** Looking up an operation's own name finds that operation. */
  lemma MethodByNameRoundTrip(m: HttpMethod)
    ensures MethodByName(OperationName(m)) == Success(m)
  {
    UpperOperationName(m);
  }

  /** The descriptor drops the body exactly for the names the lookup resolves to GET or DELETE. */
  lemma DropsBodyIffGetOrDelete(methodName: string)
    ensures DropsBody(methodName) <==> MethodByName(methodName) in {Success(Get), Success(Delete)}
  {
  }

  // ---------------------------------------------------------------------------
  // make_request: argument shaping and the status check
  // ---------------------------------------------------------------------------

  /** The call `make_request` issues: `get`/`delete` receive only `params`, the others also `json=body`. */
  function ShapeCall(operation: HttpMethod, path: string, params: Value, body: Value): (c: Call)
    ensures c.operation == operation && c.path == path && c.params == params
    ensures c.json.None? <==> operation in {Get, Delete}
    ensures c.json.Some? ==> c.json.value == body
  {
    if OperationName(operation) in ["get", "delete"] then Call(operation, path, params, None)
    else Call(operation, path, params, Some(body))
  }

  /**
    * What happens after the call returns: a transport failure propagates, a
    * non-2xx status raises when `raiseOnError` is set, otherwise nothing is raised.
    */
  function RequestOutcome(raiseOnError: bool, exchange: Exchange): (r: Option<Raised>)
    ensures r.None? <==> exchange.Received? && (!raiseOnError || IsSuccess(exchange.response.statusCode))
    ensures exchange.TransportFailed? ==> r == Some(TransportError(exchange.reason))
    ensures exchange.Received? && r.Some? ==> r == Some(HttpStatusError(exchange.response))
  {
    match exchange
    case TransportFailed(reason) => Some(TransportError(reason))
    case Received(response) =>
      if raiseOnError && !IsSuccess(response.statusCode) then Some(HttpStatusError(response)) else None
  }

  /** The call one descriptor turns into, or the `KeyError` its method name raises. */
  function Dispatch(d: RequestInfo): (r: Result<Call, Raised>)
    ensures r.Success? <==> MethodByName(d.methodName).Success?
    ensures r.Success? ==> r.value == ShapeCall(MethodByName(d.methodName).value, d.path, d.params, d.body)
  {
    match MethodByName(d.methodName)
    case Failure(e) => Failure(e)
    case Success(op) => Success(ShapeCall(op, d.path, d.params, d.body))
  }

  /**
    * A body the constructor keeps reaches the transport as `json=`; a body it
    * drops is never sent, and no `json=` argument is passed at all.
    */
  lemma DispatchSendsKeptBody(methodName: string, path: string, params: Value, body: Value)
    requires MethodByName(methodName).Success?
    ensures var c := Dispatch(NewRequestInfo(methodName, path, params, body)).value;
            (DropsBody(methodName) ==> c.json == None) && (!DropsBody(methodName) ==> c.json == Some(body))
  {
  }

  // ---------------------------------------------------------------------------
  // The batch, as specification functions
  // ---------------------------------------------------------------------------

  /** The lookups of the spawning loop, in request order; the first unknown name raises. */
  function ResolveAll(requests: seq<RequestInfo>): (r: Result<seq<HttpMethod>, Raised>)
    ensures r.Success? ==> |r.value| == |requests|
    decreases |requests|
  {
    if requests == [] then Success([])
    else
      match ResolveAll(requests[..|requests| - 1])
      case Failure(e) => Failure(e)
      case Success(ops) =>
        match MethodByName(requests[|requests| - 1].methodName)
        case Failure(e) => Failure(e)
        case Success(op) => Success(ops + [op])
  }

  /** `0, 1, ..., n - 1` */
  function Indices(n: nat): (s: seq<int>)
    ensures |s| == n && forall k | 0 <= k < n :: s[k] == k
  {
    seq(n, k => k)
  }

  /** A completion order for `n` tasks: every index exactly once. */
  predicate IsSchedule(schedule: seq<int>, n: nat)
  {
    multiset(schedule) == multiset(Indices(n))
  }

  predicate InRange(order: seq<int>, n: nat)
  {
    forall k | 0 <= k < |order| :: 0 <= order[k] < n
  }

  lemma ScheduleInRange(schedule: seq<int>, n: nat)
    requires IsSchedule(schedule, n)
    ensures |schedule| == n && InRange(schedule, n)
  {
    assert |schedule| == |multiset(schedule)| == |multiset(Indices(n))| == n;
    forall k | 0 <= k < |schedule| ensures 0 <= schedule[k] < n {
      assert schedule[k] in multiset(schedule);
      assert schedule[k] in Indices(n);
    }
  }

  /** What a run of the tasks produced so far: the calls issued, the responses appended, and how it ended. */
  datatype BatchRun = BatchRun(calls: seq<Call>, appended: seq<Response>, raised: Option<Raised>)

  /** Responses as the exchanges that delivered them. */
  function AsExchanges(responses: seq<Response>): (s: seq<Exchange>)
    ensures |s| == |responses| && forall k | 0 <= k < |s| :: s[k] == Received(responses[k])
  {
    seq(|responses|, k requires 0 <= k < |responses| => Received(responses[k]))
  }

  /**
    * The tasks, in completion order `order`, until the first one raises: every
    * task that ran issued one call, and every one but the raising task
    * appended one response.
    */
  function Run(requests: seq<RequestInfo>, ops: seq<HttpMethod>, transport: seq<Exchange>,
               order: seq<int>, raiseOnError: bool): (b: BatchRun)
    requires |ops| == |requests| == |transport| && InRange(order, |requests|)
    ensures |b.calls| <= |order|
    ensures b.raised.None? ==> |b.calls| == |b.appended| == |order|
    ensures b.raised.Some? ==> 1 <= |b.calls| && |b.appended| == |b.calls| - 1
    decreases |order|
  {
    if order == [] then BatchRun([], [], None)
    else
      var before := Run(requests, ops, transport, order[..|order| - 1], raiseOnError);
      if before.raised.Some? then before
      else
        var i := order[|order| - 1];
        var d := requests[i];
        var call := ShapeCall(ops[i], d.path, d.params, d.body);
        var raised := RequestOutcome(raiseOnError, transport[i]);
        var appended := if raised.None? then [transport[i].response] else [];
        BatchRun(before.calls + [call], before.appended + appended, raised)
  }

  /**
    * One batch: `transport[i]` is what the call for `requests[i]` produced and
    * `schedule` the order in which the tasks complete.
    */
  function Batch(requests: seq<RequestInfo>, transport: seq<Exchange>, schedule: seq<int>,
                 raiseOnError: bool): (b: BatchRun)
    requires |transport| == |requests| && IsSchedule(schedule, |requests|)
    ensures ResolveAll(requests).Failure? ==> b == BatchRun([], [], Some(ResolveAll(requests).error))
  {
    match ResolveAll(requests)
    case Failure(e) => BatchRun([], [], Some(e))
    case Success(ops) =>
      ScheduleInRange(schedule, |requests|);
      Run(requests, ops, transport, schedule, raiseOnError)
  }

  // ---------------------------------------------------------------------------
  // Lemmas about the batch
  // ---------------------------------------------------------------------------

  /** The lookups succeed exactly when every name is in the table, and then give each name's operation. */
  lemma {:induction false} ResolveAllSucceeds(requests: seq<RequestInfo>)
    ensures ResolveAll(requests).Success? <==>
            forall i | 0 <= i < |requests| :: MethodByName(requests[i].methodName).Success?
    ensures ResolveAll(requests).Success? ==>
            forall i | 0 <= i < |requests| :: ResolveAll(requests).value[i] == MethodByName(requests[i].methodName).value
    decreases |requests|
  {
    if requests != [] {
      var init := requests[..|requests| - 1];
      var last := requests[|requests| - 1];
      ResolveAllSucceeds(init);
      assert forall i | 0 <= i < |init| :: init[i] == requests[i];
      assert requests == init + [last];
    }
  }

  /** A lookup failure in a prefix is the failure of the whole loop. */
  lemma {:induction false} ResolveAllPrefixFailure(requests: seq<RequestInfo>, j: nat)
    requires j <= |requests| && ResolveAll(requests[..j]).Failure?
    ensures ResolveAll(requests) == ResolveAll(requests[..j])
    decreases |requests|
  {
    if j < |requests| {
      var init := requests[..|requests| - 1];
      assert init[..j] == requests[..j];
      ResolveAllPrefixFailure(init, j);
    } else {
      assert requests[..j] == requests;
    }
  }

  /** The task completing `k`-th, after `k` tasks that did not raise. */
  lemma RunStep(requests: seq<RequestInfo>, ops: seq<HttpMethod>, transport: seq<Exchange>,
                order: seq<int>, raiseOnError: bool, k: nat)
    requires |ops| == |requests| == |transport| && InRange(order, |requests|) && k < |order|
    requires Run(requests, ops, transport, order[..k], raiseOnError).raised.None?
    ensures var before := Run(requests, ops, transport, order[..k], raiseOnError);
            var i := order[k];
            var raised := RequestOutcome(raiseOnError, transport[i]);
            Run(requests, ops, transport, order[..k + 1], raiseOnError) ==
              BatchRun(before.calls + [ShapeCall(ops[i], requests[i].path, requests[i].params, requests[i].body)],
                       before.appended + (if raised.None? then [transport[i].response] else []),
                       raised)
  {
    assert order[..k + 1][..k] == order[..k];
  }

  /** Once a task has raised, the tasks completing after it change nothing. */
  lemma {:induction false} RunPrefixFailure(requests: seq<RequestInfo>, ops: seq<HttpMethod>, transport: seq<Exchange>,
                                            order: seq<int>, raiseOnError: bool, j: nat)
    requires |ops| == |requests| == |transport| && InRange(order, |requests|)
    requires j <= |order| && Run(requests, ops, transport, order[..j], raiseOnError).raised.Some?
    ensures Run(requests, ops, transport, order, raiseOnError) == Run(requests, ops, transport, order[..j], raiseOnError)
    decreases |order|
  {
    if j < |order| {
      var init := order[..|order| - 1];
      assert init[..j] == order[..j];
      RunPrefixFailure(requests, ops, transport, init, raiseOnError, j);
    } else {
      assert order[..j] == order;
    }
  }

  /** `[s[order[0]], s[order[1]], ...]` */
  function Gather<T>(s: seq<T>, order: seq<int>): (g: seq<T>)
    requires InRange(order, |s|)
    ensures |g| == |order| && forall k | 0 <= k < |order| :: g[k] == s[order[k]]
  {
    seq(|order|, k requires 0 <= k < |order| => s[order[k]])
  }

  /** A run without a raise appended one response per task, in completion order. */
  lemma {:induction false} RunDelivers(requests: seq<RequestInfo>, ops: seq<HttpMethod>, transport: seq<Exchange>,
                                       order: seq<int>, raiseOnError: bool)
    requires |ops| == |requests| == |transport| && InRange(order, |requests|)
    ensures var b := Run(requests, ops, transport, order, raiseOnError);
            b.raised.None? ==> AsExchanges(b.appended) == Gather(transport, order)
    decreases |order|
  {
    if order != [] {
      var init := order[..|order| - 1];
      RunDelivers(requests, ops, transport, init, raiseOnError);
      var b := Run(requests, ops, transport, order, raiseOnError);
      if b.raised.None? {
        var before := Run(requests, ops, transport, init, raiseOnError);
        assert before.raised.None?;
        assert b.appended == before.appended + [transport[order[|order| - 1]].response];
        assert Gather(transport, order) == Gather(transport, init) + [transport[order[|order| - 1]]];
      }
    }
  }

  /** The run raises exactly when some task's outcome raises, and otherwise never. */
  lemma {:induction false} RunRaisesIff(requests: seq<RequestInfo>, ops: seq<HttpMethod>, transport: seq<Exchange>,
                                        order: seq<int>, raiseOnError: bool)
    requires |ops| == |requests| == |transport| && InRange(order, |requests|)
    ensures Run(requests, ops, transport, order, raiseOnError).raised.None? <==>
            forall k | 0 <= k < |order| :: RequestOutcome(raiseOnError, transport[order[k]]).None?
    decreases |order|
  {
    if order != [] {
      var init := order[..|order| - 1];
      RunRaisesIff(requests, ops, transport, init, raiseOnError);
      assert forall k | 0 <= k < |init| :: init[k] == order[k];
    }
  }

  /** `o` without its element at `j`. */
  function RemoveAt(o: seq<int>, j: nat): (r: seq<int>)
    requires j < |o|
    ensures |r| == |o| - 1
  {
    o[..j] + o[j + 1..]
  }

  lemma MultisetRemoveAt(o: seq<int>, j: nat)
    requires j < |o|
    ensures multiset(RemoveAt(o, j)) == multiset(o) - multiset{o[j]}
  {
    assert o == o[..j] + [o[j]] + o[j + 1..];
  }

  lemma GatherRemoveAt<T>(s: seq<T>, o: seq<int>, j: nat)
    requires InRange(o, |s|) && j < |o|
    ensures InRange(RemoveAt(o, j), |s|)
    ensures multiset(Gather(s, o)) == multiset(Gather(s, RemoveAt(o, j))) + multiset{s[o[j]]}
  {
    var left, right := o[..j], o[j + 1..];
    assert o == left + [o[j]] + right;
    assert RemoveAt(o, j) == left + right;
    assert Gather(s, o) == Gather(s, left) + [s[o[j]]] + Gather(s, right);
    assert Gather(s, RemoveAt(o, j)) == Gather(s, left) + Gather(s, right);
  }

  /** Gathering through a sequence depends only on which indices it holds, counted with multiplicity. */
  lemma {:induction false} GatherSameMultiset<T>(s: seq<T>, o1: seq<int>, o2: seq<int>)
    requires InRange(o1, |s|) && InRange(o2, |s|) && multiset(o1) == multiset(o2)
    ensures multiset(Gather(s, o1)) == multiset(Gather(s, o2))
    decreases |o1|
  {
    if o1 == [] {
      assert |o2| == |multiset(o2)| == 0;
    } else {
      var x := o1[0];
      assert x in multiset(o2);
      var j :| 0 <= j < |o2| && o2[j] == x;
      MultisetRemoveAt(o1, 0);
      MultisetRemoveAt(o2, j);
      GatherRemoveAt(s, o1, 0);
      GatherRemoveAt(s, o2, j);
      GatherSameMultiset(s, RemoveAt(o1, 0), RemoveAt(o2, j));
    }
  }

  /** Gathering through a schedule yields a permutation of the gathered sequence. */
  lemma GatherScheduleIsPermutation<T>(s: seq<T>, schedule: seq<int>)
    requires IsSchedule(schedule, |s|)
    ensures InRange(schedule, |s|) && multiset(Gather(s, schedule)) == multiset(s)
  {
    ScheduleInRange(schedule, |s|);
    GatherSameMultiset(s, schedule, Indices(|s|));
    assert Gather(s, Indices(|s|)) == s;
  }

  /**
    * A batch that ends without a raise has issued one call per request and
    * appended one response per request: the batch's exchanges, each once,
    * in completion order.
    */
  lemma BatchDelivers(requests: seq<RequestInfo>, transport: seq<Exchange>, schedule: seq<int>, raiseOnError: bool)
    requires |transport| == |requests| && IsSchedule(schedule, |requests|)
    ensures InRange(schedule, |transport|)
    ensures var b := Batch(requests, transport, schedule, raiseOnError);
            b.raised.None? ==>
              && |b.calls| == |b.appended| == |requests|
              && AsExchanges(b.appended) == Gather(transport, schedule)
              && multiset(AsExchanges(b.appended)) == multiset(transport)
  {
    GatherScheduleIsPermutation(transport, schedule);
    if ResolveAll(requests).Success? {
      var ops := ResolveAll(requests).value;
      assert Batch(requests, transport, schedule, raiseOnError) == Run(requests, ops, transport, schedule, raiseOnError);
      RunDelivers(requests, ops, transport, schedule, raiseOnError);
      RunCallsAreShaped(requests, ops, transport, schedule, raiseOnError);
    }
  }

  /**
    * Once every name resolves, the batch ends without a raise exactly when no
    * call fails in transport and, under `raiseOnError`, every status is 2xx.
    */
  lemma BatchRaisesIff(requests: seq<RequestInfo>, transport: seq<Exchange>, schedule: seq<int>, raiseOnError: bool)
    requires |transport| == |requests| && IsSchedule(schedule, |requests|)
    requires forall i | 0 <= i < |requests| :: MethodByName(requests[i].methodName).Success?
    ensures Batch(requests, transport, schedule, raiseOnError).raised.None? <==>
            forall i | 0 <= i < |transport| ::
              transport[i].Received? && (raiseOnError ==> IsSuccess(transport[i].response.statusCode))
  {
    ResolveAllSucceeds(requests);
    ScheduleInRange(schedule, |requests|);
    var ops := ResolveAll(requests).value;
    var b := Run(requests, ops, transport, schedule, raiseOnError);
    assert Batch(requests, transport, schedule, raiseOnError) == b;
    RunRaisesIff(requests, ops, transport, schedule, raiseOnError);
    if b.raised.None? {
      forall i | 0 <= i < |transport| ensures RequestOutcome(raiseOnError, transport[i]).None? {
        assert Indices(|transport|)[i] == i;
        assert i in multiset(schedule);
        var k :| 0 <= k < |schedule| && schedule[k] == i;
        assert RequestOutcome(raiseOnError, transport[schedule[k]]).None?;
      }
    } else {
      var k :| 0 <= k < |schedule| && RequestOutcome(raiseOnError, transport[schedule[k]]).Some?;
      var i := schedule[k];
      assert RequestOutcome(raiseOnError, transport[i]).Some?;
    }
  }

  /** The calls a batch issues are, in completion order, the dispatched calls of its descriptors. */
  lemma BatchCallsAreDispatches(requests: seq<RequestInfo>, transport: seq<Exchange>, schedule: seq<int>, raiseOnError: bool)
    requires |transport| == |requests| && IsSchedule(schedule, |requests|)
    ensures var b := Batch(requests, transport, schedule, raiseOnError);
            && |b.calls| <= |schedule|
            && forall k | 0 <= k < |b.calls| ::
                 0 <= schedule[k] < |requests| && Dispatch(requests[schedule[k]]) == Success(b.calls[k])
  {
    ScheduleInRange(schedule, |requests|);
    ResolveAllSucceeds(requests);
    if ResolveAll(requests).Success? {
      RunCallsAreShaped(requests, ResolveAll(requests).value, transport, schedule, raiseOnError);
    }
  }

  lemma {:induction false} RunCallsAreShaped(requests: seq<RequestInfo>, ops: seq<HttpMethod>, transport: seq<Exchange>,
                                             order: seq<int>, raiseOnError: bool)
    requires |ops| == |requests| == |transport| && InRange(order, |requests|)
    ensures var b := Run(requests, ops, transport, order, raiseOnError);
            && |b.calls| <= |order|
            && (b.raised.None? ==> |b.calls| == |order|)
            && forall k | 0 <= k < |b.calls| ::
                 b.calls[k] == ShapeCall(ops[order[k]], requests[order[k]].path, requests[order[k]].params, requests[order[k]].body)
    decreases |order|
  {
    if order != [] {
      var init := order[..|order| - 1];
      RunCallsAreShaped(requests, ops, transport, init, raiseOnError);
      assert forall k | 0 <= k < |init| :: init[k] == order[k];
    }
  }

  // ---------------------------------------------------------------------------
  // AsyncHandler
  // ---------------------------------------------------------------------------

  class AsyncHandler {
    const baseUrl: string
    const headers: Option<map<string, string>>
    const timeout: int
    const verify: bool
    const raiseOnError: bool
    var responses: seq<Response>

    constructor (baseUrl: string, headers: Option<map<string, string>> := None, timeout: int := 15,
                 verify: bool := false, raiseOnError: bool := true)
      ensures this.baseUrl == baseUrl && this.headers == headers && this.timeout == timeout
      ensures this.verify == verify && this.raiseOnError == raiseOnError
      ensures responses == []
    {
      this.baseUrl := baseUrl;
      this.headers := headers;
      this.timeout := timeout;
      this.verify := verify;
      this.raiseOnError := raiseOnError;
      responses := [];
    }

    /**
      * `make_request`: issue the call for `operation` (its result is `exchange`),
      * then append the response unless something was raised.
      */
    method MakeRequest(operation: HttpMethod, path: string, params: Value, body: Value, exchange: Exchange)
      returns (call: Call, raised: Option<Raised>)
      modifies this`responses
      ensures call == ShapeCall(operation, path, params, body)
      ensures raised == RequestOutcome(raiseOnError, exchange)
      ensures raised.Some? ==> responses == old(responses)
      ensures raised.None? ==> responses == old(responses) + [exchange.response]
    {
      var name := OperationName(operation);
      if name == "get" || name == "delete" {
        call := Call(operation, path, params, None);
      } else {
        call := Call(operation, path, params, Some(body));
      }
      match exchange {
        case TransportFailed(reason) =>
          return call, Some(TransportError(reason));
        case Received(response) =>
          if raiseOnError && !IsSuccess(response.statusCode) {
            return call, Some(HttpStatusError(response));
          }
          responses := responses + [response];
          raised := None;
      }
    }

    /** The lookups of the spawning loop, in request order, stopping at the first `KeyError`. */
    method ResolveMethods(requests: seq<RequestInfo>) returns (r: Result<seq<HttpMethod>, Raised>)
      ensures r == ResolveAll(requests)
    {
      var ops: seq<HttpMethod> := [];
      var i := 0;
      while i < |requests|
        invariant 0 <= i <= |requests|
        invariant ResolveAll(requests[..i]) == Success(ops)
      {
        var found := MethodByName(requests[i].methodName);
        assert requests[..i + 1][..i] == requests[..i];
        if found.Failure? {
          ResolveAllPrefixFailure(requests, i + 1);
          return Failure(found.error);
        }
        ops := ops + [found.value];
        i := i + 1;
      }
      assert requests[..i] == requests;
      r := Success(ops);
    }

    /** The `k`-th task to complete, after `k` tasks that did not raise. */
    method CompleteTask(requests: seq<RequestInfo>, ops: seq<HttpMethod>, transport: seq<Exchange>, order: seq<int>, k: nat)
      returns (call: Call, outcome: Option<Raised>)
      requires |ops| == |requests| == |transport| && InRange(order, |requests|) && k < |order|
      requires Run(requests, ops, transport, order[..k], raiseOnError).raised.None?
      modifies this`responses
      ensures outcome == RequestOutcome(raiseOnError, transport[order[k]])
      ensures var before := Run(requests, ops, transport, order[..k], raiseOnError);
              var after := Run(requests, ops, transport, order[..k + 1], raiseOnError);
              var appended := if outcome.None? then [transport[order[k]].response] else [];
              && after == BatchRun(before.calls + [call], before.appended + appended, outcome)
              && responses == old(responses) + appended
    {
      var t := order[k];
      var d := requests[t];
      RunStep(requests, ops, transport, order, raiseOnError, k);
      call, outcome := MakeRequest(ops[t], d.path, d.params, d.body, transport[t]);
    }

    /** The spawned tasks, completing in `order`, until one raises. */
    method RunTasks(requests: seq<RequestInfo>, ops: seq<HttpMethod>, transport: seq<Exchange>, order: seq<int>)
      returns (calls: seq<Call>, raised: Option<Raised>)
      requires |ops| == |requests| == |transport| && InRange(order, |requests|)
      modifies this`responses
      ensures var b := Run(requests, ops, transport, order, raiseOnError);
              calls == b.calls && raised == b.raised && responses == old(responses) + b.appended
    {
      calls := [];
      var k := 0;
      while k < |order|
        invariant 0 <= k <= |order|
        invariant var b := Run(requests, ops, transport, order[..k], raiseOnError);
                  b.raised.None? && calls == b.calls && responses == old(responses) + b.appended
      {
        var call, outcome := CompleteTask(requests, ops, transport, order, k);
        calls := calls + [call];
        if outcome.Some? {
          RunPrefixFailure(requests, ops, transport, order, raiseOnError, k + 1);
          return calls, outcome;
        }
        k := k + 1;
      }
      assert order[..k] == order;
      raised := None;
    }

    /**
      * `send_requests`: look every method name up, then run the tasks in
      * `schedule` order until one raises.
      */
    method SendRequests(requests: seq<RequestInfo>, transport: seq<Exchange>, schedule: seq<int>)
      returns (calls: seq<Call>, raised: Option<Raised>)
      requires |transport| == |requests| && IsSchedule(schedule, |requests|)
      modifies this`responses
      ensures var b := Batch(requests, transport, schedule, raiseOnError);
              calls == b.calls && raised == b.raised && responses == old(responses) + b.appended
    {
      var resolved := ResolveMethods(requests);
      if resolved.Failure? {
        return [], Some(resolved.error);
      }
      ScheduleInRange(schedule, |requests|);
      calls, raised := RunTasks(requests, resolved.value, transport, schedule);
    }
  }

  // ---------------------------------------------------------------------------
  // Requests
  // ---------------------------------------------------------------------------

  class Requests {
    const baseUrl: string
    const headers: Option<map<string, string>>
    const verify: bool
    const timeout: int
    const raiseOnError: bool

    constructor (baseUrl: string, headers: Option<map<string, string>> := None, verify: bool := false,
                 timeout: int := 15, raiseOnError: bool := true)
      ensures this.baseUrl == baseUrl && this.headers == headers && this.verify == verify
      ensures this.timeout == timeout && this.raiseOnError == raiseOnError
    {
      this.baseUrl := baseUrl;
      this.headers := headers;
      this.verify := verify;
      this.timeout := timeout;
      this.raiseOnError := raiseOnError;
    }

    /**
      * `client_requests`: run the batch on a fresh handler and return its
      * responses list as it is, one entry per request, also for one request;
      * or the exception that ended the batch.
      */
    method ClientRequests(requests: seq<RequestInfo>, transport: seq<Exchange>, schedule: seq<int>)
      returns (result: Result<seq<Response>, Raised>, calls: seq<Call>)
      requires |transport| == |requests| && IsSchedule(schedule, |requests|)
      ensures var b := Batch(requests, transport, schedule, raiseOnError);
              && calls == b.calls
              && (b.raised.Some? ==> result == Failure(b.raised.value))
              && (b.raised.None? ==> result == Success(b.appended))
      ensures result.Success? ==>
                && |result.value| == |requests|
                && multiset(AsExchanges(result.value)) == multiset(transport)
    {
      var handler := new AsyncHandler(baseUrl, headers, timeout, verify, raiseOnError);
      assert handler.responses == [];
      var raised;
      calls, raised := handler.SendRequests(requests, transport, schedule);
      BatchDelivers(requests, transport, schedule, raiseOnError);
      if raised.Some? {
        result := Failure(raised.value);
      } else {
        assert handler.responses == Batch(requests, transport, schedule, raiseOnError).appended;
        result := Success(handler.responses);
      }
    }
  }
}

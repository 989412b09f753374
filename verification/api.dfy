/**
  * The `/anything` endpoint wrapper: validate the whole list of bodies, then
  * send one GET descriptor per body as one batch.
  *
  * The schema check is a collaborator, given as `validate`.
  */
module Api {
  import opened Wrappers
  import opened PyValues
  import opened Transport
  import opened HttpRequests

  /**
    * The descriptors `get_anything` builds: one `GET anything` per body, in
    * order. GET drops the body at construction, so all of them are the same
    * descriptor, without a body, and each is sent as a bare GET.
    */
  function AnythingRequests(bodies: seq<Value>): (ds: seq<RequestInfo>)
    ensures |ds| == |bodies|
    ensures forall k | 0 <= k < |ds| :: ds[k] == RequestInfo("GET", "anything", PyNone, PyNone)
    ensures forall k | 0 <= k < |ds| :: Dispatch(ds[k]) == Success(Call(Get, "anything", PyNone, None))
  {
    assert DropsBody("GET") by {
      assert Upper("GET") == "GET";
    }
    MethodByNameRoundTrip(Get);
    assert MethodByName("GET") == Success(Get) by {
      assert Upper("get") == Upper("GET");
    }
    seq(|bodies|, k requires 0 <= k < |bodies| => NewRequestInfo("GET", "anything", PyNone, bodies[k]))
  }

  /** What the bodies are does not reach the transport: only how many there are. */
  lemma AnythingRequestsIgnoreBodies(b1: seq<Value>, b2: seq<Value>)
    requires |b1| == |b2|
    ensures AnythingRequests(b1) == AnythingRequests(b2)
  {
  }

  /** The exceptions `get_anything` can end with. */
  datatype AnythingError = ValidationError | RequestFailed(raised: Raised)

  class Anything {
    const requests: Requests

    constructor (requests: Requests)
      ensures this.requests == requests
    {
      this.requests := requests;
    }

    /**
      * `get_anything`: a validation failure raises before any descriptor is
      * built or any call issued; otherwise the result is what
      * `client_requests` returns for the descriptors.
      */
    method GetAnything(validate: seq<Value> -> bool, bodies: seq<Value>, transport: seq<Exchange>, schedule: seq<int>)
      returns (result: Result<seq<Response>, AnythingError>, calls: seq<Call>)
      requires |transport| == |bodies| && IsSchedule(schedule, |bodies|)
      ensures !validate(bodies) ==> result == Failure(ValidationError) && calls == []
      ensures validate(bodies) ==>
                var b := Batch(AnythingRequests(bodies), transport, schedule, requests.raiseOnError);
                && calls == b.calls
                && (b.raised.Some? ==> result == Failure(RequestFailed(b.raised.value)))
                && (b.raised.None? ==> result == Success(b.appended))
      ensures forall k | 0 <= k < |calls| :: calls[k] == Call(Get, "anything", PyNone, None)
      ensures result.Success? ==> |result.value| == |bodies|
    {
      if !validate(bodies) {
        return Failure(ValidationError), [];
      }
      var descriptors := AnythingRequests(bodies);
      var sent;
      sent, calls := requests.ClientRequests(descriptors, transport, schedule);
      BatchCallsAreDispatches(descriptors, transport, schedule, requests.raiseOnError);
      match sent {
        case Failure(e) => result := Failure(RequestFailed(e));
        case Success(responses) => result := Success(responses);
      }
    }
  }
}

/** VRServer.cs (whose class is also called ObjectControllerServer): an HTTP
    listener thread that queues `/notify` requests for the main thread and
    answers every other request itself (CORS preflight or 404), and a per-tick
    step that drains the queue, starting a model refresh for each notification.
    The listener thread, the thread pool and the lock are modelled
    sequentially: a listener run consumes a sequence of accept events. */
module VRServer {
  import opened Common

  datatype HttpRequest = HttpRequest(httpMethod: string, absolutePath: string)

  datatype Header = Header(name: string, value: string)

  /** What a handler writes to `context.Response`; `contentType` is None when it
      is not set. */
  datatype HttpResponse = HttpResponse(status: int, contentType: Option<string>, headers: seq<Header>, body: string)

  /** One outcome of `httpListener.GetContext()` on the listener thread. */
  datatype ListenEvent =
    | Accepted(request: HttpRequest)
      /** An `HttpListenerException`: the listener was stopped or closed. */
    | ListenerFailed
      /** Any other exception: logged, and the loop goes on. */
    | Fault

  const NotifyPath: string := "/notify"
  const AllowOrigin: Header := Header("Access-Control-Allow-Origin", "*")
  const AllowMethods: Header := Header("Access-Control-Allow-Methods", "GET, POST, PUT, DELETE")
  const AllowHeaders: Header := Header("Access-Control-Allow-Headers", "Content-Type")
  const Json: string := "application/json"
  const NotFoundMessage: string := "Endpoint not found"
  const NotifyBody: string := "{\"status\": \"success\", \"message\": \"Unity notification received and processing\"}"

  /** The listener thread's classification: exactly the path `/notify` is queued
      for the main thread. */
  predicate IsNotify(request: HttpRequest) {
    request.absolutePath == NotifyPath
  }

  const ErrorPrefix: string := "{\"error\": \""
  const ErrorSuffix: string := "\"}"

  /** `{"error": "<message>"}`, with the message inserted as it is, unescaped. */
  function ErrorBody(message: string): (body: string)
    ensures |body| == |ErrorPrefix| + |message| + |ErrorSuffix|
  {
    ErrorPrefix + message + ErrorSuffix
  }

  /** The message inside an error body. */
  function ErrorMessage(body: string): string
    requires |ErrorPrefix| + |ErrorSuffix| <= |body|
  {
    body[|ErrorPrefix|..|body| - |ErrorSuffix|]
  }

  /** The error body keeps the message intact between its fixed prefix and suffix. */
  lemma {:induction false} ErrorBodyRoundTrip(message: string)
    ensures ErrorBody(message)[..|ErrorPrefix|] == ErrorPrefix
    ensures ErrorBody(message)[|ErrorPrefix| + |message|..] == ErrorSuffix
    ensures ErrorMessage(ErrorBody(message)) == message
  {
    var b := ErrorBody(message);
    assert b == ErrorPrefix + message + ErrorSuffix;
    assert b[|ErrorPrefix|..|b| - |ErrorSuffix|] == message;
  }

  /** `SendErrorResponse`: the given status, a JSON content type, the CORS header
      and the error body. */
  function SendErrorResponse(status: int, message: string): (r: HttpResponse)
    ensures r.status == status && r.contentType == Some(Json) && r.headers == [AllowOrigin]
    ensures r.body == ErrorBody(message)
    ensures |ErrorPrefix| + |ErrorSuffix| <= |r.body| && ErrorMessage(r.body) == message
  {
    ErrorBodyRoundTrip(message);
    HttpResponse(status, Some(Json), [AllowOrigin], ErrorBody(message))
  }

  /** `HandleSimpleRequest`: an `OPTIONS` request gets the preflight answer,
      status 200 with the three CORS headers and no body; every other request
      gets a 404 error. */
  function HandleSimpleRequest(request: HttpRequest): (r: HttpResponse)
    ensures AllowOrigin in r.headers
    ensures request.httpMethod == "OPTIONS" <==> r.status == 200
    ensures request.httpMethod == "OPTIONS" ==> r.headers == [AllowOrigin, AllowMethods, AllowHeaders] && r.body == []
    ensures request.httpMethod != "OPTIONS" ==> r.status == 404 && r.body == ErrorBody(NotFoundMessage)
  {
    if request.httpMethod == "OPTIONS" then
      HttpResponse(200, None, [AllowOrigin, AllowMethods, AllowHeaders], [])
    else
      SendErrorResponse(404, NotFoundMessage)
  }

  /** This server does not know the movement commands: `/left` and its siblings
      are not found unless they are a preflight. */
  lemma MovementPathsNotFound(request: HttpRequest)
    requires request.absolutePath in {"/left", "/right", "/up", "/down"}
    requires request.httpMethod != "OPTIONS"
    ensures !IsNotify(request)
    ensures HandleSimpleRequest(request).status == 404
    ensures ErrorMessage(HandleSimpleRequest(request).body) == NotFoundMessage
  {
    ErrorBodyRoundTrip(NotFoundMessage);
  }

  /** The answer to a queued notification: always 200 with the fixed JSON body,
      whether or not a controller was found to refresh. */
  function NotifyResponse(): (r: HttpResponse)
    ensures r.status == 200 && AllowOrigin in r.headers && r.contentType == Some(Json)
    ensures r.body == NotifyBody
  {
    HttpResponse(200, Some(Json), [AllowOrigin], NotifyBody)
  }

  /** The events a listener loop consumes: all of them up to the first
      `HttpListenerException`, which ends the loop. */
  function HandledEvents(events: seq<ListenEvent>): (handled: seq<ListenEvent>)
    ensures |handled| <= |events| && handled == events[..|handled|]
    ensures ListenerFailed !in handled
    ensures |handled| < |events| ==> events[|handled|] == ListenerFailed
  {
    if events == [] || events[0] == ListenerFailed then []
    else [events[0]] + HandledEvents(events[1..])
  }

  /** The requests among `events` that the listener queues, in arrival order. */
  function QueuedRequests(events: seq<ListenEvent>): seq<HttpRequest>
  {
    if events == [] then []
    else if events[0].Accepted? && IsNotify(events[0].request) then [events[0].request] + QueuedRequests(events[1..])
    else QueuedRequests(events[1..])
  }

  /** The requests among `events` that the listener hands to the thread pool,
      in arrival order. */
  function ForwardedRequests(events: seq<ListenEvent>): seq<HttpRequest>
  {
    if events == [] then []
    else if events[0].Accepted? && !IsNotify(events[0].request) then [events[0].request] + ForwardedRequests(events[1..])
    else ForwardedRequests(events[1..])
  }

  /** Each forwarded request with the answer `HandleSimpleRequest` writes for it. */
  function SimpleAnswers(requests: seq<HttpRequest>): (r: seq<(HttpRequest, HttpResponse)>)
    ensures |r| == |requests|
    ensures forall k :: 0 <= k < |r| ==> r[k] == (requests[k], HandleSimpleRequest(requests[k]))
  {
    seq(|requests|, k requires 0 <= k < |requests| => (requests[k], HandleSimpleRequest(requests[k])))
  }

  /** How many of `events` are faults other than an `HttpListenerException`. */
  function FaultCount(events: seq<ListenEvent>): (n: nat)
    ensures n <= |events|
  {
    if events == [] then 0
    else (if events[0] == Fault then 1 else 0) + FaultCount(events[1..])
  }

  /** The requests accepted in `events`, in arrival order. */
  function AcceptedRequests(events: seq<ListenEvent>): seq<HttpRequest>
  {
    if events == [] then []
    else if events[0].Accepted? then [events[0].request] + AcceptedRequests(events[1..])
    else AcceptedRequests(events[1..])
  }

  /** Every accepted request goes exactly one way: the queued ones are all
      `/notify` requests, the forwarded ones all other requests, and together
      they are all accepted requests, none lost or duplicated. */
  lemma {:induction false} RoutingPartition(events: seq<ListenEvent>)
    ensures forall r :: r in QueuedRequests(events) ==> IsNotify(r)
    ensures forall r :: r in ForwardedRequests(events) ==> !IsNotify(r)
    ensures multiset(QueuedRequests(events)) + multiset(ForwardedRequests(events)) == multiset(AcceptedRequests(events))
  {
    if events != [] {
      RoutingPartition(events[1..]);
    }
  }

  class ObjectControllerServer {
    var serverRunning: bool
    /** `httpListener != null && httpListener.IsListening`. */
    var listening: bool
    /** Notifications waiting for the main thread, oldest first. */
    var requestQueue: seq<HttpRequest>
    /** Every response written, with its request, in the order written. */
    var answered: seq<(HttpRequest, HttpResponse)>
    /** How many `LoadModelsFromServer` calls the notifications started. */
    var refreshesStarted: nat
    /** How many listener faults were logged. */
    var faultsLogged: nat

    constructor ()
      ensures serverRunning && !listening
      ensures requestQueue == [] && answered == [] && refreshesStarted == 0 && faultsLogged == 0
    {
      serverRunning := true;
      listening := false;
      requestQueue := [];
      answered := [];
      refreshesStarted := 0;
      faultsLogged := 0;
    }

    /** `StartServer`: listen when the fixed address can be bound; a failure is
        only logged. */
    method StartServer(bindSucceeds: bool)
      modifies this`listening
      ensures listening == bindSucceeds
    {
      listening := bindSucceeds;
    }

    /** `ListenForRequests`: while the server runs and listens, take the next
        event; queue a `/notify` request, answer any other request, log a
        fault and go on, or stop at an `HttpListenerException`. */
    method ListenForRequests(events: seq<ListenEvent>)
      modifies this`requestQueue, this`answered, this`faultsLogged
      ensures !(serverRunning && listening) ==>
        requestQueue == old(requestQueue) && answered == old(answered) && faultsLogged == old(faultsLogged)
      ensures serverRunning && listening ==>
        && requestQueue == old(requestQueue) + QueuedRequests(HandledEvents(events))
        && answered == old(answered) + SimpleAnswers(ForwardedRequests(HandledEvents(events)))
        && faultsLogged == old(faultsLogged) + FaultCount(HandledEvents(events))
    {
      var i := 0;
      var failed := false;
      while serverRunning && listening && !failed && i < |events|
        invariant 0 <= i <= |events|
        invariant ListenerFailed !in events[..i]
        invariant failed ==> i < |events| && events[i] == ListenerFailed
        invariant requestQueue == old(requestQueue) + QueuedRequests(events[..i])
        invariant answered == old(answered) + SimpleAnswers(ForwardedRequests(events[..i]))
        invariant faultsLogged == old(faultsLogged) + FaultCount(events[..i])
        invariant !(serverRunning && listening) ==> i == 0
      {
        var event := events[i];
        if event == ListenerFailed {
          failed := true;
        } else {
          ListenStep(events, i);
          TakeEvent(event);
          i := i + 1;
        }
      }
      if serverRunning && listening {
        HandledUpTo(events, i);
      } else {
        assert events[..i] == [];
      }
    }

    /** One turn of the listener loop on an event other than an
        `HttpListenerException`: queue a notification, answer any other
        request, or log a fault. */
    method TakeEvent(event: ListenEvent)
      requires event != ListenerFailed
      modifies this`requestQueue, this`answered, this`faultsLogged
      ensures requestQueue == old(requestQueue) + (if event.Accepted? && IsNotify(event.request) then [event.request] else [])
      ensures answered == old(answered) +
        (if event.Accepted? && !IsNotify(event.request) then [(event.request, HandleSimpleRequest(event.request))] else [])
      ensures faultsLogged == old(faultsLogged) + (if event == Fault then 1 else 0)
    {
      match event {
        case Fault =>
          faultsLogged := faultsLogged + 1;
        case Accepted(request) =>
          if IsNotify(request) {
            requestQueue := requestQueue + [request];
          } else {
            answered := answered + [(request, HandleSimpleRequest(request))];
          }
      }
    }

    /** `HandleNotifyRequest`: start a refresh if a controller exists (without
        waiting for it) and answer 200 in every case. */
    method HandleNotifyRequest(request: HttpRequest, controllerFound: bool)
      modifies this`answered, this`refreshesStarted
      ensures answered == old(answered) + [(request, NotifyResponse())]
      ensures refreshesStarted == old(refreshesStarted) + (if controllerFound then 1 else 0)
    {
      if controllerFound {
        refreshesStarted := refreshesStarted + 1;
      }
      answered := answered + [(request, NotifyResponse())];
    }

    /** `ProcessQueuedRequests` (the whole of `Update`): handle every queued
        notification, oldest first, until the queue is empty. */
    method ProcessQueuedRequests(controllerFound: bool)
      modifies this`requestQueue, this`answered, this`refreshesStarted
      ensures requestQueue == []
      ensures answered == old(answered) + NotifyAnswers(old(requestQueue))
      ensures refreshesStarted == old(refreshesStarted) + (if controllerFound then |old(requestQueue)| else 0)
    {
      ghost var handled: seq<HttpRequest> := [];
      while |requestQueue| > 0
        invariant handled + requestQueue == old(requestQueue)
        invariant answered == old(answered) + NotifyAnswers(handled)
        invariant refreshesStarted == old(refreshesStarted) + (if controllerFound then |handled| else 0)
        decreases |requestQueue|
      {
        var request := requestQueue[0];
        requestQueue := requestQueue[1..];
        NotifyAnswersAppend(handled, request);
        HandleNotifyRequest(request, controllerFound);
        handled := handled + [request];
      }
    }

    /** `StopServer`: clear the running flag and stop listening. */
    method StopServer()
      modifies this`serverRunning, this`listening
      ensures !serverRunning && !listening
    {
      serverRunning := false;
      listening := false;
    }
  }

  /** The answers written for a run of queued notifications, in order. */
  function NotifyAnswers(requests: seq<HttpRequest>): (r: seq<(HttpRequest, HttpResponse)>)
    ensures |r| == |requests|
    ensures forall k :: 0 <= k < |r| ==> r[k] == (requests[k], NotifyResponse())
  {
    seq(|requests|, k requires 0 <= k < |requests| => (requests[k], NotifyResponse()))
  }

  lemma NotifyAnswersAppend(requests: seq<HttpRequest>, request: HttpRequest)
    ensures NotifyAnswers(requests + [request]) == NotifyAnswers(requests) + [(request, NotifyResponse())]
  {
  }

  lemma {:induction false} QueuedAppend(events: seq<ListenEvent>, event: ListenEvent)
    ensures QueuedRequests(events + [event]) ==
      QueuedRequests(events) + (if event.Accepted? && IsNotify(event.request) then [event.request] else [])
  {
    if events != [] {
      assert (events + [event])[1..] == events[1..] + [event];
      QueuedAppend(events[1..], event);
    } else {
      assert events + [event] == [event];
    }
  }

  lemma {:induction false} ForwardedAppend(events: seq<ListenEvent>, event: ListenEvent)
    ensures ForwardedRequests(events + [event]) ==
      ForwardedRequests(events) + (if event.Accepted? && !IsNotify(event.request) then [event.request] else [])
  {
    if events != [] {
      assert (events + [event])[1..] == events[1..] + [event];
      ForwardedAppend(events[1..], event);
    } else {
      assert events + [event] == [event];
    }
  }

  lemma {:induction false} FaultAppend(events: seq<ListenEvent>, event: ListenEvent)
    ensures FaultCount(events + [event]) == FaultCount(events) + (if event == Fault then 1 else 0)
  {
    if events != [] {
      assert (events + [event])[1..] == events[1..] + [event];
      FaultAppend(events[1..], event);
    } else {
      assert events + [event] == [event];
    }
  }

  /** What taking one more event adds to the queued and the answered requests. */
  lemma ListenStep(events: seq<ListenEvent>, i: nat)
    requires i < |events|
    ensures events[..i + 1] == events[..i] + [events[i]]
    ensures QueuedRequests(events[..i + 1]) == QueuedRequests(events[..i]) +
      (if events[i].Accepted? && IsNotify(events[i].request) then [events[i].request] else [])
    ensures SimpleAnswers(ForwardedRequests(events[..i + 1])) == SimpleAnswers(ForwardedRequests(events[..i])) +
      (if events[i].Accepted? && !IsNotify(events[i].request)
       then [(events[i].request, HandleSimpleRequest(events[i].request))] else [])
    ensures FaultCount(events[..i + 1]) == FaultCount(events[..i]) + (if events[i] == Fault then 1 else 0)
  {
    assert events[..i + 1] == events[..i] + [events[i]];
    QueuedAppend(events[..i], events[i]);
    ForwardedAppend(events[..i], events[i]);
    FaultAppend(events[..i], events[i]);
  }

  /** Where the listener loop stops, at the end of the events or at the first
      `HttpListenerException`, it has taken exactly the handled events. */
  lemma {:induction false} HandledUpTo(events: seq<ListenEvent>, i: nat)
    requires i <= |events| && ListenerFailed !in events[..i]
    requires i == |events| || events[i] == ListenerFailed
    ensures HandledEvents(events) == events[..i]
  {
    if i > 0 {
      assert events[1..][..i - 1] == events[1..i];
      HandledUpTo(events[1..], i - 1);
      assert events[..i] == [events[0]] + events[1..i];
    }
  }
}

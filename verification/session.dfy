/** `WebsocketHandler`: the session side of the job feed. It logs in, receives
    one message at a time, and dispatches it by its action name: `create` and
    `update` queue a job that has no image yet, `clearqueue` flushes the request
    queue and drains the shared queue of jobs already handed to the workers.

    The connection is abstract: what `recv` plus decoding produced is a
    `Reply`; the login request that would be sent is returned. */
module Session {
  import opened Wrappers
  import opened Messages
  import opened OrderedSets
  import opened DedupQueue
  import opened ProcessQueues

  /** The handler methods an action name selects through `getattr`. Any other
      name selects nothing the handler can call with a job: the message is
      ignored, or the call raises an error that `communicate` swallows. */
  datatype Action = Create | Update | ClearQueue | NotHandler

  function ParseAction(name: string): Action {
    if name == "create" then Create
    else if name == "update" then Update
    else if name == "clearqueue" then ClearQueue
    else NotHandler
  }

  /** What `login` does with the server's reply. */
  datatype LoginOutcome = LoggedIn | Refused | LoginRaised(failure: Failure)

  /** `login` as written: a reply that is not JSON reaches a handler that
      names the undefined `message_json`, so NameError leaves `login`;
      every other failure, of `recv` or of decoding, makes it return False. */
  function LoginFateAsWritten(reply: Reply<WsAuthResponse>): LoginOutcome {
    if reply.Received? then
      (if reply.message.responseStatus != LoginOk then Refused else LoggedIn)
    else if reply.failure == JsonDecodeError then LoginRaised(NameError)
    else Refused
  }

  /** `login` with the JSON handler logging the raw reply: it never raises. */
  function LoginFate(reply: Reply<WsAuthResponse>): LoginOutcome {
    if reply.Received? then
      (if reply.message.responseStatus != LoginOk then Refused else LoggedIn)
    else Refused
  }

  /** The login succeeds exactly on a well-formed reply with status 200, and
      every failure on the way is reported as a refusal. */
  lemma LoginSucceedsOnlyOnOk(reply: Reply<WsAuthResponse>)
    ensures LoginFate(reply) == LoggedIn <==> reply.Received? && reply.message.responseStatus == LoginOk
    ensures !LoginFate(reply).LoginRaised?
  {
  }

  /** As written, `login` differs from the intended behaviour on exactly one
      kind of reply: one that is not JSON, which raises NameError instead of
      returning False. */
  lemma LoginAsWrittenRaisesOnBadJson(reply: Reply<WsAuthResponse>)
    ensures Fails(reply, JsonDecodeError) ==>
              LoginFateAsWritten(reply) == LoginRaised(NameError) && LoginFate(reply) == Refused
    ensures !Fails(reply, JsonDecodeError) ==> LoginFateAsWritten(reply) == LoginFate(reply)
  {
  }

  /** `communicate` as written: ConnectionClosed and KeyboardInterrupt leave
      it; a message that is not JSON raises NameError from its handler; the
      catch-all handler logs `message`, which is unbound when `recv` itself
      raised, so such a failure leaves as UnboundLocalError; every other
      failure, one inside the dispatched action included, is logged and
      swallowed. */
  function CommunicateFateAsWritten(reply: Reply<WsResponse>): Fate {
    if reply.Received? then Continue
    else match reply.failure
      case JsonDecodeError => Raise(NameError)
      case TypeError => Continue
      case KeyboardInterrupt => Raise(KeyboardInterrupt)
      case ConnectionClosed => Raise(ConnectionClosed)
      case _ => if reply.Lost? then Raise(UnboundLocalError) else Continue
  }

  /** `communicate` with the JSON and catch-all handlers logging only what
      is bound. */
  function CommunicateFate(reply: Reply<WsResponse>): Fate {
    if reply.Received? then Continue
    else if reply.failure == ConnectionClosed || reply.failure == KeyboardInterrupt then Raise(reply.failure)
    else Continue
  }

  /** Only a closed connection or an interrupt ends the session; any other
      bad message is skipped. */
  lemma CommunicateEndsOnlyOnClose(reply: Reply<WsResponse>)
    ensures CommunicateFate(reply) != Stop
    ensures CommunicateFate(reply).Raise? <==>
              Fails(reply, ConnectionClosed) || Fails(reply, KeyboardInterrupt)
    ensures CommunicateFate(reply).Raise? ==> CommunicateFate(reply) == Raise(reply.failure)
  {
  }

  /** As written, once a message was received `communicate` differs from the
      intended behaviour only on one that is not JSON, which ends the session
      with NameError. */
  lemma CommunicateAsWrittenRaisesOnBadJson(reply: Reply<WsResponse>)
    ensures reply == Raised(JsonDecodeError) ==>
              CommunicateFateAsWritten(reply) == Raise(NameError) && CommunicateFate(reply) == Continue
    ensures !reply.Lost? && reply != Raised(JsonDecodeError) ==>
              CommunicateFateAsWritten(reply) == CommunicateFate(reply)
  {
  }

  /** As written, a failure of `recv` other than a closed connection, an
      interrupt or a TypeError ends the session: NameError for a JSON error,
      UnboundLocalError for the rest, where the intended loop goes on. */
  lemma CommunicateAsWrittenRaisesOnLostMessage(reply: Reply<WsResponse>)
    requires reply.Lost?
    ensures reply.failure in {ConnectionClosed, KeyboardInterrupt, TypeError} ==>
              CommunicateFateAsWritten(reply) == CommunicateFate(reply)
    ensures reply.failure == JsonDecodeError ==>
              CommunicateFateAsWritten(reply) == Raise(NameError) && CommunicateFate(reply) == Continue
    ensures reply.failure !in {ConnectionClosed, KeyboardInterrupt, TypeError, JsonDecodeError} ==>
              CommunicateFateAsWritten(reply) == Raise(UnboundLocalError) && CommunicateFate(reply) == Continue
  {
  }

  /** The request queue and the shared queue of jobs handed to the workers. */
  datatype HandlerState = HandlerState(requests: QueueState, shared: seq<WsData>)

  /** `create` / `update`: queue the job when there is one and it has no image yet. */
  function Enqueued(s: HandlerState, data: Option<WsData>): HandlerState {
    if data.Some? && data.value.imageUrl.None? then s.(requests := AfterPut(s.requests, data.value)) else s
  }

  /** `handle_action`: the state after dispatching `action` with the message's job.
      For `clearqueue`, a ValueError from the request queue leaves both queues
      as they were; otherwise both end up empty. */
  function Handled(s: HandlerState, action: string, data: Option<WsData>): HandlerState {
    match ParseAction(action)
    case Create => Enqueued(s, data)
    case Update => Enqueued(s, data)
    case ClearQueue =>
      (match AfterClear(s.requests)
       case Err(_) => s
       case Ok(q) => HandlerState(q, []))
    case NotHandler => s
  }

  /** Dispatching keeps the request queue's invariant, and keeps the counter
      covering the queued ids (nothing on the session side calls `task_done`). */
  lemma HandledKeepsInv(s: HandlerState, action: string, data: Option<WsData>)
    requires Inv(s.requests)
    ensures Inv(Handled(s, action, data).requests)
    ensures CounterCovers(s.requests) ==> CounterCovers(Handled(s, action, data).requests)
  {
    if data.Some? {
      PutKeepsInv(s.requests, data.value);
      if CounterCovers(s.requests) {
        CounterCoversKept(s.requests, data.value);
      }
    }
    ClearSpec(s.requests);
  }

  /** A `create` or `update` carrying a job without an image queues it (unless
      that very job is being worked on), storing the latest version under its
      id; the shared queue is untouched. */
  lemma NewJobQueued(s: HandlerState, action: string, job: WsData)
    requires Inv(s.requests) && (action == "create" || action == "update")
    requires job.imageUrl.None? && s.requests.current != Some(job.id)
    ensures var t := Handled(s, action, Some(job));
      && job.id in t.requests.order && t.requests.items[job.id] == job
      && t.requests.unfinished == s.requests.unfinished + 1
      && t.shared == s.shared
  {
    PutPlacement(s.requests, job);
    AddedSpec(s.requests.order, job.id);
  }

  /** A job that already has an image, or a message without a job, changes
      nothing; neither does an action name the handler has no method for. */
  lemma IgnoredMessages(s: HandlerState, action: string, data: Option<WsData>)
    requires ParseAction(action) == NotHandler
          || ((action == "create" || action == "update") && (data.None? || data.value.imageUrl.Some?))
    ensures Handled(s, action, data) == s
  {
  }

  /** `clearqueue` on a queue whose counter covers its ids (always so on the
      session side) empties both queues and forgets the job in progress. */
  lemma ClearQueueFlushes(s: HandlerState, data: Option<WsData>)
    requires CounterCovers(s.requests)
    ensures var t := Handled(s, "clearqueue", data);
      && t.requests.order == [] && t.requests.items == map[] && t.requests.current == None
      && t.shared == []
      && t.requests.unfinished == s.requests.unfinished - |s.requests.order|
  {
    ClearSpec(s.requests);
  }

  /** A session that starts with a fresh request queue keeps the counter
      covering the queue through any sequence of dispatched messages, so a
      `clearqueue` at any point flushes both queues. */
  lemma {:induction false} SessionClearAlwaysFlushes(s: HandlerState, msgs: seq<WsResponse>, data: Option<WsData>)
    requires Inv(s.requests) && CounterCovers(s.requests)
    ensures var t := HandledAll(s, msgs);
      && Inv(t.requests) && CounterCovers(t.requests)
      && Handled(t, "clearqueue", data).requests.order == []
      && Handled(t, "clearqueue", data).shared == []
    decreases |msgs|
  {
    if msgs == [] {
      ClearQueueFlushes(s, data);
    } else {
      HandledKeepsInv(s, msgs[0].action, msgs[0].data);
      SessionClearAlwaysFlushes(Handled(s, msgs[0].action, msgs[0].data), msgs[1..], data);
    }
  }

  /** The state after dispatching each message in turn. */
  function HandledAll(s: HandlerState, msgs: seq<WsResponse>): HandlerState
    decreases |msgs|
  {
    if msgs == [] then s else HandledAll(Handled(s, msgs[0].action, msgs[0].data), msgs[1..])
  }

  class WebsocketHandler {
    const token: string
    const requestQueue: SetQueue
    /** The workers' shared input queue. */
    const sharedQueue: ProcessQueue<WsData>
    /** Kept by the handler but never read or changed by it. */
    var reconnections: int
    const maxReconnect: int

    ghost predicate Valid()
      reads this, requestQueue, requestQueue.Repr
    {
      requestQueue.Valid() && sharedQueue !in requestQueue.Repr
    }

    ghost function State(): HandlerState
      reads this, requestQueue, requestQueue.queue, sharedQueue
    {
      HandlerState(requestQueue.State(), sharedQueue.items)
    }

    /** `WebsocketHandler(websocket, token, request_queue, shared_queue,
        max_reconnect=50)`; the connection itself is not modelled. */
    constructor (token: string, requestQueue: SetQueue, sharedQueue: ProcessQueue<WsData>,
                 maxReconnect: int := 50)
      requires requestQueue.Valid() && sharedQueue !in requestQueue.Repr
      ensures Valid() && State() == HandlerState(requestQueue.State(), sharedQueue.items)
      ensures this.token == token && this.requestQueue == requestQueue && this.sharedQueue == sharedQueue
      ensures reconnections == 0 && this.maxReconnect == maxReconnect
    {
      this.token := token;
      this.requestQueue := requestQueue;
      this.sharedQueue := sharedQueue;
      reconnections := 0;
      this.maxReconnect := maxReconnect;
    }

    /** `login`: the request it sends at time `now`, and whether the session may
        proceed. Every failure in receiving or decoding the reply is a refusal. */
    method Login(reply: Reply<WsAuthResponse>, now: real) returns (sent: LoginRequest, ok: bool)
      ensures sent.action == "login" && sent.token == token && sent.requestId == now
      ensures ok <==> reply.Received? && reply.message.responseStatus == LoginOk
      ensures ok <==> LoginFate(reply) == LoggedIn
    {
      sent := LoginRequest("login", now, token);
      match reply
      case Received(m) =>
        ok := m.responseStatus == LoginOk;
      case _ =>
        ok := false;
    }

    /** `create` and `update`. */
    method Enqueue(data: Option<WsData>)
      requires Valid()
      modifies requestQueue.Repr
      ensures Valid() && requestQueue.Repr == old(requestQueue.Repr)
      ensures State() == Enqueued(old(State()), data)
    {
      if data.Some? && data.value.imageUrl.None? {
        requestQueue.Put(data.value);
      }
    }

    /** The `get_nowait` loop of `clearqueue`: take items until Empty. */
    method DrainShared()
      modifies sharedQueue
      ensures sharedQueue.items == []
    {
      while true
        decreases |sharedQueue.items|
      {
        var r := sharedQueue.GetNowait();
        if r.None? {
          break;
        }
      }
    }

    /** `clearqueue`; `ok` is false when the request queue raised ValueError,
        which leaves the shared queue undrained. */
    method ClearQueues() returns (ok: bool)
      requires Valid()
      modifies requestQueue.Repr, sharedQueue
      ensures Valid() && fresh(requestQueue.Repr - old(requestQueue.Repr))
      ensures ok <==> AfterClear(old(State()).requests).Ok?
      ensures State() == Handled(old(State()), "clearqueue", None)
    {
      ok := requestQueue.Clear();
      if ok {
        DrainShared();
      }
    }

    /** `handle_action` / `handle_response`: dispatch by action name; `ok` is
        false when the dispatched method raised. */
    method HandleResponse(response: WsResponse) returns (ok: bool)
      requires Valid()
      modifies requestQueue.Repr, sharedQueue
      ensures Valid() && fresh(requestQueue.Repr - old(requestQueue.Repr))
      ensures State() == Handled(old(State()), response.action, response.data)
      ensures !ok <==> ParseAction(response.action) == ClearQueue && AfterClear(old(State()).requests).Err?
    {
      match ParseAction(response.action)
      case Create =>
        Enqueue(response.data);
        ok := true;
      case Update =>
        Enqueue(response.data);
        ok := true;
      case ClearQueue =>
        ok := ClearQueues();
      case NotHandler =>
        ok := true;
    }

    /** `communicate`: handle one received message. */
    method Communicate(reply: Reply<WsResponse>) returns (fate: Fate)
      requires Valid()
      modifies requestQueue.Repr, sharedQueue
      ensures Valid() && fresh(requestQueue.Repr - old(requestQueue.Repr))
      ensures fate == CommunicateFate(reply)
      ensures reply.Received? ==> State() == Handled(old(State()), reply.message.action, reply.message.data)
      ensures !reply.Received? ==> State() == old(State())
    {
      if reply.Received? {
        var _ := HandleResponse(reply.message);
        fate := Continue;
      } else if reply.failure == ConnectionClosed || reply.failure == KeyboardInterrupt {
        fate := Raise(reply.failure);
      } else {
        fate := Continue;
      }
    }
  }
}

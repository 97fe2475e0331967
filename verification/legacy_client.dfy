/** The single-process client (`appmhws.py`): after logging in it receives
    jobs into a `SetQueue`, and a cooperative consumer task takes them out
    one at a time, answers each from the cache or the engine, sends the result
    on the same connection and marks the task done.

    The two tasks share one event loop and one thread, so the model runs them
    as a sequence of turns: an `Event` is either one received message or one
    pass of the consumer. The connection is abstract: replies are inputs and
    the messages sent are outputs. */
module LegacyClient {
  import opened Wrappers
  import opened Uuids
  import opened Messages
  import opened DedupQueue
  import opened Worker
  import opened Cache

  /** What `main`'s loop does with one received message, as written. Its
      handlers cover receiving and decoding alike: a message that is not JSON
      reaches a handler naming the undefined `message_json`, so NameError
      leaves `main`; an interrupt leaves the loop; every other failure, a
      closed connection included, is logged. */
  function MainFateAsWritten(reply: Reply<WsResponse>): Fate {
    if reply.Received? then Continue
    else match reply.failure
      case JsonDecodeError => Raise(NameError)
      case KeyboardInterrupt => Stop
      case _ => Continue
  }

  /** `main`'s loop with the JSON handler logging the raw message. */
  function MainFate(reply: Reply<WsResponse>): Fate {
    if reply.Received? then Continue
    else if reply.failure == KeyboardInterrupt then Stop
    else Continue
  }

  /** Only an interrupt ends the loop; nothing leaves `main` by an exception
      once it is listening, and a closed connection does not end it either. */
  lemma MainStopsOnlyOnInterrupt(reply: Reply<WsResponse>)
    ensures MainFate(reply) != Continue <==> Fails(reply, KeyboardInterrupt)
    ensures !MainFate(reply).Raise?
    ensures MainFate(Lost(ConnectionClosed)) == Continue
  {
  }

  /** As written, the loop differs from the intended behaviour only on a
      message that is not JSON, which ends `main` with NameError. */
  lemma MainAsWrittenRaisesOnBadJson(reply: Reply<WsResponse>)
    ensures Fails(reply, JsonDecodeError) ==>
              MainFateAsWritten(reply) == Raise(NameError) && MainFate(reply) == Continue
    ensures !Fails(reply, JsonDecodeError) ==> MainFateAsWritten(reply) == MainFate(reply)
  {
  }

  /** The job a received message puts on the queue: only one that has no image
      yet (`main` accepts every action name). This client's `WsResponse`
      requires `data` and its `WsData` requires `prompt_config`, so a message
      lacking either fails validation, which the loop logs. */
  function Accepted(reply: Reply<WsResponse>): (job: Option<WsData>)
    ensures job.Some? ==>
      reply.Received? && job == reply.message.data && job.value.imageUrl.None? && job.value.promptConfig.Some?
    ensures job.None? && reply.Received? && reply.message.data.Some? ==>
      reply.message.data.value.imageUrl.Some? || reply.message.data.value.promptConfig.None?
  {
    if reply.Received? && reply.message.data.Some? && reply.message.data.value.promptConfig.Some?
       && reply.message.data.value.imageUrl.None?
    then reply.message.data else None
  }

  /** The request queue after one received message. */
  function AfterReceive(q: QueueState, reply: Reply<WsResponse>): QueueState {
    if Accepted(reply).Some? then AfterPut(q, Accepted(reply).value) else q
  }

  datatype Event = Inbound(reply: Reply<WsResponse>) | ConsumerTurn

  /** An event that interrupts `main`'s loop. */
  predicate Interrupts(e: Event) {
    e.Inbound? && Fails(e.reply, KeyboardInterrupt)
  }

  /** The id of the job one event puts on the queue, if any. */
  ghost function EventIds(e: Event): set<Uuid> {
    if e.Inbound? && Accepted(e.reply).Some? then {Accepted(e.reply).value.id} else {}
  }

  /** The ids of the jobs accepted from the received messages among `events`. */
  ghost function AcceptedIds(events: seq<Event>): set<Uuid>
    decreases |events|
  {
    if events == [] then {}
    else AcceptedIds(events[..|events| - 1]) + EventIds(events[|events| - 1])
  }

  lemma AcceptedIdsNext(events: seq<Event>, i: int)
    requires 0 <= i < |events|
    ensures AcceptedIds(events[..i + 1]) == AcceptedIds(events[..i]) + EventIds(events[i])
  {
    assert events[..i + 1][..i] == events[..i];
  }

  /** Events later in the run only add accepted ids. */
  lemma {:induction false} AcceptedIdsGrow(events: seq<Event>, i: nat)
    requires i <= |events|
    ensures AcceptedIds(events[..i]) <= AcceptedIds(events)
    decreases |events| - i
  {
    if i < |events| {
      AcceptedIdsGrow(events, i + 1);
      assert events[..i + 1][..i] == events[..i];
    } else {
      assert events[..i] == events;
    }
  }

  /** The queue holds, and the consumer sends results for, accepted jobs only. */
  ghost predicate FromAccepted(q: QueueState, sent: seq<UpdateRequest>, ids: set<Uuid>) {
    && q.items.Keys <= ids
    && (forall k :: 0 <= k < |sent| ==> sent[k].pk in ids)
  }

  /** A received message keeps the queue's invariants, and the queue then
      holds only jobs accepted so far. */
  lemma ReceiveKeeps(q: QueueState, sent: seq<UpdateRequest>, ids: set<Uuid>, reply: Reply<WsResponse>)
    requires Inv(q) && CounterCovers(q) && FromAccepted(q, sent, ids)
    ensures Inv(AfterReceive(q, reply)) && CounterCovers(AfterReceive(q, reply))
    ensures FromAccepted(AfterReceive(q, reply), sent, ids + EventIds(Inbound(reply)))
  {
    if Accepted(reply).Some? {
      PutKeepsInv(q, Accepted(reply).value);
      CounterCoversKept(q, Accepted(reply).value);
    }
  }

  /** A consumer pass that took the oldest job sends at most a message for it
      and leaves the queue with the remaining jobs only. */
  lemma ConsumeKeeps(q: QueueState, q': QueueState, sent: seq<UpdateRequest>, message: Option<UpdateRequest>,
                     ids: set<Uuid>)
    requires Inv(q) && FromAccepted(q, sent, ids) && q.order != []
    requires q'.items == AfterGet(q).state.items
    requires message.Some? ==> message.value.pk == AfterGet(q).item.value.id
    ensures FromAccepted(q', sent + (if message.Some? then [message.value] else []), ids)
  {
    GetOldest(q);
  }

  /** While the counter covers the queued ids, the `task_done` after taking
      a job never raises. */
  lemma TaskDoneAfterGetSucceeds(q: QueueState)
    requires Inv(q) && CounterCovers(q) && q.order != []
    ensures AfterTaskDone(AfterGet(q).state).Ok?
    ensures CounterCovers(AfterTaskDone(AfterGet(q).state).value)
  {
    GetOldest(q);
  }

  /** How `main` ends. `Listening` means the events ran out with the loop
      still receiving. */
  datatype MainExit = NoToken | LoginFailed(failure: Failure) | LoginRejected | Interrupted | Listening

  /** One pass of `consume`: take the oldest job (Empty after the timeout is
      `Idle`) and answer it as `Serve` says. A failure in answering ends the
      task with nothing sent; otherwise the result message is sent and then
      `task_done` runs, whose ValueError ends the task with the message
      already sent. */
  method ConsumeStep(queue: SetQueue, cache: FileCache, engine: Engine, now: real)
    returns (outcome: StepOutcome, sent: Option<UpdateRequest>)
    requires queue.Valid()
    modifies queue.Repr, cache, engine
    ensures queue.Valid() && queue.Repr == old(queue.Repr)
    ensures old(queue.State()).order == [] ==>
      outcome == Idle && sent == None && queue.State() == old(queue.State()) && cache.files == old(cache.files)
    ensures old(queue.State()).order != [] ==>
      var t := AfterGet(old(queue.State()));
      var one := Serve(SettingOf(cache, engine), old(cache.files), t.item.value);
      && cache.files == one.files
      && (one.answer.Err? ==> outcome == Crashed(one.answer.failure) && sent == None && queue.State() == t.state)
      && (one.answer.Ok? ==>
            && sent == Some(Envelope(t.item.value, one.answer.value, now))
            && (if AfterTaskDone(t.state).Ok?
                then outcome == Emitted(one.answer.value) && queue.State() == AfterTaskDone(t.state).value
                else outcome == Crashed(ValueError) && queue.State() == t.state))
  {
    sent := None;
    var item := queue.Get();
    if item.None? {
      return Idle, None;
    }
    var image := Generate(item.value, cache, engine);
    if image.Err? {
      return Crashed(image.failure), None;
    }
    sent := Some(Envelope(item.value, image.value, now));
    var ok := queue.TaskDone();
    if !ok {
      return Crashed(ValueError), sent;
    }
    outcome := Emitted(image.value);
  }

  /** One received message: put the accepted job, if any. */
  method Receive(queue: SetQueue, reply: Reply<WsResponse>) returns (fate: Fate)
    requires queue.Valid()
    modifies queue.Repr
    ensures queue.Valid() && queue.Repr == old(queue.Repr)
    ensures fate == MainFate(reply)
    ensures queue.State() == AfterReceive(old(queue.State()), reply)
  {
    var job := Accepted(reply);
    if job.Some? {
      queue.Put(job.value);
    }
    if reply.Received? {
      fate := Continue;
    } else {
      fate := if reply.failure == KeyboardInterrupt then Stop else Continue;
    }
  }

  /** One turn of the event loop: a received message is put on the queue
      (an interrupt stops the loop), or the consumer, while it is alive, takes
      one pass and sends what it produced; a failure ends the consumer. While
      the counter covers the queue, `task_done` never fails, so the consumer
      ends only on a job `Serve` fails. Messages sent answer accepted jobs
      only. */
  method Turn(queue: SetQueue, e: Event, alive: bool, cache: FileCache, engine: Engine, now: real,
              ghost ids: set<Uuid>, sent: seq<UpdateRequest>)
    returns (fate: Fate, alive': bool, sent': seq<UpdateRequest>)
    requires queue.Valid() && CounterCovers(queue.State()) && FromAccepted(queue.State(), sent, ids)
    requires forall k :: 0 <= k < |sent| ==> sent[k].action == "update"
    modifies queue.Repr, cache, engine
    ensures queue.Valid() && queue.Repr == old(queue.Repr) && CounterCovers(queue.State())
    ensures FromAccepted(queue.State(), sent', ids + EventIds(e))
    ensures forall k :: 0 <= k < |sent'| ==> sent'[k].action == "update"
    ensures fate == Stop <==> Interrupts(e)
    ensures fate != Stop ==> fate == Continue
    ensures e.Inbound? ==>
      queue.State() == AfterReceive(old(queue.State()), e.reply) && alive' == alive && sent' == sent
      && cache.files == old(cache.files)
    ensures e.ConsumerTurn? && (!alive || old(queue.State()).order == []) ==>
      queue.State() == old(queue.State()) && alive' == alive && sent' == sent && cache.files == old(cache.files)
    ensures e.ConsumerTurn? && alive && old(queue.State()).order != [] ==>
      var t := AfterGet(old(queue.State()));
      var one := Serve(SettingOf(cache, engine), old(cache.files), t.item.value);
      && cache.files == one.files
      && (one.answer.Ok? ==>
            sent' == sent + [Envelope(t.item.value, one.answer.value, now)] && alive'
            && queue.State() == AfterTaskDone(t.state).value)
      && (one.answer.Err? ==> sent' == sent && !alive' && queue.State() == t.state)
  {
    ghost var q := queue.State();
    alive', sent' := alive, sent;
    match e
    case Inbound(reply) =>
      fate := Receive(queue, reply);
      ReceiveKeeps(q, sent, ids, reply);
    case ConsumerTurn =>
      fate := Continue;
      if alive {
        var outcome, message := ConsumeStep(queue, cache, engine, now);
        if q.order != [] {
          TaskDoneAfterGetSucceeds(q);
          ConsumeKeeps(q, queue.State(), sent, message, ids);
        }
        if message.Some? {
          sent' := sent + [message.value];
        }
        if outcome.Crashed? {
          alive' := false;
        }
      }
  }

  /** `main`'s receive loop with the consumer task interleaved: runs the events
      in order until an interrupt. Every result message sent answers a job
      that was received without an image, and `task_done` never raises. */
  method Listen(queue: SetQueue, events: seq<Event>, cache: FileCache, engine: Engine, now: real)
    returns (exit: MainExit, sent: seq<UpdateRequest>)
    requires queue.Valid() && queue.State() == Empty
    modifies queue.Repr, cache, engine
    ensures exit == Interrupted || exit == Listening
    ensures exit == Listening <==> forall k :: 0 <= k < |events| ==> !Interrupts(events[k])
    ensures forall k :: 0 <= k < |sent| ==> sent[k].action == "update" && sent[k].pk in AcceptedIds(events)
  {
    sent := [];
    var consumerAlive := true;
    var i := 0;
    while i < |events|
      invariant 0 <= i <= |events|
      invariant queue.Valid() && queue.Repr == old(queue.Repr)
      invariant CounterCovers(queue.State())
      invariant FromAccepted(queue.State(), sent, AcceptedIds(events[..i]))
      invariant forall k :: 0 <= k < |sent| ==> sent[k].action == "update"
      invariant forall k :: 0 <= k < i ==> !Interrupts(events[k])
    {
      AcceptedIdsNext(events, i);
      var fate;
      fate, consumerAlive, sent := Turn(queue, events[i], consumerAlive, cache, engine, now,
                                        AcceptedIds(events[..i]), sent);
      if fate == Stop {
        AcceptedIdsGrow(events, i + 1);
        return Interrupted, sent;
      }
      i := i + 1;
    }
    assert events[..i] == events;
    exit := Listening;
  }

  /** `main(scheme, host, port, path, token)`: an empty token ends it at once;
      otherwise it sends the login request, and any failure of the login
      exchange leaves `main` (there is no handler around it). A refused login
      ends it; an accepted one starts a fresh queue and listens. */
  method RunMain(token: string, loginReply: Reply<WsAuthResponse>, events: seq<Event>,
              cache: FileCache, engine: Engine, now: real)
    returns (exit: MainExit, login: Option<LoginRequest>, sent: seq<UpdateRequest>)
    modifies cache, engine
    ensures token == "" ==> exit == NoToken && login == None && sent == []
    ensures token != "" ==> login == Some(LoginRequest("login", now, token))
    ensures token != "" && !loginReply.Received? ==> exit == LoginFailed(loginReply.failure) && sent == []
    ensures token != "" && loginReply.Received? && loginReply.message.responseStatus != LoginOk ==>
      exit == LoginRejected && sent == []
    ensures token != "" && loginReply.Received? && loginReply.message.responseStatus == LoginOk ==>
      && (exit == Listening <==> forall k :: 0 <= k < |events| ==> !Interrupts(events[k]))
      && (exit == Interrupted <==> exists k :: 0 <= k < |events| && Interrupts(events[k]))
    ensures forall k :: 0 <= k < |sent| ==> sent[k].action == "update" && sent[k].pk in AcceptedIds(events)
  {
    sent := [];
    if token == "" {
      return NoToken, None, [];
    }
    login := Some(LoginRequest("login", now, token));
    if !loginReply.Received? {
      exit := LoginFailed(loginReply.failure);
    } else if loginReply.message.responseStatus != LoginOk {
      exit := LoginRejected;
    } else {
      var queue := new SetQueue();
      exit, sent := Listen(queue, events, cache, engine, now);
    }
  }
}

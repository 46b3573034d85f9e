/**
 * The chat server's client registry and connection handler (`Server`),
 * run sequentially: one handler at a time, with each connection's incoming
 * messages, the provider's replies and the way the connection ends given as
 * inputs. Every send is recorded in a delivery log.
 */
module Registry {
  import opened Wrappers
  import opened Faults
  import opened Dispatch

  /** A connection, standing for its websocket object. */
  type ClientId = nat

  /** One `client.send(text)`. */
  datatype Delivery = Delivery(to: ClientId, text: string)

  /** The texts sent to client `c`, in the order they were sent. */
  function Received(log: seq<Delivery>, c: ClientId): seq<string> {
    if log == [] then []
    else
      var last := log[|log| - 1];
      Received(log[..|log| - 1], c) + (if last.to == c then [last.text] else [])
  }

  /** How the receive loop `async for message in ws` ends once the messages run out. */
  datatype Ending =
    | PeerClosed        // the iteration stops normally
    | ProtocolFailure   // it raises WebSocketProtocolError
    | TransportFailure  // it raises another connection error

  function EndFault(ending: Ending): Option<Fault> {
    match ending
    case PeerClosed => None
    case ProtocolFailure => Some(ProtocolError)
    case TransportFailure => Some(ConnectionClosed)
  }

  /** The texts a connection has broadcast so far, and the exception that stopped it, if any. */
  datatype Session = Session(texts: seq<string>, fault: Option<Fault>)

  /**
   * What handling each message of a connection gives: the text to broadcast
   * or the exception raised, for a client named `name`, where `world(i)` is
   * what the provider replies while message `i` is handled.
   */
  function Answers(name: string, messages: seq<string>, world: nat -> Provider): (answers: seq<Result<string, Fault>>)
    ensures |answers| == |messages|
  {
    seq(|messages|, i requires 0 <= i < |messages| => Respond(messages[i], name, world(i)))
  }

  /** Handling the first `k` messages, which stops at the first message whose handling raises. */
  function Replay(answers: seq<Result<string, Fault>>, k: nat): Session
    requires k <= |answers|
  {
    if k == 0 then Session([], None)
    else
      var s := Replay(answers, k - 1);
      if s.fault.Some? then s
      else
        match answers[k - 1]
        case Ok(text) => Session(s.texts + [text], None)
        case Err(f) => Session(s.texts, Some(f))
  }

  /**
   * What a session consists of: the texts are the responses to the messages
   * of its longest prefix that raised nothing, in order; the session has a
   * fault exactly when it stopped short, and then the fault is what the next
   * message raised.
   */
  lemma ReplayPrefix(name: string, messages: seq<string>, world: nat -> Provider)
    ensures var s := Replay(Answers(name, messages, world), |messages|);
      && |s.texts| <= |messages|
      && (forall i :: 0 <= i < |s.texts| ==> Respond(messages[i], name, world(i)) == Ok(s.texts[i]))
      && (s.fault.None? <==> |s.texts| == |messages|)
      && (s.fault.Some? ==> Respond(messages[|s.texts|], name, world(|s.texts|)) == Err(s.fault.value))
  {
    ReplayShape(Answers(name, messages, world), |messages|);
  }

  lemma {:induction false} ReplayShape(answers: seq<Result<string, Fault>>, k: nat)
    requires k <= |answers|
    ensures var s := Replay(answers, k);
      && |s.texts| <= k
      && (forall i :: 0 <= i < |s.texts| ==> answers[i] == Ok(s.texts[i]))
      && (s.fault.None? <==> |s.texts| == k)
      && (s.fault.Some? ==> answers[|s.texts|] == Err(s.fault.value))
  {
    if k > 0 {
      ReplayShape(answers, k - 1);
    }
  }

  /** Once a message has raised, later messages change nothing: the handler has stopped. */
  lemma {:induction false} ReplayStops(answers: seq<Result<string, Fault>>, k: nat, k': nat)
    requires k <= k' <= |answers|
    requires Replay(answers, k).fault.Some?
    ensures Replay(answers, k') == Replay(answers, k)
    decreases k' - k
  {
    if k < k' {
      ReplayStops(answers, k, k' - 1);
    }
  }

  /** One more message: its response is broadcast, or its exception stops the session. */
  lemma ReplayNext(answers: seq<Result<string, Fault>>, k: nat)
    requires k < |answers| && Replay(answers, k).fault.None?
    ensures Replay(answers, k + 1) ==
      if answers[k].Ok? then Session(Replay(answers, k).texts + [answers[k].value], None)
      else Session(Replay(answers, k).texts, Some(answers[k].error))
  {
  }

  /** Sending one more text adds it to what its recipient has received, and to no one else's. */
  lemma ReceivedNext(log: seq<Delivery>, d: Delivery, c: ClientId)
    ensures Received(log + [d], c) == Received(log, c) + (if d.to == c then [d.text] else [])
  {
    assert (log + [d])[..|log|] == log;
  }

  /** Between `before` and `after` of the log, each of `members` was sent `texts`, and no one else anything. */
  ghost predicate Broadcasts(before: seq<Delivery>, after: seq<Delivery>, members: set<ClientId>, texts: seq<string>) {
    forall c {:trigger Received(after, c)} :: Received(after, c) == Received(before, c) + (if c in members then texts else [])
  }

  lemma BroadcastsAppend(a: seq<Delivery>, b: seq<Delivery>, c: seq<Delivery>, members: set<ClientId>,
                         s: seq<string>, t: seq<string>)
    requires Broadcasts(a, b, members, s) && Broadcasts(b, c, members, t)
    ensures Broadcasts(a, c, members, s + t)
  {
    forall x ensures Received(c, x) == Received(a, x) + (if x in members then s + t else []) {
      assert Received(b, x) == Received(a, x) + (if x in members then s else []);
    }
  }

  /** The log grew from `before` to `after` by one send of `message` to each of `done`. */
  ghost predicate SentTo(before: seq<Delivery>, after: seq<Delivery>, done: set<ClientId>, message: string) {
    && before <= after
    && (forall k :: |before| <= k < |after| ==> after[k].text == message && after[k].to in done)
    && Broadcasts(before, after, done, [message])
  }

  lemma SentToNext(before: seq<Delivery>, log: seq<Delivery>, done: set<ClientId>, c: ClientId, message: string)
    requires SentTo(before, log, done, message) && c !in done
    ensures SentTo(before, log + [Delivery(c, message)], done + {c}, message)
  {
    var after := log + [Delivery(c, message)];
    forall x ensures Received(after, x) == Received(before, x) + (if x in done + {c} then [message] else []) {
      ReceivedNext(log, Delivery(c, message), x);
    }
  }

  /** How `ws_handler` returns: a WebSocketProtocolError is caught and logged, anything else escapes. */
  datatype Exit = Returned | Raised(fault: Fault)

  /** The exception the receive loop ends with: the first raised by a message, else the ending's. */
  function Outcome(s: Session, ending: Ending): Option<Fault> {
    if s.fault.Some? then s.fault else EndFault(ending)
  }

  function HandlerExit(fault: Option<Fault>): Exit {
    match fault
    case None => Returned
    case Some(ProtocolError) => Returned
    case Some(f) => Raised(f)
  }

  class Server {
    /** The connected clients. */
    var clients: set<ClientId>
    /** The display name each client was given when it registered (`ws.name`). */
    var names: map<ClientId, string>
    /** Every send so far, in order. */
    var log: seq<Delivery>

    /** Every registered client has a name. */
    ghost predicate Valid()
      reads this
    {
      clients <= names.Keys
    }

    constructor()
      ensures Valid() && clients == {} && names == map[] && log == []
    {
      clients := {};
      names := map[];
      log := [];
    }

    /** `register`: name the client and add it to the set. */
    method Register(ws: ClientId, name: string)
      requires Valid()
      modifies this
      ensures Valid()
      ensures clients == old(clients) + {ws}
      ensures names == old(names)[ws := name]
      ensures log == old(log)
    {
      names := names[ws := name];
      clients := clients + {ws};
    }

    /** `unregister`: `set.remove`, so the client must be present. */
    method Unregister(ws: ClientId)
      requires Valid() && ws in clients
      modifies this
      ensures Valid()
      ensures clients == old(clients) - {ws}
      ensures names == old(names) && log == old(log)
    {
      clients := clients - {ws};
    }

    /** `client.send(message)`: one delivery, added to the log. */
    method Send(c: ClientId, message: string)
      modifies this`log
      ensures log == old(log) + [Delivery(c, message)]
    {
      log := log + [Delivery(c, message)];
    }

    /**
     * `send_to_clients`: one send of `message` to each client in the set, in
     * the set's iteration order, which is left open; nothing when it is empty.
     */
    method SendToClients(message: string)
      modifies this`log
      ensures old(log) <= log
      ensures |log| == |old(log)| + |clients|
      ensures forall k :: |old(log)| <= k < |log| ==> log[k].text == message && log[k].to in clients
      ensures Broadcasts(old(log), log, clients, [message])
    {
      if clients != {} {
        var remaining := clients;
        ghost var done: set<ClientId> := {};
        while remaining != {}
          invariant done + remaining == clients && done !! remaining
          invariant |log| == |old(log)| + |done|
          invariant SentTo(old(log), log, done, message)
          decreases remaining
        {
          var c :| c in remaining;
          ghost var before := log;
          Send(c, message);
          SentToNext(old(log), before, done, c, message);
          done := done + {c};
          remaining := remaining - {c};
        }
      }
    }

    /**
     * `distrubute`: handle the connection's messages in order, broadcasting
     * each response, until one raises or the messages run out; then the
     * receive loop ends as `ending` says.
     */
    method Distribute(ws: ClientId, messages: seq<string>, world: nat -> Provider, ending: Ending)
      returns (fault: Option<Fault>)
      requires Valid() && ws in clients
      modifies this`log
      ensures var s := Replay(Answers(old(names)[ws], messages, world), |messages|);
        && fault == Outcome(s, ending)
        && old(log) <= log
        && Broadcasts(old(log), log, clients, s.texts)
    {
      var name := names[ws];
      ghost var answers := Answers(name, messages, world);
      var i := 0;
      while i < |messages|
        invariant 0 <= i <= |messages|
        invariant Replay(answers, i).fault == None
        invariant old(log) <= log
        invariant Broadcasts(old(log), log, clients, Replay(answers, i).texts)
      {
        ghost var before := Replay(answers, i).texts;
        var response := Respond(messages[i], name, world(i));
        assert response == answers[i];
        ReplayNext(answers, i);
        if response.Err? {
          ReplayStops(answers, i + 1, |messages|);
          return Some(response.error);
        }
        ghost var mid := log;
        SendToClients(response.value);
        BroadcastsAppend(old(log), mid, log, clients, before, [response.value]);
        i := i + 1;
      }
      fault := EndFault(ending);
    }

    /**
     * `ws_handler`: register, run the receive loop, and unregister in
     * `finally` whatever happened; a WebSocketProtocolError is caught.
     */
    method WsHandler(ws: ClientId, name: string, messages: seq<string>, world: nat -> Provider, ending: Ending)
      returns (exit: Exit)
      requires Valid()
      modifies this
      ensures Valid()
      ensures clients == old(clients) - {ws}
      ensures ws !in old(clients) ==> clients == old(clients)
      ensures names == old(names)[ws := name]
      ensures var s := Replay(Answers(name, messages, world), |messages|);
        && exit == HandlerExit(Outcome(s, ending))
        && old(log) <= log
        && forall c ::
             Received(log, c) == Received(old(log), c) + (if c in old(clients) + {ws} then s.texts else [])
    {
      Register(ws, name);
      var fault := Distribute(ws, messages, world, ending);
      exit := HandlerExit(fault);
      Unregister(ws);
    }
  }
}

/**
 * The browser side of the execution socket (`useExecutionWebSocket`): the
 * current execution id, the running / waiting-for-input / connected flags,
 * the editor's output log and error flag it writes to, the state of its
 * socket, the pending reconnect, and the requests it has sent.
 */
module ExecutionClient {
  import opened Wrappers
  import opened Protocol

  datatype Socket = NoSocket | Connecting | Open | Closed

  /** The editor's `error` property: null, true or false. */
  type ErrorFlag = Option<bool>

  datatype Client = Client(
    current: Option<string>,
    running: bool,
    waitingForInput: bool,
    connected: bool,
    socket: Socket,
    reconnectPending: bool,
    output: seq<string>,
    error: ErrorFlag,
    sent: seq<Request>)

  const Initial: Client := Client(None, false, false, false, NoSocket, false, [], None, [])

  const CompletedBanner: string := "\n[Execution Completed]\n"
  const StoppedBanner: string := "\n[Execution Stopped]\n"

  /** A message about an execution other than the current one; untagged messages and empty tags are never stale. */
  predicate Stale(c: Client, m: ServerMsg)
  {
    !Falsy(Tag(m)) && Tag(m) != c.current
  }

  /** What an accepted message does, by its type. */
  function Effect(c: Client, m: ServerMsg): Client
  {
    match m
    case Output(data, _) => c.(output := c.output + [data])
    case Error(_, data, _) =>
      var shown := if Falsy(data) then c.output else c.output + [data.value];
      c.(output := shown, error := Some(true))
    case Status(status, _, _) => if status == "running" then c.(running := true) else c
    case Exit(_, _, _) =>
      c.(running := false, waitingForInput := false, current := None,
         output := c.output + [CompletedBanner], error := Some(false))
    case InputRequired(_, _) => c.(waitingForInput := true)
    case InputSent(_) => c
    case Stopped(_) => c
  }

  /** `handleMessage`: a stale message is dropped; any other takes its effect. */
  function AfterMessage(c: Client, m: ServerMsg): (r: Client)
    ensures Stale(c, m) ==> r == c
    ensures r.socket == c.socket && r.connected == c.connected && r.sent == c.sent
    ensures r.current == c.current || (m.Exit? && !Stale(c, m) && r.current.None?)
    ensures m.Exit? && !Stale(c, m) ==>
              (!r.running && !r.waitingForInput && r.current.None? &&
               r.output == c.output + [CompletedBanner] && r.error == Some(false))
    ensures m.Output? && !Stale(c, m) ==> r.output == c.output + [m.data]
    ensures m.Error? && !Stale(c, m) ==>
              (r.error == Some(true) &&
               r.output == if Falsy(m.errorData) then c.output else c.output + [m.errorData.value])
    ensures m.InputRequired? && !Stale(c, m) ==> r.waitingForInput
    ensures m.Status? ==> r.running == (c.running || (!Stale(c, m) && m.status == "running"))
  {
    if Stale(c, m) then c else Effect(c, m)
  }

  /** The messages handled in order: handling never sends a request and never selects an execution. */
  function HandleAll(c: Client, ms: seq<ServerMsg>): (r: Client)
    ensures r.socket == c.socket && r.connected == c.connected && r.sent == c.sent
    ensures r.current == c.current || r.current.None?
    decreases |ms|
  {
    if ms == [] then c else HandleAll(AfterMessage(c, ms[0]), ms[1..])
  }

  lemma {:induction false} HandleAllAppend(c: Client, ms: seq<ServerMsg>, more: seq<ServerMsg>)
    ensures HandleAll(c, ms + more) == HandleAll(HandleAll(c, ms), more)
    decreases |ms|
  {
    if ms != [] {
      assert (ms + more)[1..] == ms[1..] + more;
      HandleAllAppend(AfterMessage(c, ms[0]), ms[1..], more);
    } else {
      assert ms + more == more;
    }
  }

  lemma HandlePair(c: Client, first: ServerMsg, second: ServerMsg)
    ensures HandleAll(c, [first, second]) == AfterMessage(AfterMessage(c, first), second)
  {
    var pair := [first, second];
    assert pair[1..] == [second] && [second][1..] == [];
    assert HandleAll(AfterMessage(c, first), [second]) == HandleAll(AfterMessage(AfterMessage(c, first), second), []);
  }

  /** The messages of `ms` that carry no execution id, in their order. */
  function Untagged(ms: seq<ServerMsg>): (u: seq<ServerMsg>)
    ensures |u| <= |ms|
    ensures forall m :: m in u <==> m in ms && Falsy(Tag(m))
    decreases |ms|
  {
    if ms == [] then []
    else if Falsy(Tag(ms[0])) then [ms[0]] + Untagged(ms[1..])
    else Untagged(ms[1..])
  }

  /** Filtering keeps order: it distributes over concatenation. */
  lemma {:induction false} UntaggedAppend(a: seq<ServerMsg>, b: seq<ServerMsg>)
    ensures Untagged(a + b) == Untagged(a) + Untagged(b)
    decreases |a|
  {
    if a != [] {
      assert (a + b)[1..] == a[1..] + b;
      UntaggedAppend(a[1..], b);
    } else {
      assert a + b == b;
    }
  }

  /**
   * With no current execution, every tagged message is dropped: the client ends
   * where the untagged messages alone would take it, still with no current execution.
   */
  lemma {:induction false} IdleIgnoresTagged(c: Client, ms: seq<ServerMsg>)
    requires c.current.None?
    ensures HandleAll(c, ms) == HandleAll(c, Untagged(ms))
    ensures HandleAll(c, ms).current.None?
    decreases |ms|
  {
    if ms != [] {
      var next := AfterMessage(c, ms[0]);
      assert next.current.None?;
      IdleIgnoresTagged(next, ms[1..]);
      if Falsy(Tag(ms[0])) {
        assert Untagged(ms) == [ms[0]] + Untagged(ms[1..]);
        assert ([ms[0]] + Untagged(ms[1..]))[1..] == Untagged(ms[1..]);
      } else {
        assert next == c;
      }
    }
  }

  /** After an accepted `exit`, the rest of the stream's tagged messages change nothing. */
  lemma ExitSilencesTagged(c: Client, exit: ServerMsg, ms: seq<ServerMsg>)
    requires exit.Exit? && !Stale(c, exit)
    ensures HandleAll(c, [exit] + ms) == HandleAll(AfterMessage(c, exit), Untagged(ms))
  {
    assert ([exit] + ms)[1..] == ms;
    IdleIgnoresTagged(AfterMessage(c, exit), ms);
  }

  /**
   * `executeCode`: only on an open socket, a new current execution with a cleared
   * output and error, running and not waiting, announced by an `execute` request carrying its id.
   */
  function AfterExecute(c: Client, language: string, code: string, id: string): (r: Client)
    ensures c.socket != Open ==> r == c
    ensures c.socket == Open ==> (r.current == Some(id) && r.running && !r.waitingForInput &&
                                  r.output == [] && r.error.None? &&
                                  r.sent == c.sent + [Execute(Str(language), Str(code), Str(id))])
  {
    if c.socket != Open then c
    else
      c.(current := Some(id), output := [], error := None, running := true, waitingForInput := false,
         sent := c.sent + [Execute(Str(language), Str(code), Str(id))])
  }

  /** `sendInput`: only on an open socket, no longer waiting and an `input` request sent. */
  function AfterSendInput(c: Client, input: string): (r: Client)
    ensures c.socket != Open ==> r == c
    ensures c.socket == Open ==> r == c.(waitingForInput := false, sent := c.sent + [Input(Str(input))])
  {
    if c.socket != Open then c
    else c.(waitingForInput := false, sent := c.sent + [Input(Str(input))])
  }

  /**
   * `stopExecution`: always idle with the stop banner shown; the `stop` request,
   * carrying the execution that was current, goes out only on an open socket.
   */
  function AfterStop(c: Client): (r: Client)
    ensures r.current.None? && !r.running && !r.waitingForInput
    ensures r.output == c.output + [StoppedBanner]
    ensures r.sent == if c.socket == Open then c.sent + [Stop(c.current)] else c.sent
  {
    var idle := c.(current := None, running := false, waitingForInput := false,
                   output := c.output + [StoppedBanner]);
    if c.socket != Open then idle else idle.(sent := c.sent + [Stop(c.current)])
  }

  /** `connect`: nothing when the socket is open, otherwise a new socket that is connecting. */
  function AfterConnect(c: Client): (r: Client)
    ensures c.socket == Open ==> r == c
    ensures c.socket != Open ==> r == c.(socket := Connecting)
  {
    if c.socket == Open then c else c.(socket := Connecting)
  }

  /** `onopen`: connected, with the error cleared. */
  function AfterOpen(c: Client): (r: Client)
    ensures r.socket == Open && r.connected && r.error.None?
  {
    c.(socket := Open, connected := true, error := None)
  }

  /** `onclose`: not connected, not running, and a reconnect scheduled. */
  function AfterClose(c: Client): (r: Client)
    ensures r.socket == Closed && !r.connected && !r.running && r.reconnectPending
    ensures r.current == c.current && r.output == c.output
  {
    c.(socket := Closed, connected := false, running := false, reconnectPending := true)
  }

  /** The scheduled reconnect fires and connects. */
  function AfterReconnectTimer(c: Client): (r: Client)
    requires c.reconnectPending
    ensures !r.reconnectPending && (c.socket != Open ==> r.socket == Connecting)
  {
    AfterConnect(c.(reconnectPending := false))
  }

  class ExecutionSocketClient {
    var current: Option<string>
    var running: bool
    var waitingForInput: bool
    var connected: bool
    var socket: Socket
    var reconnectPending: bool
    var output: seq<string>
    var error: ErrorFlag
    var sent: seq<Request>

    function State(): Client
      reads this
    {
      Client(current, running, waitingForInput, connected, socket, reconnectPending, output, error, sent)
    }

    constructor ()
      ensures State() == Initial
    {
      current := None;
      running := false;
      waitingForInput := false;
      connected := false;
      socket := NoSocket;
      reconnectPending := false;
      output := [];
      error := None;
      sent := [];
    }

    method HandleMessage(m: ServerMsg)
      modifies this
      ensures State() == AfterMessage(old(State()), m)
    {
      if m.Exit? || m.Output? || m.Status? || m.InputRequired? || m.Error? {
        if Stale(State(), m) {
          return;
        }
      }
      match m {
        case Output(data, _) =>
          output := output + [data];
        case Error(_, data, _) =>
          if !Falsy(data) {
            output := output + [data.value];
          }
          error := Some(true);
        case Status(status, _, _) =>
          if status == "running" {
            running := true;
          }
        case Exit(_, _, _) =>
          running := false;
          waitingForInput := false;
          current := None;
          output := output + [CompletedBanner];
          error := Some(false);
        case InputRequired(_, _) =>
          waitingForInput := true;
        case InputSent(_) =>
        case Stopped(_) =>
      }
    }

    /** `executeCode` with the execution id it generates passed in. */
    method ExecuteCode(language: string, code: string, id: string)
      modifies this
      ensures State() == AfterExecute(old(State()), language, code, id)
    {
      if socket != Open {
        return;
      }
      current := Some(id);
      output := [];
      error := None;
      running := true;
      waitingForInput := false;
      sent := sent + [Execute(Str(language), Str(code), Str(id))];
    }

    method SendInput(input: string)
      modifies this
      ensures State() == AfterSendInput(old(State()), input)
    {
      if socket != Open {
        return;
      }
      waitingForInput := false;
      sent := sent + [Input(Str(input))];
    }

    method StopExecution()
      modifies this
      ensures State() == AfterStop(old(State()))
    {
      var stopped := current;
      current := None;
      running := false;
      waitingForInput := false;
      output := output + [StoppedBanner];
      if socket != Open {
        return;
      }
      sent := sent + [Stop(stopped)];
    }

    method Connect()
      modifies this
      ensures State() == AfterConnect(old(State()))
    {
      if socket == Open {
        return;
      }
      socket := Connecting;
    }

    method OnOpen()
      modifies this
      ensures State() == AfterOpen(old(State()))
    {
      socket := Open;
      connected := true;
      error := None;
    }

    method OnClose()
      modifies this
      ensures State() == AfterClose(old(State()))
    {
      socket := Closed;
      connected := false;
      running := false;
      reconnectPending := true;
    }

    method OnReconnectTimer()
      requires reconnectPending
      modifies this
      ensures State() == AfterReconnectTimer(old(State()))
    {
      reconnectPending := false;
      Connect();
    }
  }
}

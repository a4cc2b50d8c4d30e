/**
 * One execution-socket connection on the server. Its state is the handler's
 * three closure variables (the current execution id, the attached stream and
 * the echo flag) together with what it has sent to the client and written to
 * program input. `execute` is two events: the message itself, and the moment
 * the awaited `executeCode` settles; stream output, stream end and stream
 * error are further events, each tagged with the execution they belong to.
 */
module ExecutionSocket {
  import opened Wrappers
  import opened Protocol
  import opened OutputFilter
  import opened DockerEngine
  import opened Registry
  import opened ExecutionService

  /** A write of `text` to the standard input of `stream`. */
  datatype StdinWrite = StdinWrite(stream: StreamId, text: string)

  datatype Conn = Conn(
    current: Option<string>,
    stream: Option<StreamId>,
    ignoreNextOutput: bool,
    outbox: seq<ServerMsg>,
    writes: seq<StdinWrite>)

  const Initial: Conn := Conn(None, None, false, [], [])

  /** A stream is attached only while an execution is current, and execution ids are never empty. */
  predicate Consistent(s: Conn)
  {
    (s.stream.Some? ==> s.current.Some?) && (s.current.Some? ==> s.current.value != "")
  }

  /** `r` has sent what `s` had sent, then only messages about execution `id`, and wrote nothing more. */
  predicate AppendsFor(s: Conn, r: Conn, id: string)
  {
    && |s.outbox| <= |r.outbox| && r.outbox[..|s.outbox|] == s.outbox
    && (forall k :: |s.outbox| <= k < |r.outbox| ==> Tag(r.outbox[k]) == Some(id))
    && r.writes == s.writes
  }

  function Send(s: Conn, messages: seq<ServerMsg>): Conn
  {
    s.(outbox := s.outbox + messages)
  }

  /** An untagged error reply; nothing else changes. */
  function Reject(s: Conn, error: string): (r: Conn)
    ensures r.(outbox := s.outbox) == s
    ensures r.outbox == s.outbox + [Error(Some(error), None, None)]
  {
    Send(s, [Error(Some(error), None, None)])
  }

  // ---------------------------------------------------------------------------
  // Inbound messages
  // ---------------------------------------------------------------------------

  /** A request that only earns an error reply. */
  predicate Rejected(request: Request)
  {
    match request
    case Execute(language, code, _) => FalsyField(language) || FalsyField(code)
    case Other(_) => true
    case Malformed(_) => true
    case _ => false
  }

  function RejectText(request: Request): string
  {
    match request
    case Execute(_, _, _) => RequiredMessage
    case Other(kind) => "Unknown message type: " + Text(kind)
    case Malformed(reason) => reason
    case _ => ""
  }

  /**
   * `execute` up to the call into the service: the previous execution, if one is current,
   * is dropped with its stream; the new one is current and `starting` is sent. A stream
   * left attached while nothing was current stays attached.
   */
  function Begin(s: Conn, id: string): (r: Conn)
    requires id != ""
    ensures Consistent(r) && r.current == Some(id)
    ensures r.stream == if s.current.Some? then None else s.stream
    ensures Consistent(s) ==> r.stream.None?
    ensures AppendsFor(s, r, id) && r.outbox[|s.outbox|..] == [Status("starting", StartingMessage, id)]
  {
    var stopped := if s.current.Some? then s.(current := None, stream := None) else s;
    Send(stopped.(current := Some(id)), [Status("starting", StartingMessage, id)])
  }

  /** `handleStop`: the current execution, if any, is forgotten. */
  function StopCurrent(s: Conn): (r: Conn)
    ensures Consistent(s) ==> r.current.None? && r.stream.None?
    ensures r.outbox == s.outbox && r.writes == s.writes
  {
    if s.current.Some? then s.(current := None, stream := None) else s
  }

  /** `handleInput`: the input and a newline go to the attached stream; without one, an error reply. */
  function InputReceived(s: Conn, input: Field): (r: Conn)
    ensures s.stream.None? ==> r == Reject(s, NoExecutionMessage)
    ensures s.stream.Some? ==> (r.writes == s.writes + [StdinWrite(s.stream.value, Text(input) + "\n")] &&
                                r.ignoreNextOutput && r.outbox == s.outbox + [InputSent(InputSentMessage)] &&
                                r.current == s.current && r.stream == s.stream)
  {
    if s.stream.None? then Reject(s, NoExecutionMessage)
    else
      var write := StdinWrite(s.stream.value, Text(input) + "\n");
      Send(s.(ignoreNextOutput := true, writes := s.writes + [write]), [InputSent(InputSentMessage)])
  }

  /** The message switch; a valid `execute` begins with the id it adopts from `generated` when the client gives none. */
  function OnMessage(s: Conn, request: Request, generated: string): (r: Conn)
    requires generated != ""
    ensures Rejected(request) ==> r == Reject(s, RejectText(request))
    ensures request.Execute? && !Rejected(request) ==>
              (var id := AdoptedId(request.executionId, generated);
               && r.current == Some(id)
               && r.stream == (if s.current.Some? then None else s.stream)
               && r.outbox == s.outbox + [Status("starting", StartingMessage, id)]
               && r.writes == s.writes && r.ignoreNextOutput == s.ignoreNextOutput)
    ensures request.Input? ==> r == InputReceived(s, request.input)
    ensures request.Stop? ==>
              (&& r.current.None?
               && r.stream == (if s.current.Some? then None else s.stream)
               && r.outbox == s.outbox + [ServerMsg.Stopped(StoppedMessage)]
               && r.writes == s.writes)
    ensures Consistent(s) ==> Consistent(r)
  {
    match request
    case Execute(language, code, clientId) =>
      if FalsyField(language) || FalsyField(code) then Reject(s, RequiredMessage)
      else Begin(s, AdoptedId(clientId, generated))
    case Input(input) => InputReceived(s, input)
    case Stop(_) => Send(StopCurrent(s), [ServerMsg.Stopped(StoppedMessage)])
    case Other(kind) => Reject(s, "Unknown message type: " + Text(kind))
    case Malformed(reason) => Reject(s, reason)
  }

  // ---------------------------------------------------------------------------
  // Completion of `executeCode`
  // ---------------------------------------------------------------------------

  /**
   * The service started execution `id` on `stream`: `running` and `ready` are sent,
   * and the stream is attached only if `id` is still current.
   */
  function Started(s: Conn, id: string, stream: StreamId): (r: Conn)
    ensures Consistent(s) ==> Consistent(r)
    ensures AppendsFor(s, r, id) && r.current == s.current
    ensures r.stream == if s.current == Some(id) then Some(stream) else s.stream
  {
    var attached := if s.current == Some(id) then s.(stream := Some(stream)) else s;
    Send(attached, [Status("running", RunningMessage, id), InputRequired(ReadyMessage, id)])
  }

  /**
   * The code as written: the stream is attached whichever execution is current, even
   * when none is, which leaves a stream that no execution owns.
   */
  function StartedAsWritten(s: Conn, id: string, stream: StreamId): (r: Conn)
    ensures AppendsFor(s, r, id) && r.current == s.current && r.stream == Some(stream)
    ensures r.outbox[|s.outbox|..] == [Status("running", RunningMessage, id), InputRequired(ReadyMessage, id)]
    ensures s.current.None? ==> !Consistent(r)
  {
    Send(s.(stream := Some(stream)), [Status("running", RunningMessage, id), InputRequired(ReadyMessage, id)])
  }

  /**
   * The service refused or failed execution `id`: an error and `exit 1` about `id` are
   * sent, and the connection is cleared only if `id` is still current.
   */
  function Failed(s: Conn, id: string, message: string): (r: Conn)
    ensures Consistent(s) ==> Consistent(r)
    ensures AppendsFor(s, r, id)
    ensures r.outbox[|s.outbox|..] == [Error(Some(message), None, Some(id)), Exit(1, FailedMessage, Some(id))]
    ensures s.current == Some(id) ==> r.current.None? && r.stream.None?
    ensures s.current != Some(id) ==> r.current == s.current && r.stream == s.stream
  {
    var cleared := if s.current == Some(id) then s.(current := None, stream := None) else s;
    Send(cleared, [Error(Some(message), None, Some(id)), Exit(1, FailedMessage, Some(id))])
  }

  /** The code as written: the reply is tagged with whatever is current, and the connection is cleared regardless. */
  function FailedAsWritten(s: Conn, message: string): (r: Conn)
    ensures Consistent(r) && r.current.None? && r.stream.None? && r.writes == s.writes
    ensures r.outbox == s.outbox + [Error(Some(message), None, s.current), Exit(1, FailedMessage, s.current)]
  {
    var tag := s.current;
    Send(s.(current := None, stream := None), [Error(Some(message), None, tag), Exit(1, FailedMessage, tag)])
  }

  // ---------------------------------------------------------------------------
  // Callbacks of a running execution
  // ---------------------------------------------------------------------------

  /** Output of execution `id`: sent, followed by an input prompt, only while `id` is current. */
  function Stdout(s: Conn, id: string, output: string): (r: Conn)
    ensures r == s <==> s.current != Some(id)
    ensures s.current == Some(id) ==> (AppendsFor(s, r, id) &&
                                       r.outbox[|s.outbox|..] == [Output(output, id), InputRequired(MayWaitMessage, id)] &&
                                       r.current == s.current && r.stream == s.stream && !r.ignoreNextOutput)
  {
    if s.current != Some(id) then s
    else Send(s.(ignoreNextOutput := false), [Output(output, id), InputRequired(MayWaitMessage, id)])
  }

  /** A stream error of execution `id`: reported only while `id` is current, which it stays. */
  function Stderr(s: Conn, id: string, error: string): (r: Conn)
    ensures r == s <==> s.current != Some(id)
    ensures s.current == Some(id) ==> (AppendsFor(s, r, id) &&
                                       r.outbox[|s.outbox|..] == [Error(None, Some(error), Some(id))] &&
                                       r.current == s.current && r.stream == s.stream)
  {
    if s.current != Some(id) then s
    else Send(s, [Error(None, Some(error), Some(id))])
  }

  /** Execution `id` ended: only while it is current, the connection is cleared and `exit` is sent. */
  function Exited(s: Conn, id: string, exitCode: int): (r: Conn)
    ensures r == s <==> s.current != Some(id)
    ensures s.current == Some(id) ==> (AppendsFor(s, r, id) &&
                                       r.outbox[|s.outbox|..] == [Exit(exitCode, CompletedMessage, Some(id))] &&
                                       r.current.None? && r.stream.None?)
  {
    if s.current != Some(id) then s
    else Send(s.(current := None, stream := None), [Exit(exitCode, CompletedMessage, Some(id))])
  }

  datatype Callback =
    | Data(id: string, output: string)
    | StreamFailure(id: string, error: string)
    | Ended(id: string, exitCode: int)

  /** One callback: it reports only about the current execution and at most ends it. */
  function Deliver(s: Conn, c: Callback): (r: Conn)
    ensures r == s || AppendsFor(s, r, c.id)
    ensures r.current == s.current || r.current.None?
  {
    match c
    case Data(id, output) => Stdout(s, id, output)
    case StreamFailure(id, error) => Stderr(s, id, error)
    case Ended(id, exitCode) => Exited(s, id, exitCode)
  }

  /** Callbacks in order: they only append to what was sent, write nothing, and make no execution current. */
  function DeliverAll(s: Conn, cs: seq<Callback>): (r: Conn)
    ensures |s.outbox| <= |r.outbox| && r.outbox[..|s.outbox|] == s.outbox
    ensures r.writes == s.writes
    ensures r.current == s.current || r.current.None?
    decreases |cs|
  {
    if cs == [] then s else DeliverAll(Deliver(s, cs[0]), cs[1..])
  }

  /**
   * Callbacks never make an execution current, so one that is not current stays
   * silent through any sequence of them: nothing about it is sent any more.
   */
  lemma {:induction false} RetiredStaysSilent(s: Conn, x: string, cs: seq<Callback>)
    requires s.current != Some(x)
    decreases |cs|
    ensures var r := DeliverAll(s, cs);
      && r.current != Some(x)
      && |s.outbox| <= |r.outbox| && r.outbox[..|s.outbox|] == s.outbox
      && forall k :: |s.outbox| <= k < |r.outbox| ==> Tag(r.outbox[k]) != Some(x)
  {
    if cs != [] {
      var t := Deliver(s, cs[0]);
      assert t.current != Some(x);
      assert |s.outbox| <= |t.outbox| && t.outbox[..|s.outbox|] == s.outbox;
      assert forall k :: |s.outbox| <= k < |t.outbox| ==> Tag(t.outbox[k]) != Some(x);
      RetiredStaysSilent(t, x, cs[1..]);
      var r := DeliverAll(t, cs[1..]);
      assert r == DeliverAll(s, cs);
      assert r.outbox[..|t.outbox|] == t.outbox;
      assert r.outbox[..|s.outbox|] == t.outbox[..|s.outbox|];
      forall k | |s.outbox| <= k < |r.outbox|
        ensures Tag(r.outbox[k]) != Some(x)
      {
        if k < |t.outbox| {
          assert r.outbox[k] == t.outbox[k];
        }
      }
    }
  }

  /** Once execution `id` has sent `exit`, no later callback sends anything about it. */
  lemma AfterExitSilent(s: Conn, id: string, exitCode: int, cs: seq<Callback>)
    requires s.current == Some(id)
    ensures var e := Exited(s, id, exitCode);
      var r := DeliverAll(e, cs);
      forall k :: |e.outbox| <= k < |r.outbox| ==> Tag(r.outbox[k]) != Some(id)
  {
    RetiredStaysSilent(Exited(s, id, exitCode), id, cs);
  }

  // ---------------------------------------------------------------------------
  // The two completions as written, against the corrected ones
  // ---------------------------------------------------------------------------

  /**
   * Execution A is superseded by execution B, and only then does A's call into the
   * service fail: as written, the failure is reported under B and B is cleared. The
   * corrected completion reports under A and leaves B current. This holds from any
   * connection state, whatever the languages and the failure. In the server the
   * failure must settle after B's handler has made B current, so it comes from an
   * engine call of a known language (an image pull, say), not from the synchronous
   * refusal of an unknown one.
   */
  lemma SupersededFailureClearsNewer(s: Conn, a: Request, b: Request, message: string)
    requires a.Execute? && !Rejected(a) && a.executionId == Str("A")
    requires b.Execute? && !Rejected(b) && b.executionId == Str("B")
    ensures var s2 := OnMessage(OnMessage(s, a, "u1"), b, "u2");
      var written := FailedAsWritten(s2, message);
      var corrected := Failed(s2, "A", message);
      && s2.current == Some("B")
      && written.current.None? && written.stream.None?
      && written.outbox == s2.outbox + [Error(Some(message), None, Some("B")), Exit(1, FailedMessage, Some("B"))]
      && corrected.current == Some("B") && corrected.stream == s2.stream
      && corrected.outbox == s2.outbox + [Error(Some(message), None, Some("A")), Exit(1, FailedMessage, Some("A"))]
  {
  }

  /**
   * An `execute` (id A) stopped before its completion: the success of A, as written,
   * attaches A's stream although nothing is current. A later `execute` B does not
   * detach it, since nothing was current to stop, so input sent before B completes
   * goes to the stopped program A. The corrected completion attaches nothing, and the
   * input is refused.
   */
  lemma StoppedStartAttachesStream()
    ensures var s1 := OnMessage(Initial, Execute(Str("python"), Str("input()"), Str("A")), "u1");
      var s2 := OnMessage(s1, Stop(Some("A")), "u2");
      var written := OnMessage(StartedAsWritten(s2, "A", 7), Execute(Str("python"), Str("print(2)"), Str("B")), "u3");
      var corrected := OnMessage(Started(s2, "A", 7), Execute(Str("python"), Str("print(2)"), Str("B")), "u3");
      var writtenInput := OnMessage(written, Input(Str("x")), "u4");
      var correctedInput := OnMessage(corrected, Input(Str("x")), "u4");
      && s2.current.None?
      && written.current == Some("B") && written.stream == Some(7)
      && writtenInput.writes == [StdinWrite(7, "x\n")]
      && writtenInput.outbox[|writtenInput.outbox| - 1] == InputSent(InputSentMessage)
      && corrected.current == Some("B") && corrected.stream.None?
      && correctedInput.writes == []
      && correctedInput.outbox[|correctedInput.outbox| - 1] == Error(Some(NoExecutionMessage), None, None)
  {
    var s1 := OnMessage(Initial, Execute(Str("python"), Str("input()"), Str("A")), "u1");
    assert s1.current == Some("A") && s1.stream.None?;
    var s2 := OnMessage(s1, Stop(Some("A")), "u2");
    assert s2.current.None? && s2.stream.None? && s2.writes == [];
    var started := StartedAsWritten(s2, "A", 7);
    assert started.stream == Some(7) && started.current.None? && started.writes == [];
    var written := OnMessage(started, Execute(Str("python"), Str("print(2)"), Str("B")), "u3");
    assert written.stream == Some(7) && written.writes == [];
    assert Text(Str("x")) + "\n" == "x\n";
    assert [] + [StdinWrite(7, "x\n")] == [StdinWrite(7, "x\n")];
    var corrected := OnMessage(Started(s2, "A", 7), Execute(Str("python"), Str("print(2)"), Str("B")), "u3");
    assert corrected.stream.None? && corrected.writes == [];
  }

  // ---------------------------------------------------------------------------
  // The connection
  // ---------------------------------------------------------------------------

  class Connection {
    const service: DockerExecutionService
    var current: Option<string>
    var stream: Option<StreamId>
    var ignoreNextOutput: bool
    /** The messages sent to the client, oldest first. */
    var outbox: seq<ServerMsg>
    /** The writes to program input, oldest first. */
    var writes: seq<StdinWrite>

    function State(): Conn
      reads this
    {
      Conn(current, stream, ignoreNextOutput, outbox, writes)
    }

    ghost predicate Valid()
      reads this, service, service.engine
    {
      service.Valid() && Consistent(State())
    }

    constructor (service: DockerExecutionService)
      requires service.Valid()
      ensures Valid() && this.service == service && State() == Initial
    {
      this.service := service;
      current := None;
      stream := None;
      ignoreNextOutput := false;
      outbox := [];
      writes := [];
    }

    method SetState(s: Conn)
      modifies this
      ensures State() == s
    {
      current := s.current;
      stream := s.stream;
      ignoreNextOutput := s.ignoreNextOutput;
      outbox := s.outbox;
      writes := s.writes;
    }

    /**
     * An inbound message. `execute` and `stop` first stop the current execution in the
     * service; a valid `execute` returns the execution now waiting for `executeCode`.
     */
    method Receive(request: Request, generated: string) returns (pending: Option<string>)
      requires Valid() && generated != ""
      modifies this, service
      ensures Valid()
      ensures State() == OnMessage(old(State()), request, generated)
      ensures pending.Some? <==> request.Execute? && !Rejected(request)
      ensures pending.Some? ==> current == pending
      ensures service.languageContainers == old(service.languageContainers) && service.initialized == old(service.initialized)
      ensures service.activeExecutions ==
                if old(current).Some? && (request.Stop? || (request.Execute? && !Rejected(request)))
                then old(service.activeExecutions) - {old(current).value}
                else old(service.activeExecutions)
    {
      pending := None;
      match request {
        case Execute(language, code, clientId) =>
          if !(FalsyField(language) || FalsyField(code)) {
            if current.Some? {
              service.StopExecution(current.value);
            }
            pending := Some(AdoptedId(clientId, generated));
          }
        case Stop(_) =>
          if current.Some? {
            service.StopExecution(current.value);
          }
        case _ =>
      }
      SetState(OnMessage(State(), request, generated));
    }

    /** `executeCode` for execution `id` settles: started on a stream, or failed with an error message. */
    method CompleteExecute(id: string, language: string, code: string) returns (r: Result<Execution>)
      requires Valid()
      modifies this, service, service.engine
      ensures Valid()
      ensures r.Ok? ==> State() == Started(old(State()), id, r.value.stream) && id in service.activeExecutions
      ensures r.Err? ==> State() == Failed(old(State()), id, r.message)
      ensures r.Err? && Lookup(language).Some? ==> id !in service.activeExecutions
    {
      r := service.ExecuteCode(id, language, code);
      if r.Ok? {
        SetState(Started(State(), id, r.value.stream));
      } else {
        SetState(Failed(State(), id, r.message));
      }
    }

    /** A chunk from execution `id`'s stream: the hijack headers are removed and what remains, if anything, is output. */
    method StreamData(id: string, chunk: string)
      requires Valid()
      modifies this
      ensures Valid()
      ensures State() == match ForwardedChunk(chunk)
                         case None => old(State())
                         case Some(output) => Stdout(old(State()), id, output)
    {
      var forwarded := ForwardedChunk(chunk);
      if forwarded.Some? {
        SetState(Stdout(State(), id, forwarded.value));
      }
    }

    /** Execution `id`'s stream ended: the service forgets the session and reports the exit code. */
    method StreamEnd(id: string, inspection: Option<Option<int>>)
      requires Valid()
      modifies this, service
      ensures Valid()
      ensures State() == Exited(old(State()), id, ExitCodeOf(inspection))
      ensures service.languageContainers == old(service.languageContainers) && service.initialized == old(service.initialized)
      ensures service.activeExecutions == old(service.activeExecutions) - {id}
    {
      var exitCode := service.OnStreamEnd(id, inspection);
      SetState(Exited(State(), id, exitCode));
    }

    /** Execution `id`'s stream failed: the service forgets the session and the error is reported. */
    method StreamError(id: string, message: string)
      requires Valid()
      modifies this, service
      ensures Valid()
      ensures State() == Stderr(old(State()), id, message)
      ensures service.languageContainers == old(service.languageContainers) && service.initialized == old(service.initialized)
      ensures service.activeExecutions == old(service.activeExecutions) - {id}
    {
      var error := service.OnStreamError(id, message);
      SetState(Stderr(State(), id, error));
    }

    /** The socket closed: the current execution, if any, is stopped in the service. */
    method Close()
      requires Valid()
      modifies service
      ensures Valid()
      ensures service.languageContainers == old(service.languageContainers) && service.initialized == old(service.initialized)
      ensures service.activeExecutions ==
                if current.Some? then old(service.activeExecutions) - {current.value}
                else old(service.activeExecutions)
    {
      if current.Some? {
        service.StopExecution(current.value);
      }
    }
  }
}

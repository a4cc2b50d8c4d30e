/**
 * The browser and one server connection together: the requests the client sends
 * are what the server receives, and the server's messages, in order, are what the
 * client handles.
 */
module Session {
  import opened Wrappers
  import opened Protocol
  import Server = ExecutionSocket
  import Browser = ExecutionClient

  /** The error of A's image pull, which the engine reports after B has begun. */
  const FailureText: string := "cannot pull gcc:latest"

  /** The browser after the user ran C code (execution A) and then Python code (execution B). */
  function TwoRunsBrowser(): Browser.Client
  {
    Browser.AfterExecute(Browser.AfterExecute(Browser.AfterOpen(Browser.Initial), "c", "int main() {}", "A"),
                         "python", "print(1)", "B")
  }

  /** The server connection after receiving the browser's two requests, before either completes. */
  function TwoRunsServer(): Server.Conn
  {
    var c := TwoRunsBrowser();
    Server.OnMessage(Server.OnMessage(Server.Initial, c.sent[0], "u1"), c.sent[1], "u2")
  }

  const Starting: seq<ServerMsg> := [Status("starting", StartingMessage, "A"), Status("starting", StartingMessage, "B")]
  const Ready: seq<ServerMsg> := [Status("running", RunningMessage, "B"), InputRequired(ReadyMessage, "B")]

  lemma TwoRuns()
    ensures TwoRunsBrowser() == Browser.Client(Some("B"), true, false, true, Browser.Open, false, [], None,
                                               [Execute(Str("c"), Str("int main() {}"), Str("A")),
                                                Execute(Str("python"), Str("print(1)"), Str("B"))])
    ensures TwoRunsServer().current == Some("B") && TwoRunsServer().outbox == Starting
    ensures Browser.HandleAll(TwoRunsBrowser(), Starting) == TwoRunsBrowser()
  {
    var c := TwoRunsBrowser();
    var s1 := Server.OnMessage(Server.Initial, c.sent[0], "u1");
    assert s1.outbox == [Starting[0]];
    Browser.HandlePair(c, Starting[0], Starting[1]);
  }

  /**
   * As written, the failure of A reaches the browser tagged with B: the browser takes it
   * for B's end, shows "[Execution Completed]", stops tracking B, and then drops B's own
   * `running` and `ready` messages.
   */
  lemma SupersededFailureEndsNewerRun()
    ensures var written := Server.StartedAsWritten(Server.FailedAsWritten(TwoRunsServer(), FailureText), "B", 3);
      var seen := Browser.HandleAll(TwoRunsBrowser(), written.outbox);
      seen.current.None? && !seen.running && seen.output == [Browser.CompletedBanner]
  {
    TwoRuns();
    var c := TwoRunsBrowser();
    var failedB := [Error(Some(FailureText), None, Some("B")), Exit(1, FailedMessage, Some("B"))];
    var written := Server.StartedAsWritten(Server.FailedAsWritten(TwoRunsServer(), FailureText), "B", 3);
    assert written.outbox == Starting + failedB + Ready;
    Browser.HandleAllAppend(c, Starting, failedB);
    Browser.HandlePair(c, failedB[0], failedB[1]);
    var w := Browser.HandleAll(c, failedB);
    assert w.current.None? && w.output == [Browser.CompletedBanner] && !w.running;
    Browser.HandleAllAppend(c, Starting + failedB, Ready);
    Browser.HandlePair(w, Ready[0], Ready[1]);
  }

  /** With the corrected completion the messages about A are dropped, and B runs, waiting for input. */
  lemma SupersededFailureLeavesNewerRun()
    ensures var corrected := Server.Started(Server.Failed(TwoRunsServer(), "A", FailureText), "B", 3);
      var seen := Browser.HandleAll(TwoRunsBrowser(), corrected.outbox);
      seen.current == Some("B") && seen.running && seen.waitingForInput && seen.output == []
  {
    TwoRuns();
    var c := TwoRunsBrowser();
    var failedA := [Error(Some(FailureText), None, Some("A")), Exit(1, FailedMessage, Some("A"))];
    var corrected := Server.Started(Server.Failed(TwoRunsServer(), "A", FailureText), "B", 3);
    assert corrected.outbox == Starting + failedA + Ready;
    Browser.HandleAllAppend(c, Starting, failedA);
    Browser.HandlePair(c, failedA[0], failedA[1]);
    Browser.HandleAllAppend(c, Starting + failedA, Ready);
    Browser.HandlePair(c, Ready[0], Ready[1]);
  }
}

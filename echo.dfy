/** The echo agent: a welcome on session start, and each message repeated back. */
module Echo {
  import opened Wrappers
  import opened Text
  import opened Events
  import opened Stream
  import opened Conversation
  import opened Agents

  const Name: string := "echo"
  const Welcome: string := "Welcome to the Echo Agent!"

  /** What `handle_session_start` does to the stream. */
  function StartScript(): seq<Emission> {
    [EmitTts(Welcome), EmitEnd]
  }

  /** The reply to a message whose text is `text`; a missing text counts as empty. */
  function Echoed(text: Option<string>): string {
    "You said: " + text.GetOr("")
  }

  /** What `handle_message` does to the stream. */
  function MessageScript(text: Option<string>): seq<Emission> {
    [EmitTts(Echoed(text)), EmitEnd]
  }

  class EchoAgent {
    const model: string
    const welcome: string

    constructor (model: string)
      ensures this.model == model && welcome == Welcome
    {
      this.model := model;
      welcome := Welcome;
    }

    method HandleSessionStart(payload: Payload, stream: StreamHelper)
      requires payload.SessionStart? && welcome == Welcome
      modifies stream, stream.controller, stream.controller.queue
      ensures stream.State() == Run(old(stream.State()), stream.turnId, StartScript())
    {
      ghost var s0 := stream.State();
      stream.Tts(welcome);
      RunStep(s0, stream.turnId, [], EmitTts(welcome));
      stream.End();
      RunStep(s0, stream.turnId, [EmitTts(welcome)], EmitEnd);
      assert [EmitTts(welcome)] + [EmitEnd] == StartScript();
    }

    /** Repeats the text back, ends the stream, and returns no messages for the history. */
    method HandleMessage(payload: Payload, stream: StreamHelper, history: seq<ModelMessage>)
      returns (newMessages: seq<ModelMessage>)
      requires payload.Message?
      modifies stream, stream.controller, stream.controller.queue
      ensures newMessages == []
      ensures stream.State() == Run(old(stream.State()), stream.turnId, MessageScript(payload.text))
    {
      ghost var s0 := stream.State();
      var text := payload.text.GetOr("");
      stream.Tts("You said: " + text);
      RunStep(s0, stream.turnId, [], EmitTts(Echoed(payload.text)));
      stream.End();
      RunStep(s0, stream.turnId, [EmitTts(Echoed(payload.text))], EmitEnd);
      assert [EmitTts(Echoed(payload.text))] + [EmitEnd] == MessageScript(payload.text);
      newMessages := [];
    }

    /** `handle_session_end` does nothing. */
    method HandleSessionEnd(payload: Payload)
      requires payload.SessionEnd?
    {
    }
  }

  /** The message text of a payload that has one. */
  function TextOf(p: Payload): Option<string> {
    if p.SessionStart? || p.Message? then p.text else None
  }

  /** The echo agent as the webhook runs it. */
  function Factory(model: string): (a: Agent)
    ensures a.className == "EchoAgent" && a.name == Some(Name) && a.model == model
  {
    Agent("EchoAgent", Some(Name), model,
          (p: Payload) => Handler(StartScript(), Completed),
          (p: Payload, history: seq<ModelMessage>) => Reply(Handler(MessageScript(TextOf(p)), Completed), []))
  }

  /** `@agent("echo")` */
  method Register(registry: Registry)
    requires registry.Valid()
    modifies registry
    ensures registry.Valid()
    ensures registry.entries == old(registry.entries)[Name := Factory]
  {
    LowerOfLowercase(Name);
    var _ := registry.Decorate(Name, Factory);
  }

  /** The client gets the welcome and one end event; the producer's own `end()` adds nothing. */
  lemma StartBody(turnId: string)
    ensures Finish(Run(Fresh, turnId, StartScript()), turnId, Completed) == Run(Fresh, turnId, StartScript())
    ensures WireBody(turnId, Handler(StartScript(), Completed)) == [TtsFrame(turnId, Welcome), EndFrame(turnId)]
  {
    FinishAfterEnd(Fresh, turnId, StartScript());
    AfterEndIgnored(turnId, [EmitTts(Welcome)], [], Completed);
    assert [EmitTts(Welcome)] + [EmitEnd] + [] == StartScript();
    assert Frames(turnId, [EmitTts(Welcome)]) == [TtsFrame(turnId, Welcome)];
  }

  /** A message gets `You said: <text>` and one end event. */
  lemma MessageBody(turnId: string, text: Option<string>)
    ensures Finish(Run(Fresh, turnId, MessageScript(text)), turnId, Completed) == Run(Fresh, turnId, MessageScript(text))
    ensures WireBody(turnId, Handler(MessageScript(text), Completed))
         == [TtsFrame(turnId, "You said: " + text.GetOr("")), EndFrame(turnId)]
  {
    FinishAfterEnd(Fresh, turnId, MessageScript(text));
    AfterEndIgnored(turnId, [EmitTts(Echoed(text))], [], Completed);
    assert [EmitTts(Echoed(text))] + [EmitEnd] + [] == MessageScript(text);
    assert Frames(turnId, [EmitTts(Echoed(text))]) == [TtsFrame(turnId, Echoed(text))];
  }
}

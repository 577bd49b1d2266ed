/**
 * The slow agent: a message is answered in three spoken parts, each followed
 * by a progress data event, then the end of the stream. The five-second
 * pauses between the parts only affect timing.
 */
module SlowAgent {
  import opened Wrappers
  import opened Text
  import opened Json
  import opened Events
  import opened Stream
  import opened Conversation
  import opened Agents

  const Name: string := "slow_agent"
  const Welcome: string := "Welcome! I'm a slow agent. Every response takes about 10 seconds with updates along the way."

  const Part1: string := "Processing your request now. Please wait 5 seconds."
  const Part2: string := " Still working. Please wait 5 more seconds."
  const Part3: string := " Done! Your request has been processed successfully."

  /** The progress data event `{"status": status, "progress": progress}`. */
  function Progress(status: string, progress: int): Members {
    [("status", JStr(status)), ("progress", JInt(progress))]
  }

  function StartScript(): seq<Emission> {
    [EmitTts(Welcome), EmitEnd]
  }

  /** The three parts before the final `end()`. */
  function MessageParts(): seq<Emission> {
    [ EmitTts(Part1), EmitData(Progress("loading", 0)),
      EmitTts(Part2), EmitData(Progress("processing", 50)),
      EmitTts(Part3), EmitData(Progress("complete", 100)) ]
  }

  function MessageScript(): seq<Emission> {
    MessageParts() + [EmitEnd]
  }

  class SlowAgent {
    const model: string

    constructor (model: string)
      ensures this.model == model
    {
      this.model := model;
    }

    method HandleSessionStart(payload: Payload, stream: StreamHelper)
      requires payload.SessionStart?
      modifies stream, stream.controller, stream.controller.queue
      ensures stream.State() == Run(old(stream.State()), stream.turnId, StartScript())
    {
      ghost var s0 := stream.State();
      stream.Tts(Welcome);
      RunStep(s0, stream.turnId, [], EmitTts(Welcome));
      stream.End();
      RunStep(s0, stream.turnId, [EmitTts(Welcome)], EmitEnd);
      assert [EmitTts(Welcome)] + [EmitEnd] == StartScript();
    }

    /** Three `tts`/`data` pairs, then `end()`; no messages for the history. */
    method HandleMessage(payload: Payload, stream: StreamHelper, history: seq<ModelMessage>)
      returns (newMessages: seq<ModelMessage>)
      requires payload.Message?
      modifies stream, stream.controller, stream.controller.queue
      ensures newMessages == []
      ensures stream.State() == Run(old(stream.State()), stream.turnId, MessageScript())
    {
      ghost var s0 := stream.State();
      ghost var t := stream.turnId;
      stream.Tts(Part1);
      stream.Data(Progress("loading", 0));
      ghost var s1 := stream.State();
      assert s1 == Apply(Apply(s0, t, MessageParts()[0]), t, MessageParts()[1]);

      stream.Tts(Part2);
      stream.Data(Progress("processing", 50));
      ghost var s2 := stream.State();
      assert s2 == Apply(Apply(s1, t, MessageParts()[2]), t, MessageParts()[3]);

      stream.Tts(Part3);
      stream.Data(Progress("complete", 100));
      ghost var s3 := stream.State();
      assert s3 == Apply(Apply(s2, t, MessageParts()[4]), t, MessageParts()[5]);
      stream.End();
      RunMessageScript(s0, t);
      newMessages := [];
    }

    method HandleSessionEnd(payload: Payload)
      requires payload.SessionEnd?
    {
    }
  }

  /** The message script run two emissions at a time, as the handler's three parts do. */
  lemma RunMessageScript(s: PipeState, t: string)
    ensures var p := MessageParts();
            var s1 := Apply(Apply(s, t, p[0]), t, p[1]);
            var s2 := Apply(Apply(s1, t, p[2]), t, p[3]);
            var s3 := Apply(Apply(s2, t, p[4]), t, p[5]);
            Run(s, t, MessageScript()) == Ended(s3, t)
  {
    var es := MessageScript();
    assert es[..0] == [];
    RunStep(s, t, es[..0], es[0]);
    assert es[..0] + [es[0]] == es[..1];
    RunStep(s, t, es[..1], es[1]);
    assert es[..1] + [es[1]] == es[..2];
    RunStep(s, t, es[..2], es[2]);
    assert es[..2] + [es[2]] == es[..3];
    RunStep(s, t, es[..3], es[3]);
    assert es[..3] + [es[3]] == es[..4];
    RunStep(s, t, es[..4], es[4]);
    assert es[..4] + [es[4]] == es[..5];
    RunStep(s, t, es[..5], es[5]);
    assert es[..5] + [es[5]] == es[..6];
    RunStep(s, t, es[..6], es[6]);
    assert es[..6] + [es[6]] == es[..7];
    assert es[..7] == es;
  }

  function Factory(model: string): (a: Agent)
    ensures a.className == "SlowAgent" && a.name == Some(Name) && a.model == model
  {
    Agent("SlowAgent", Some(Name), model,
          (p: Payload) => Handler(StartScript(), Completed),
          (p: Payload, history: seq<ModelMessage>) => Reply(Handler(MessageScript(), Completed), []))
  }

  /** `@agent("slow_agent")` */
  method Register(registry: Registry)
    requires registry.Valid()
    modifies registry
    ensures registry.Valid()
    ensures registry.entries == old(registry.entries)[Name := Factory]
  {
    LowerOfLowercase(Name);
    var _ := registry.Decorate(Name, Factory);
  }

  lemma StartBody(turnId: string)
    ensures Finish(Run(Fresh, turnId, StartScript()), turnId, Completed) == Run(Fresh, turnId, StartScript())
    ensures WireBody(turnId, Handler(StartScript(), Completed)) == [TtsFrame(turnId, Welcome), EndFrame(turnId)]
  {
    FinishAfterEnd(Fresh, turnId, StartScript());
    AfterEndIgnored(turnId, [EmitTts(Welcome)], [], Completed);
    assert [EmitTts(Welcome)] + [EmitEnd] + [] == StartScript();
    assert Frames(turnId, [EmitTts(Welcome)]) == [TtsFrame(turnId, Welcome)];
  }

  /**
   * The client gets the three parts in order, with progress 0, 50 and 100
   * and status loading, processing and complete, then one end event.
   */
  lemma MessageBody(turnId: string)
    ensures Finish(Run(Fresh, turnId, MessageScript()), turnId, Completed) == Run(Fresh, turnId, MessageScript())
    ensures WireBody(turnId, Handler(MessageScript(), Completed))
         == [ TtsFrame(turnId, Part1), DataFrame(turnId, Progress("loading", 0)),
              TtsFrame(turnId, Part2), DataFrame(turnId, Progress("processing", 50)),
              TtsFrame(turnId, Part3), DataFrame(turnId, Progress("complete", 100)),
              EndFrame(turnId) ]
  {
    FinishAfterEnd(Fresh, turnId, MessageScript());
    AfterEndIgnored(turnId, MessageParts(), [], Completed);
    ScriptIsPartsThenEnd();
    PartFrames(turnId);
  }

  lemma ScriptIsPartsThenEnd()
    ensures MessageParts() + [EmitEnd] + [] == MessageScript()
  {
  }

  lemma PartFrames(turnId: string)
    ensures Frames(turnId, MessageParts()) + [EndFrame(turnId)]
         == [ TtsFrame(turnId, Part1), DataFrame(turnId, Progress("loading", 0)),
              TtsFrame(turnId, Part2), DataFrame(turnId, Progress("processing", 50)),
              TtsFrame(turnId, Part3), DataFrame(turnId, Progress("complete", 100)),
              EndFrame(turnId) ]
  {
  }

  /** Exactly one end event, and it is last. */
  lemma MessageEndsOnce(turnId: string)
    ensures var body := WireBody(turnId, Handler(MessageScript(), Completed));
            |body| >= 1 && body[|body| - 1] == EndFrame(turnId) && multiset(body)[EndFrame(turnId)] == 1
  {
    var h := Handler(MessageScript(), Completed);
    forall i | 0 <= i < |h.emissions| && h.emissions[i].EmitData?
      ensures WellFormed(JObject(h.emissions[i].content))
    {
      var c := h.emissions[i].content;
      assert c[0].0 != c[1].0;
    }
    ExactlyOneEnd(turnId, h);
  }
}

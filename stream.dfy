/**
 * The streaming side of one webhook response. `StreamHelper` frames events as
 * server-sent events and guards the single terminal event; `QueueController`
 * feeds a FIFO queue, drops writes after it is closed and pushes an empty
 * sentinel on close; the producer runs the agent handler and always ends the
 * stream; the generator yields queued chunks until the sentinel.
 *
 * The producer and the generator run one after the other here (the producer
 * to completion, then the generator); the order of the chunks the generator
 * yields is the same as under the cooperative interleaving, because the queue
 * is FIFO and the producer is its only writer.
 */
module Stream {
  import opened Wrappers
  import opened Text
  import opened Json

  /** A chunk of the response body; the empty chunk is the `b""` sentinel. */
  type Chunk = string

  const Sentinel: Chunk := ""

  const TtsType: string := "response.tts"
  const DataType: string := "response.data"
  const EndType: string := "response.end"

  // ---------------------------------------------------------------------------
  // Framing

  /** `{"type": event_type, "turn_id": turn_id, **content}` */
  function EventPayload(eventType: string, turnId: string, content: Members): Members {
    ObjUpdate([("type", JStr(eventType)), ("turn_id", JStr(turnId))], content)
  }

  /** `data: <compact json>\n\n` */
  function Frame(eventType: string, turnId: string, content: Members): Chunk {
    "data: " + Encode(JObject(EventPayload(eventType, turnId, content))) + "\n\n"
  }

  function TtsFrame(turnId: string, text: string): Chunk {
    Frame(TtsType, turnId, [("content", JStr(text))])
  }

  function DataFrame(turnId: string, content: Members): Chunk {
    Frame(DataType, turnId, [("content", JObject(content))])
  }

  function EndFrame(turnId: string): Chunk {
    Frame(EndType, turnId, [])
  }

  /** The `{"error": message}` event the producer sends when the handler raised. */
  function ErrorContent(message: string): Members {
    [("error", JStr(message))]
  }

  /** Event content whose keys do not collide with `type` and `turn_id`, as a Python dict. */
  predicate PlainContent(content: Members) {
    && DistinctKeys(content)
    && forall k | 0 <= k < |content| ::
         content[k].0 != "type" && content[k].0 != "turn_id" && WellFormed(content[k].1)
  }

  /** The JSON text of a frame, between `data: ` and the blank line. */
  function FrameText(chunk: Chunk): string
    requires |chunk| >= 8
  {
    chunk[6..|chunk| - 2]
  }

  /** Every frame is non-empty, so no frame can be taken for the sentinel. */
  lemma FrameIsNotSentinel(eventType: string, turnId: string, content: Members)
    ensures |Frame(eventType, turnId, content)| >= 8
    ensures Frame(eventType, turnId, content) != Sentinel
  {
  }

  lemma PayloadOfPlainContent(eventType: string, turnId: string, content: Members)
    requires PlainContent(content)
    ensures EventPayload(eventType, turnId, content)
         == [("type", JStr(eventType)), ("turn_id", JStr(turnId))] + content
    ensures WellFormed(JObject(EventPayload(eventType, turnId, content)))
  {
    var base := [("type", JStr(eventType)), ("turn_id", JStr(turnId))];
    var p := base + content;
    forall i, j | 0 <= i < j < |p| ensures p[i].0 != p[j].0 {
      if j >= 2 {
        assert p[j] == content[j - 2];
        if i >= 2 { assert p[i] == content[i - 2]; }
      }
    }
    ObjUpdateFresh(base, content);
    forall k | 0 <= k < |p| ensures WellFormed(p[k].1) {
      if k >= 2 { assert p[k] == content[k - 2]; }
    }
  }

  /** A frame's JSON text reads back as the object `{type, turn_id, **content}`. */
  lemma FrameDecodes(eventType: string, turnId: string, content: Members)
    requires PlainContent(content)
    ensures var f := Frame(eventType, turnId, content);
            && f[..6] == "data: " && f[|f| - 2..] == "\n\n"
            && Decode(FrameText(f))
               == Some(JObject([("type", JStr(eventType)), ("turn_id", JStr(turnId))] + content))
  {
    var f := Frame(eventType, turnId, content);
    var text := Encode(JObject(EventPayload(eventType, turnId, content)));
    assert f == "data: " + text + "\n\n";
    assert FrameText(f) == text;
    PayloadOfPlainContent(eventType, turnId, content);
    DecodeEncode(JObject(EventPayload(eventType, turnId, content)));
  }

  /** A frame determines its event type, turn id and content. */
  lemma FrameInjective(t1: string, id1: string, c1: Members, t2: string, id2: string, c2: Members)
    requires PlainContent(c1) && PlainContent(c2)
    requires Frame(t1, id1, c1) == Frame(t2, id2, c2)
    ensures t1 == t2 && id1 == id2 && c1 == c2
  {
    FrameDecodes(t1, id1, c1);
    FrameDecodes(t2, id2, c2);
    var p1 := [("type", JStr(t1)), ("turn_id", JStr(id1))] + c1;
    var p2 := [("type", JStr(t2)), ("turn_id", JStr(id2))] + c2;
    assert JObject(p1) == JObject(p2);
    assert p1[0] == p2[0] && p1[1] == p2[1];
    assert c1 == p1[2..] && c2 == p2[2..];
  }

  lemma TtsContentIsPlain(text: string)
    ensures PlainContent([("content", JStr(text))])
  {
  }

  lemma DataContentIsPlain(content: Members)
    requires WellFormed(JObject(content))
    ensures PlainContent([("content", JObject(content))])
  {
  }

  /** A `response.tts` frame carries the text under `content`. */
  lemma TtsFrameDecodes(turnId: string, text: string)
    ensures Decode(FrameText(TtsFrame(turnId, text)))
         == Some(JObject([("type", JStr(TtsType)), ("turn_id", JStr(turnId)), ("content", JStr(text))]))
  {
    TtsContentIsPlain(text);
    FrameDecodes(TtsType, turnId, [("content", JStr(text))]);
    assert [("type", JStr(TtsType)), ("turn_id", JStr(turnId))] + [("content", JStr(text))]
        == [("type", JStr(TtsType)), ("turn_id", JStr(turnId)), ("content", JStr(text))];
  }

  /** A `response.data` frame carries the map under `content`. */
  lemma DataFrameDecodes(turnId: string, content: Members)
    requires WellFormed(JObject(content))
    ensures Decode(FrameText(DataFrame(turnId, content)))
         == Some(JObject([("type", JStr(DataType)), ("turn_id", JStr(turnId)), ("content", JObject(content))]))
  {
    DataContentIsPlain(content);
    FrameDecodes(DataType, turnId, [("content", JObject(content))]);
    assert [("type", JStr(DataType)), ("turn_id", JStr(turnId))] + [("content", JObject(content))]
        == [("type", JStr(DataType)), ("turn_id", JStr(turnId)), ("content", JObject(content))];
  }

  /** A `response.end` frame carries only its type and turn id. */
  lemma EndFrameDecodes(turnId: string)
    ensures Decode(FrameText(EndFrame(turnId)))
         == Some(JObject([("type", JStr(EndType)), ("turn_id", JStr(turnId))]))
  {
    FrameDecodes(EndType, turnId, []);
    assert [("type", JStr(EndType)), ("turn_id", JStr(turnId))] + [] == [("type", JStr(EndType)), ("turn_id", JStr(turnId))];
  }

  /** Frames of different event types differ. */
  lemma FrameTypesDiffer(t1: string, id1: string, c1: Members, t2: string, id2: string, c2: Members)
    requires PlainContent(c1) && PlainContent(c2)
    requires t1 != t2
    ensures Frame(t1, id1, c1) != Frame(t2, id2, c2)
  {
    FrameDecodes(t1, id1, c1);
    FrameDecodes(t2, id2, c2);
    var p1 := [("type", JStr(t1)), ("turn_id", JStr(id1))] + c1;
    var p2 := [("type", JStr(t2)), ("turn_id", JStr(id2))] + c2;
    assert p1[0] != p2[0];
    assert Some(JObject(p1)) != Some(JObject(p2));
  }

  lemma TtsIsNotEnd(turnId: string, other: string, text: string)
    ensures TtsFrame(turnId, text) != EndFrame(other)
  {
    TtsContentIsPlain(text);
    assert TtsType[9] != EndType[9];
    FrameTypesDiffer(TtsType, turnId, [("content", JStr(text))], EndType, other, []);
  }

  lemma DataIsNotEnd(turnId: string, other: string, content: Members)
    requires WellFormed(JObject(content))
    ensures DataFrame(turnId, content) != EndFrame(other)
  {
    DataContentIsPlain(content);
    assert DataType[9] != EndType[9];
    FrameTypesDiffer(DataType, turnId, [("content", JObject(content))], EndType, other, []);
  }

  // ---------------------------------------------------------------------------
  // Pipeline state: the queue's contents and the two closed flags

  datatype PipeState = PipeState(queue: seq<Chunk>, controllerClosed: bool, helperClosed: bool)

  /** A new queue, an open controller and an open helper. */
  const Fresh: PipeState := PipeState([], false, false)

  /** `QueueController.enqueue`: dropped once the controller is closed. */
  function Enqueued(s: PipeState, chunk: Chunk): PipeState {
    if s.controllerClosed then s else s.(queue := s.queue + [chunk])
  }

  /** `QueueController.close`: marks it closed and pushes the sentinel, whatever the flag was. */
  function ControllerClosed(s: PipeState): PipeState {
    s.(queue := s.queue + [Sentinel], controllerClosed := true)
  }

  /** `StreamHelper.end`: the end event and a close the first time, nothing afterwards. */
  function Ended(s: PipeState, turnId: string): PipeState {
    if s.helperClosed then s
    else ControllerClosed(Enqueued(s, EndFrame(turnId))).(helperClosed := true)
  }

  lemma EndedIdempotent(s: PipeState, turnId: string)
    ensures Ended(Ended(s, turnId), turnId) == Ended(s, turnId)
  {
  }

  /** On open state, `end` adds exactly the end event and one sentinel. */
  lemma EndedOnOpen(s: PipeState, turnId: string)
    requires !s.helperClosed && !s.controllerClosed
    ensures Ended(s, turnId) == PipeState(s.queue + [EndFrame(turnId), Sentinel], true, true)
  {
  }

  // ---------------------------------------------------------------------------
  // The objects: queue, controller and helper

  /** The `asyncio.Queue[bytes]` shared by producer and generator. */
  class ChunkQueue {
    var items: seq<Chunk>

    constructor ()
      ensures items == []
    {
      items := [];
    }

    /** `put_nowait` */
    method PutNowait(c: Chunk)
      modifies this
      ensures items == old(items) + [c]
    {
      items := items + [c];
    }

    /** `get`; the generator only reads a queue that still holds the sentinel. */
    method Get() returns (c: Chunk)
      requires items != []
      modifies this
      ensures c == old(items)[0] && items == old(items)[1..]
    {
      c := items[0];
      items := items[1..];
    }
  }

  class QueueController {
    const queue: ChunkQueue
    var closed: bool

    constructor (queue: ChunkQueue)
      ensures this.queue == queue && !closed
    {
      this.queue := queue;
      closed := false;
    }

    method Enqueue(data: Chunk)
      modifies queue
      ensures queue.items == if closed then old(queue.items) else old(queue.items) + [data]
    {
      if !closed {
        queue.PutNowait(data);
      }
    }

    method Close()
      modifies this, queue
      ensures closed && queue.items == old(queue.items) + [Sentinel]
    {
      closed := true;
      queue.PutNowait(Sentinel);
    }
  }

  class StreamHelper {
    const turnId: string
    const controller: QueueController
    var closed: bool

    constructor (turnId: string, controller: QueueController)
      ensures this.turnId == turnId && this.controller == controller && !closed
    {
      this.turnId := turnId;
      this.controller := controller;
      closed := false;
    }

    /** The queue and both closed flags, as one value. */
    function State(): PipeState
      reads this, controller, controller.queue
    {
      PipeState(controller.queue.items, controller.closed, closed)
    }

    /** `_emit` */
    method Emit(eventType: string, content: Members)
      modifies controller.queue
      ensures State() == Enqueued(old(State()), Frame(eventType, turnId, content))
    {
      controller.Enqueue(Frame(eventType, turnId, content));
    }

    method Tts(text: string)
      modifies controller.queue
      ensures State() == Enqueued(old(State()), TtsFrame(turnId, text))
    {
      Emit(TtsType, [("content", JStr(text))]);
    }

    method Data(content: Members)
      modifies controller.queue
      ensures State() == Enqueued(old(State()), DataFrame(turnId, content))
    {
      Emit(DataType, [("content", JObject(content))]);
    }

    method End()
      modifies this, controller, controller.queue
      ensures State() == Ended(old(State()), turnId)
    {
      if !closed {
        Emit(EndType, []);
        controller.Close();
        closed := true;
      }
    }
  }

  // ---------------------------------------------------------------------------
  // Handlers as scripts of emissions, and the producer

  datatype Emission = EmitTts(text: string) | EmitData(content: Members) | EmitEnd

  /** How the handler finished: normally, or by raising an exception whose `str` is `message`. */
  datatype Outcome = Completed | Raised(message: string)

  /** What an agent handler does to its stream: these emissions in order, then this outcome. */
  datatype Handler = Handler(emissions: seq<Emission>, outcome: Outcome)

  /** Every data event carries a Python dict (distinct keys throughout). */
  predicate WellFormedHandler(h: Handler) {
    forall i | 0 <= i < |h.emissions| :: h.emissions[i].EmitData? ==> WellFormed(JObject(h.emissions[i].content))
  }

  function Apply(s: PipeState, turnId: string, e: Emission): PipeState {
    match e
    case EmitTts(text) => Enqueued(s, TtsFrame(turnId, text))
    case EmitData(content) => Enqueued(s, DataFrame(turnId, content))
    case EmitEnd => Ended(s, turnId)
  }

  /** The state after the emissions `es`, one after the other. */
  function Run(s: PipeState, turnId: string, es: seq<Emission>): PipeState
    decreases |es|
  {
    if es == [] then s else Apply(Run(s, turnId, es[..|es| - 1]), turnId, es[|es| - 1])
  }

  /** The `except` and `finally` of the producer. */
  function Finish(s: PipeState, turnId: string, outcome: Outcome): PipeState {
    var s1 := if outcome.Raised? then Enqueued(s, DataFrame(turnId, ErrorContent(outcome.message))) else s;
    Ended(s1, turnId)
  }

  /** Everything the producer leaves behind on a fresh pipeline. */
  function Produce(turnId: string, h: Handler): PipeState {
    Finish(Run(Fresh, turnId, h.emissions), turnId, h.outcome)
  }

  /** One call the handler makes on the stream helper. */
  method HandlerCall(stream: StreamHelper, e: Emission)
    modifies stream, stream.controller, stream.controller.queue
    ensures stream.State() == Apply(old(stream.State()), stream.turnId, e)
  {
    match e {
      case EmitTts(text) => stream.Tts(text);
      case EmitData(content) => stream.Data(content);
      case EmitEnd => stream.End();
    }
  }

  /** `producer`: await the handler, report an exception as a data event, and always end. */
  method Producer(stream: StreamHelper, h: Handler)
    modifies stream, stream.controller, stream.controller.queue
    ensures stream.State() == Finish(Run(old(stream.State()), stream.turnId, h.emissions), stream.turnId, h.outcome)
  {
    ghost var s0 := stream.State();
    var i := 0;
    while i < |h.emissions|
      invariant 0 <= i <= |h.emissions|
      invariant stream.State() == Run(s0, stream.turnId, h.emissions[..i])
    {
      HandlerCall(stream, h.emissions[i]);
      RunStep(s0, stream.turnId, h.emissions[..i], h.emissions[i]);
      assert h.emissions[..i] + [h.emissions[i]] == h.emissions[..i + 1];
      i := i + 1;
    }
    assert h.emissions[..i] == h.emissions;
    ghost var ran := stream.State();
    if h.outcome.Raised? {
      stream.Data(ErrorContent(h.outcome.message));
    }
    stream.End();
    assert stream.State() == Finish(ran, stream.turnId, h.outcome);
  }

  // ---------------------------------------------------------------------------
  // The generator

  /** The chunks before the first sentinel. */
  function UntilSentinel(items: seq<Chunk>): (r: seq<Chunk>)
    ensures |r| <= |items| && r == items[..|r|]
    ensures Sentinel !in r
    ensures Sentinel in items ==> |r| < |items| && items[|r|] == Sentinel
  {
    if items == [] || items[0] == Sentinel then []
    else [items[0]] + UntilSentinel(items[1..])
  }

  /** `generator`: yield queued chunks in order up to the sentinel, which is not yielded. */
  method Generator(queue: ChunkQueue) returns (body: seq<Chunk>)
    requires Sentinel in queue.items
    modifies queue
    ensures body == UntilSentinel(old(queue.items))
    ensures queue.items == old(queue.items)[|body| + 1..]
  {
    ghost var items := queue.items;
    ghost var n := |UntilSentinel(items)|;
    body := [];
    while true
      invariant |body| <= n
      invariant body == items[..|body|]
      invariant queue.items == items[|body|..]
      decreases |queue.items|
    {
      var chunk := queue.Get();
      if |body| < n {
        assert chunk == UntilSentinel(items)[|body|];
      }
      if chunk == Sentinel {
        break;
      }
      body := body + [chunk];
    }
  }

  /**
   * The `StreamingResponse` that `stream_response` returns. Nothing has run yet:
   * the producer starts only when the body is iterated.
   */
  datatype StreamingResponse = StreamingResponse(turnId: string, handler: Handler)

  /** `str(value)` for the JSON scalars a request can carry; other kinds render as their JSON text. */
  function PyStr(j: Json): string {
    match j
    case JStr(s) => s
    case JInt(i) => IntToDecimal(i)
    case JBool(b) => if b then "True" else "False"
    case JNull => "None"
    case _ => Encode(j)
  }

  /** `stream_response(request_body, handler)` */
  function StreamResponse(requestBody: Members, handler: Handler): (r: StreamingResponse)
    ensures r.handler == handler
    ensures !HasKey(requestBody, "turn_id") ==> r.turnId == ""
    ensures forall s :: Get(requestBody, "turn_id") == Some(JStr(s)) ==> r.turnId == s
    ensures forall i :: Get(requestBody, "turn_id") == Some(JInt(i)) ==> r.turnId == IntToDecimal(i)
    ensures Get(requestBody, "turn_id") == Some(JBool(true)) ==> r.turnId == "True"
    ensures Get(requestBody, "turn_id") == Some(JBool(false)) ==> r.turnId == "False"
    ensures Get(requestBody, "turn_id") == Some(JNull) ==> r.turnId == "None"
  {
    var turnId := match Get(requestBody, "turn_id") case Some(v) => PyStr(v) case None => "";
    StreamingResponse(turnId, handler)
  }

  /** The body the client receives once the response is iterated to the end. */
  function WireBody(turnId: string, h: Handler): seq<Chunk> {
    UntilSentinel(Produce(turnId, h).queue)
  }

  /** Iterating the response: build the queue, controller and helper, run the producer, drain the queue. */
  method Body(resp: StreamingResponse) returns (chunks: seq<Chunk>)
    ensures chunks == WireBody(resp.turnId, resp.handler)
  {
    var queue := new ChunkQueue();
    var controller := new QueueController(queue);
    var stream := new StreamHelper(resp.turnId, controller);
    Producer(stream, resp.handler);
    ProducedQueue(resp.turnId, resp.handler);
    chunks := Generator(queue);
  }

  // ---------------------------------------------------------------------------
  // What the body is

  /** The position of the handler's first `end()`, or the number of emissions. */
  function FirstEnd(es: seq<Emission>): (k: nat)
    ensures k <= |es|
    ensures forall i :: 0 <= i < k ==> !es[i].EmitEnd?
    ensures k < |es| ==> es[k].EmitEnd?
  {
    if es == [] || es[0].EmitEnd? then 0 else 1 + FirstEnd(es[1..])
  }

  function EmissionFrame(turnId: string, e: Emission): Chunk
    requires !e.EmitEnd?
  {
    match e
    case EmitTts(text) => TtsFrame(turnId, text)
    case EmitData(content) => DataFrame(turnId, content)
  }

  predicate NoEnd(es: seq<Emission>) {
    forall i | 0 <= i < |es| :: !es[i].EmitEnd?
  }

  function Frames(turnId: string, es: seq<Emission>): (r: seq<Chunk>)
    requires NoEnd(es)
    ensures |r| == |es|
  {
    seq(|es|, i requires 0 <= i < |es| => EmissionFrame(turnId, es[i]))
  }

  /**
   * The reference body: the frames of the emissions before the first `end()`,
   * the error event when the handler raised without having ended, and one end event.
   */
  function ExpectedBody(turnId: string, h: Handler): seq<Chunk> {
    var k := FirstEnd(h.emissions);
    Frames(turnId, h.emissions[..k])
      + (if k == |h.emissions| && h.outcome.Raised? then [DataFrame(turnId, ErrorContent(h.outcome.message))] else [])
      + [EndFrame(turnId)]
  }

  lemma {:induction false} RunOpen(turnId: string, es: seq<Emission>)
    requires NoEnd(es)
    ensures Run(Fresh, turnId, es) == PipeState(Frames(turnId, es), false, false)
    decreases |es|
  {
    if es != [] {
      var init := es[..|es| - 1];
      RunOpen(turnId, init);
      assert Frames(turnId, es) == Frames(turnId, init) + [EmissionFrame(turnId, es[|es| - 1])];
    }
  }

  lemma {:induction false} RunAfterEnd(s: PipeState, turnId: string, es: seq<Emission>)
    requires s.controllerClosed && s.helperClosed
    ensures Run(s, turnId, es) == s
    decreases |es|
  {
    if es != [] {
      RunAfterEnd(s, turnId, es[..|es| - 1]);
    }
  }

  lemma {:induction false} RunAppend(s: PipeState, turnId: string, a: seq<Emission>, b: seq<Emission>)
    ensures Run(s, turnId, a + b) == Run(Run(s, turnId, a), turnId, b)
    decreases |b|
  {
    if b == [] {
      assert a + b == a;
    } else {
      assert (a + b)[..|a + b| - 1] == a + b[..|b| - 1];
      RunAppend(s, turnId, a, b[..|b| - 1]);
    }
  }

  /** One more emission is one more step. */
  lemma RunStep(s: PipeState, turnId: string, es: seq<Emission>, e: Emission)
    ensures Run(s, turnId, es + [e]) == Apply(Run(s, turnId, es), turnId, e)
  {
    assert (es + [e])[..|es|] == es;
  }

  /** Once a handler has called `end()` last, the producer's own `end()` changes nothing. */
  lemma FinishAfterEnd(s: PipeState, turnId: string, es: seq<Emission>)
    requires es != [] && es[|es| - 1].EmitEnd?
    ensures Run(s, turnId, es).helperClosed
    ensures Finish(Run(s, turnId, es), turnId, Completed) == Run(s, turnId, es)
  {
  }

  lemma FramesNotSentinel(turnId: string, es: seq<Emission>)
    requires NoEnd(es)
    ensures Sentinel !in Frames(turnId, es)
  {
    forall i | 0 <= i < |es| ensures Frames(turnId, es)[i] != Sentinel {
      match es[i]
      case EmitTts(text) => FrameIsNotSentinel(TtsType, turnId, [("content", JStr(text))]);
      case EmitData(c) => FrameIsNotSentinel(DataType, turnId, [("content", JObject(c))]);
    }
  }

  /** `FirstEnd` is the first position holding `end()`. */
  lemma {:induction false} FirstEndAt(es: seq<Emission>, k: nat)
    requires k <= |es|
    requires forall i | 0 <= i < k :: !es[i].EmitEnd?
    requires k < |es| ==> es[k].EmitEnd?
    ensures FirstEnd(es) == k
    decreases k
  {
    if k > 0 {
      assert !es[0].EmitEnd?;
      forall i | 0 <= i < k - 1 ensures !es[1..][i].EmitEnd? {
        assert es[1..][i] == es[i + 1];
      }
      FirstEndAt(es[1..], k - 1);
    }
  }

  /** A handler that never calls `end()`: its frames, the error event if it raised, then the end event. */
  lemma ProducedWithoutEnd(turnId: string, h: Handler)
    requires NoEnd(h.emissions)
    ensures Produce(turnId, h).queue
         == Frames(turnId, h.emissions)
            + (if h.outcome.Raised? then [DataFrame(turnId, ErrorContent(h.outcome.message))] else [])
            + [EndFrame(turnId), Sentinel]
    ensures Produce(turnId, h).controllerClosed && Produce(turnId, h).helperClosed
  {
    RunOpen(turnId, h.emissions);
  }

  /** A handler whose first `end()` is at `k`: the frames before it, then the end event. */
  lemma ProducedWithEnd(turnId: string, h: Handler, k: nat)
    requires k < |h.emissions| && h.emissions[k].EmitEnd? && NoEnd(h.emissions[..k])
    ensures Produce(turnId, h) == PipeState(Frames(turnId, h.emissions[..k]) + [EndFrame(turnId), Sentinel], true, true)
  {
    var es := h.emissions;
    var pre := es[..k];
    var upto := es[..k + 1];
    assert upto == pre + [es[k]];
    assert es == upto + es[k + 1..];
    RunOpen(turnId, pre);
    RunAppend(Fresh, turnId, pre, [es[k]]);
    assert Run(Fresh, turnId, upto) == Ended(Run(Fresh, turnId, pre), turnId);
    EndedOnOpen(Run(Fresh, turnId, pre), turnId);
    RunAppend(Fresh, turnId, upto, es[k + 1..]);
    RunAfterEnd(Run(Fresh, turnId, upto), turnId, es[k + 1..]);
  }

  lemma {:induction false} UntilSentinelOfClean(xs: seq<Chunk>, ys: seq<Chunk>)
    requires Sentinel !in xs
    ensures UntilSentinel(xs + [Sentinel] + ys) == xs
    decreases |xs|
  {
    if xs != [] {
      assert (xs + [Sentinel] + ys)[1..] == xs[1..] + [Sentinel] + ys;
      UntilSentinelOfClean(xs[1..], ys);
    }
  }

  /** The producer leaves the reference body, then exactly one sentinel, with everything closed. */
  lemma ProducedQueue(turnId: string, h: Handler)
    ensures Produce(turnId, h) == PipeState(ExpectedBody(turnId, h) + [Sentinel], true, true)
    ensures Sentinel !in ExpectedBody(turnId, h)
  {
    var es := h.emissions;
    var k := FirstEnd(es);
    var pre := es[..k];
    FramesNotSentinel(turnId, pre);
    FrameIsNotSentinel(EndType, turnId, []);
    if h.outcome.Raised? {
      FrameIsNotSentinel(DataType, turnId, [("content", JObject(ErrorContent(h.outcome.message)))]);
    }
    if k == |es| {
      assert pre == es;
      ProducedWithoutEnd(turnId, h);
    } else {
      ProducedWithEnd(turnId, h, k);
    }
  }

  /** The client receives the reference body: the generator stops exactly at the producer's sentinel. */
  lemma WireBodyIsExpected(turnId: string, h: Handler)
    ensures WireBody(turnId, h) == ExpectedBody(turnId, h)
  {
    ProducedQueue(turnId, h);
    UntilSentinelOfClean(ExpectedBody(turnId, h), []);
    assert ExpectedBody(turnId, h) + [Sentinel] + [] == ExpectedBody(turnId, h) + [Sentinel];
  }

  lemma EndNotInFrames(turnId: string, es: seq<Emission>, other: string)
    requires NoEnd(es)
    requires forall i | 0 <= i < |es| :: es[i].EmitData? ==> WellFormed(JObject(es[i].content))
    ensures EndFrame(other) !in Frames(turnId, es)
  {
    forall i | 0 <= i < |es| ensures Frames(turnId, es)[i] != EndFrame(other) {
      match es[i]
      case EmitTts(text) => TtsIsNotEnd(turnId, other, text);
      case EmitData(c) => DataIsNotEnd(turnId, other, c);
    }
  }

  /** Whatever the handler does, the body holds exactly one end event, and it comes last. */
  lemma ExactlyOneEnd(turnId: string, h: Handler)
    requires WellFormedHandler(h)
    ensures |WireBody(turnId, h)| >= 1
    ensures WireBody(turnId, h)[|WireBody(turnId, h)| - 1] == EndFrame(turnId)
    ensures multiset(WireBody(turnId, h))[EndFrame(turnId)] == 1
  {
    WireBodyIsExpected(turnId, h);
    ExpectedOneEnd(turnId, h);
  }

  lemma ExpectedOneEnd(turnId: string, h: Handler)
    requires WellFormedHandler(h)
    ensures var body := ExpectedBody(turnId, h);
            |body| >= 1 && body[|body| - 1] == EndFrame(turnId) && multiset(body)[EndFrame(turnId)] == 1
  {
    var es := h.emissions;
    var k := FirstEnd(es);
    var err: seq<Chunk> := if k == |es| && h.outcome.Raised? then [DataFrame(turnId, ErrorContent(h.outcome.message))] else [];
    PrefixHasNoEnd(turnId, h);
    if h.outcome.Raised? {
      ErrorIsNotEnd(turnId, h.outcome.message);
    }
    assert ExpectedBody(turnId, h) == Frames(turnId, es[..k]) + err + [EndFrame(turnId)];
    OneEndLast(Frames(turnId, es[..k]), err, EndFrame(turnId));
  }

  /** The error event is not the end event. */
  lemma ErrorIsNotEnd(turnId: string, message: string)
    ensures DataFrame(turnId, ErrorContent(message)) != EndFrame(turnId)
  {
    assert WellFormed(JObject(ErrorContent(message)));
    DataIsNotEnd(turnId, turnId, ErrorContent(message));
  }

  /** The frames before the first `end()` hold no end event. */
  lemma PrefixHasNoEnd(turnId: string, h: Handler)
    requires WellFormedHandler(h)
    ensures EndFrame(turnId) !in Frames(turnId, h.emissions[..FirstEnd(h.emissions)])
  {
    var es := h.emissions;
    var pre := es[..FirstEnd(es)];
    forall i | 0 <= i < |pre| ensures pre[i].EmitData? ==> WellFormed(JObject(pre[i].content)) {
      assert pre[i] == es[i];
    }
    EndNotInFrames(turnId, pre, turnId);
  }

  lemma OneEndLast(frames: seq<Chunk>, err: seq<Chunk>, end: Chunk)
    requires end !in frames && end !in err
    ensures var body := frames + err + [end];
            body[|body| - 1] == end && multiset(body)[end] == 1
  {
    assert multiset(frames + err + [end]) == multiset(frames) + multiset(err) + multiset([end]);
  }

  /** A handler that raises before ending: its frames, the error event, then the end event. */
  lemma RaisedBody(turnId: string, es: seq<Emission>, message: string)
    requires NoEnd(es)
    ensures WireBody(turnId, Handler(es, Raised(message)))
         == Frames(turnId, es) + [DataFrame(turnId, ErrorContent(message)), EndFrame(turnId)]
  {
    WireBodyIsExpected(turnId, Handler(es, Raised(message)));
    FirstEndAt(es, |es|);
    assert es[..|es|] == es;
  }

  /** Emissions after the first `end()`, and an exception raised after it, do not reach the client. */
  lemma AfterEndIgnored(turnId: string, pre: seq<Emission>, post: seq<Emission>, outcome: Outcome)
    requires NoEnd(pre)
    ensures WireBody(turnId, Handler(pre + [EmitEnd] + post, outcome)) == Frames(turnId, pre) + [EndFrame(turnId)]
  {
    var es := pre + [EmitEnd] + post;
    WireBodyIsExpected(turnId, Handler(es, outcome));
    forall i | 0 <= i < |pre| ensures !es[i].EmitEnd? { assert es[i] == pre[i]; }
    FirstEndAt(es, |pre|);
    assert es[..|pre|] == pre;
  }

  /** Calling `end()` twice sends one end event. */
  lemma EndTwice(turnId: string)
    ensures WireBody(turnId, Handler([EmitEnd, EmitEnd], Completed)) == [EndFrame(turnId)]
  {
    AfterEndIgnored(turnId, [], [EmitEnd], Completed);
    assert [] + [EmitEnd] + [EmitEnd] == [EmitEnd, EmitEnd];
    assert Frames(turnId, []) == [];
  }

  /** `tts`, `data`, `end` on a helper record those three events in order and close the controller. */
  lemma TtsDataEndScenario()
    ensures var s := Run(Fresh, "turn123", [EmitTts("Hello"), EmitData([("foo", JStr("bar"))]), EmitEnd]);
            && s.controllerClosed && s.helperClosed
            && s.queue == [TtsFrame("turn123", "Hello"), DataFrame("turn123", [("foo", JStr("bar"))]), EndFrame("turn123"), Sentinel]
  {
    var pre := [EmitTts("Hello"), EmitData([("foo", JStr("bar"))])];
    assert [EmitTts("Hello"), EmitData([("foo", JStr("bar"))]), EmitEnd] == pre + [EmitEnd];
    RunOpen("turn123", pre);
    assert Frames("turn123", pre) == [TtsFrame("turn123", "Hello"), DataFrame("turn123", [("foo", JStr("bar"))])];
    RunAppend(Fresh, "turn123", pre, [EmitEnd]);
    assert Run(Run(Fresh, "turn123", pre), "turn123", [EmitEnd]) == Ended(Run(Fresh, "turn123", pre), "turn123");
  }
}

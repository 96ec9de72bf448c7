/**
 * The streaming accumulator `stream_response_contextual_respond`, which
 * agents/detection_agent.py and agents/knowledge_agent.py define alike: it
 * reads the chunks of a streamed completion, forwards every non-empty
 * reasoning or content delta to the socket and concatenates each kind.
 * The completion itself is a parameter, the sequence of its deltas.
 */
module Streaming {
  import opened Wrappers

  /** `chunk.choices[0].delta`: either field may be absent. */
  datatype Delta = Delta(reasoning: Option<string>, content: Option<string>)

  /** One `ws.send_text(json.dumps({"type": kind, "data": data}))`. */
  datatype Frame = Frame(kind: string, data: string)

  /** The returned `{"reason": ..., "answer": ...}`. */
  datatype Reply = Reply(reason: string, answer: string)

  /** A delta field is used when it is truthy: present and non-empty. */
  predicate Present(part: Option<string>) {
    part.Some? && part.value != ""
  }

  function Text(part: Option<string>): string {
    if Present(part) then part.value else ""
  }

  /** The reasoning deltas, in order, concatenated. */
  function Reasoning(deltas: seq<Delta>): string {
    if |deltas| == 0 then "" else Reasoning(deltas[..|deltas| - 1]) + Text(deltas[|deltas| - 1].reasoning)
  }

  /** The content deltas, in order, concatenated. */
  function Answer(deltas: seq<Delta>): string {
    if |deltas| == 0 then "" else Answer(deltas[..|deltas| - 1]) + Text(deltas[|deltas| - 1].content)
  }

  /** What one chunk sends: its reasoning frame first, then its answer frame. */
  function FramesOf(d: Delta): seq<Frame> {
    (if Present(d.reasoning) then [Frame("reasoning", d.reasoning.value)] else [])
    + (if Present(d.content) then [Frame("answer", d.content.value)] else [])
  }

  function Frames(deltas: seq<Delta>): seq<Frame> {
    if |deltas| == 0 then [] else Frames(deltas[..|deltas| - 1]) + FramesOf(deltas[|deltas| - 1])
  }

  /** The data of the frames of one kind, in the order they were sent. */
  function DataOf(frames: seq<Frame>, kind: string): string {
    if |frames| == 0 then ""
    else DataOf(frames[..|frames| - 1], kind)
         + (if frames[|frames| - 1].kind == kind then frames[|frames| - 1].data else "")
  }

  /** The number of non-empty parts in a sequence of deltas. */
  function PresentParts(deltas: seq<Delta>): nat {
    if |deltas| == 0 then 0
    else PresentParts(deltas[..|deltas| - 1])
         + (if Present(deltas[|deltas| - 1].reasoning) then 1 else 0)
         + (if Present(deltas[|deltas| - 1].content) then 1 else 0)
  }

  /** The accumulation loop over the stream. */
  method Accumulate(deltas: seq<Delta>) returns (reply: Reply, sent: seq<Frame>)
    ensures reply == Reply(Reasoning(deltas), Answer(deltas))
    ensures sent == Frames(deltas)
  {
    var reasoningText := "";
    var answerText := "";
    sent := [];
    var i := 0;
    while i < |deltas|
      invariant 0 <= i <= |deltas|
      invariant reasoningText == Reasoning(deltas[..i])
      invariant answerText == Answer(deltas[..i])
      invariant sent == Frames(deltas[..i])
    {
      var delta := deltas[i];
      assert deltas[..i + 1][..i] == deltas[..i];
      if Present(delta.reasoning) {
        reasoningText := reasoningText + delta.reasoning.value;
        sent := sent + [Frame("reasoning", delta.reasoning.value)];
      }
      if Present(delta.content) {
        answerText := answerText + delta.content.value;
        sent := sent + [Frame("answer", delta.content.value)];
      }
      i := i + 1;
    }
    assert deltas[..i] == deltas;
    reply := Reply(reasoningText, answerText);
  }

  /** The socket receives exactly what is returned: the reasoning frames
      spell the reason, the answer frames the answer, one frame per
      non-empty delta. */
  lemma {:induction false} FramesMatchReply(deltas: seq<Delta>)
    ensures DataOf(Frames(deltas), "reasoning") == Reasoning(deltas)
    ensures DataOf(Frames(deltas), "answer") == Answer(deltas)
    ensures |Frames(deltas)| == PresentParts(deltas)
  {
    if |deltas| > 0 {
      var front := deltas[..|deltas| - 1];
      var d := deltas[|deltas| - 1];
      FramesMatchReply(front);
      DataOfAppend(Frames(front), FramesOf(d), "reasoning");
      DataOfAppend(Frames(front), FramesOf(d), "answer");
      FramesOfData(d);
    }
  }

  /** The frames of one chunk carry its reasoning and its content. */
  lemma FramesOfData(d: Delta)
    ensures DataOf(FramesOf(d), "reasoning") == Text(d.reasoning)
    ensures DataOf(FramesOf(d), "answer") == Text(d.content)
    ensures |FramesOf(d)| == (if Present(d.reasoning) then 1 else 0) + (if Present(d.content) then 1 else 0)
  {
    var f := FramesOf(d);
    assert "reasoning" != "answer" by {
      assert "reasoning"[0] != "answer"[0];
    }
    if |f| == 2 {
      assert f[0] == Frame("reasoning", d.reasoning.value) && f[1] == Frame("answer", d.content.value);
      assert f[..1] == [f[0]] && f[..1][..0] == [];
      assert DataOf(f[..1], "reasoning") == d.reasoning.value;
      assert DataOf(f[..1], "answer") == "";
    } else if |f| == 1 {
      assert f[..0] == [];
    }
  }

  lemma {:induction false} DataOfAppend(a: seq<Frame>, b: seq<Frame>, kind: string)
    ensures DataOf(a + b, kind) == DataOf(a, kind) + DataOf(b, kind)
    decreases |b|
  {
    if |b| > 0 {
      assert (a + b)[..|a + b| - 1] == a + b[..|b| - 1];
      DataOfAppend(a, b[..|b| - 1], kind);
    } else {
      assert a + b == a;
    }
  }

  /** Streams split differently give the same reply: the accumulator only
      concatenates. */
  lemma {:induction false} AccumulateSplits(xs: seq<Delta>, ys: seq<Delta>)
    ensures Reasoning(xs + ys) == Reasoning(xs) + Reasoning(ys)
    ensures Answer(xs + ys) == Answer(xs) + Answer(ys)
    decreases |ys|
  {
    if |ys| > 0 {
      assert (xs + ys)[..|xs + ys| - 1] == xs + ys[..|ys| - 1];
      AccumulateSplits(xs, ys[..|ys| - 1]);
    } else {
      assert xs + ys == xs;
    }
  }

  /** Deltas with nothing in them change nothing. */
  lemma EmptyDeltas(deltas: seq<Delta>, d: Delta)
    requires !Present(d.reasoning) && !Present(d.content)
    ensures Reasoning(deltas + [d]) == Reasoning(deltas) && Answer(deltas + [d]) == Answer(deltas)
    ensures Frames(deltas + [d]) == Frames(deltas)
  {
    assert (deltas + [d])[..|deltas|] == deltas;
  }
}

/**
 * The per-iteration stream consumer of the agent (_process_ai_stream): it
 * feeds the tokens of one model reply to the token parser, forwards every
 * event, stops at the first token that completes the answer, and reports
 * the accumulated text, completion, whether an action was streamed, and the
 * final answer of the last parsed token.
 */
module AgentStream {
  import opened Values
  import opened StreamUtils

  /** `result` read after a stream that produced no token at all. */
  const UnboundResult: string := "UnboundLocalError: cannot access local variable 'result' where it is not associated with a value"

  /** How the consumption of one reply ends: its final tuple, or an exception after some events. */
  datatype StreamEnd =
    | Ended(events: seq<Event>, accumulated: string, isComplete: bool, actionStreamed: bool, finalAnswer: string)
    | Failed(events: seq<Event>, error: string)

  /** The same end, preceded by events forwarded earlier. */
  function WithPrefix(prefix: seq<Event>, tail: StreamEnd): (r: StreamEnd)
    ensures r.events == prefix + tail.events
  {
    match tail
    case Ended(events, accumulated, isComplete, actionStreamed, finalAnswer) =>
      Ended(prefix + events, accumulated, isComplete, actionStreamed, finalAnswer)
    case Failed(events, error) => Failed(prefix + events, error)
  }

  lemma WithPrefixAssociates(a: seq<Event>, b: seq<Event>, tail: StreamEnd)
    ensures WithPrefix(a, WithPrefix(b, tail)) == WithPrefix(a + b, tail)
  {
    assert a + (b + tail.events) == (a + b) + tail.events;
  }

  /**
   * The consumer from a given state: the remaining tokens, the parser state
   * so far, and the last parser result (`None` before the first token).
   */
  function RunStream(c: Codec, tokens: seq<string>, acc: string, fb: string, fields: set<string>, last: Option<StreamResult>): StreamEnd
    decreases |tokens|
  {
    if tokens == [] then
      match last
      case None => Failed([], UnboundResult)
      case Some(result) => Ended([], acc, result.isComplete, "action" in fields, result.finalAnswer)
    else
      match TokenStep(c, tokens[0], acc, fb, fields)
      case Raised(error) => Failed([], error)
      case Returned(result) =>
        if result.isComplete then
          Ended(result.outputs, result.accumulated, true, "action" in result.streamedFields, result.finalAnswer)
        else
          WithPrefix(result.outputs,
            RunStream(c, tokens[1..], result.accumulated, result.finishBuffer, result.streamedFields, Some(result)))
  }

  /** One reply consumed from the initial state. */
  function Stream(c: Codec, tokens: seq<string>): StreamEnd {
    RunStream(c, tokens, "", "", {}, None)
  }

  /** _process_ai_stream over the tokens of one reply. */
  method ProcessAiStream(c: Codec, tokens: seq<string>) returns (r: StreamEnd)
    ensures r == Stream(c, tokens)
  {
    var accumulated := "";
    var finishBuffer := "";
    var streamedFields: set<string> := {};
    var last: Option<StreamResult> := None;
    var events: seq<Event> := [];
    var i := 0;
    while i < |tokens|
      invariant 0 <= i <= |tokens|
      invariant Stream(c, tokens) == WithPrefix(events, RunStream(c, tokens[i..], accumulated, finishBuffer, streamedFields, last))
    {
      var step := ParseStreamToken(c, tokens[i], accumulated, finishBuffer, streamedFields);
      if step.Raised? {
        return Failed(events, step.error);
      }
      var result := step.value;
      accumulated := result.accumulated;
      finishBuffer := result.finishBuffer;
      streamedFields := result.streamedFields;
      WithPrefixAssociates(events, result.outputs, RunStream(c, tokens[i + 1..], accumulated, finishBuffer, streamedFields, Some(result)));
      events := events + result.outputs;
      last := Some(result);
      if result.isComplete {
        return Ended(events, accumulated, true, "action" in streamedFields, result.finalAnswer);
      }
      i := i + 1;
    }
    assert events + [] == events;
    if last.None? {
      return Failed(events, UnboundResult);
    }
    r := Ended(events, accumulated, last.value.isComplete, "action" in streamedFields, last.value.finalAnswer);
  }

  // ---------------------------------------------------------------------------
  // Properties of one reply

  /**
   * Across a whole reply the thought and the action are each narrated at most
   * once (never when already streamed before), no spacer is produced, and the
   * reported `action_streamed` holds exactly when an action line was narrated
   * (or had been before).
   */
  lemma {:induction false} StreamNarratesOnce(c: Codec, tokens: seq<string>, acc: string, fb: string, fields: set<string>, last: Option<StreamResult>)
    ensures var o := RunStream(c, tokens, acc, fb, fields, last);
      && CountNarration(o.events, ThoughtLine) <= (if "thought" in fields then 0 else 1)
      && CountNarration(o.events, ActionLine) <= (if "action" in fields then 0 else 1)
      && CountNarration(o.events, Spacer) == 0
      && (o.Ended? ==> (o.actionStreamed <==> "action" in fields || CountNarration(o.events, ActionLine) == 1))
    decreases |tokens|
  {
    if tokens != [] && TokenStep(c, tokens[0], acc, fb, fields).Returned? {
      var result := TokenStep(c, tokens[0], acc, fb, fields).value;
      TokenOutputOrder(c, tokens[0], acc, fb, fields);
      if !result.isComplete {
        var rest := RunStream(c, tokens[1..], result.accumulated, result.finishBuffer, result.streamedFields, Some(result));
        StreamNarratesOnce(c, tokens[1..], result.accumulated, result.finishBuffer, result.streamedFields, Some(result));
        CountNarrationAppend(result.outputs, rest.events, ThoughtLine);
        CountNarrationAppend(result.outputs, rest.events, ActionLine);
        CountNarrationAppend(result.outputs, rest.events, Spacer);
      }
    }
  }

  /** A reply narrates the thought and the action each at most once and yields no spacer. */
  lemma ReplyNarratesOnce(c: Codec, tokens: seq<string>)
    ensures var o := Stream(c, tokens);
      && CountNarration(o.events, ThoughtLine) <= 1
      && CountNarration(o.events, ActionLine) <= 1
      && CountNarration(o.events, Spacer) == 0
      && (o.Ended? ==> (o.actionStreamed <==> CountNarration(o.events, ActionLine) == 1))
  {
    StreamNarratesOnce(c, tokens, "", "", {}, None);
  }

  /** Only the finish scan of one parser call yields `final_answer`, and only as its last output when the call completes. */
  lemma TokenFinalAnswer(c: Codec, token: string, acc: string, fb: string, fields: set<string>)
    requires TokenStep(c, token, acc, fb, fields).Returned?
    ensures var r := TokenStep(c, token, acc, fb, fields).value;
      && (forall i :: 0 <= i < |r.outputs| && r.outputs[i].FinalAnswer? ==> r.isComplete && i == |r.outputs| - 1)
      && (r.isComplete ==> r.outputs != [] && r.outputs[|r.outputs| - 1] == FinalAnswer(r.finalAnswer)
                           && ScanFinish(r.finishBuffer) == Terminated(r.finalAnswer))
      && (!r.isComplete ==> r.finalAnswer == "")
  {
    var r := TokenStep(c, token, acc, fb, fields).value;
    TokenOutputOrder(c, token, acc, fb, fields);
    var k := |r.streamedFields - fields|;
    assert r.outputs == r.outputs[..k] + r.outputs[k..];
    forall i | 0 <= i < |r.outputs| && r.outputs[i].FinalAnswer?
      ensures r.isComplete && i == |r.outputs| - 1
    {
      assert i >= k;
      assert r.outputs[k..][i - k] == r.outputs[i];
    }
  }

  /**
   * The final tuple of a reply: the accumulated text is a prefix of the
   * reply; when complete, the reply so far holds a terminated finish field
   * whose text is the final answer; otherwise every token was consumed and
   * the final answer is empty.
   */
  lemma {:induction false} StreamAccumulates(c: Codec, tokens: seq<string>, acc: string, fields: set<string>, last: Option<StreamResult>)
    requires last.Some? ==> !last.value.isComplete && last.value.finalAnswer == ""
    ensures var o := RunStream(c, tokens, acc, acc, fields, last);
      && (o.Ended? ==> o.accumulated <= acc + Concat(tokens))
      && (o.Ended? && o.isComplete ==> ScanFinish(o.accumulated) == Terminated(o.finalAnswer))
      && (o.Ended? && !o.isComplete ==> o.finalAnswer == "" && o.accumulated == acc + Concat(tokens))
    decreases |tokens|
  {
    if tokens != [] && TokenStep(c, tokens[0], acc, acc, fields).Returned? {
      var result := TokenStep(c, tokens[0], acc, acc, fields).value;
      TokenFinalAnswer(c, tokens[0], acc, acc, fields);
      assert acc + Concat(tokens) == result.accumulated + Concat(tokens[1..]);
      if !result.isComplete {
        StreamAccumulates(c, tokens[1..], result.accumulated, result.streamedFields, Some(result));
      }
    } else if tokens == [] {
      assert acc + Concat(tokens) == acc;
    }
  }

  /** A `final_answer` event can only be the last event of a completed reply, and a completed reply ends with one. */
  lemma {:induction false} StreamFinalEvent(c: Codec, tokens: seq<string>, acc: string, fb: string, fields: set<string>, last: Option<StreamResult>)
    requires last.Some? ==> !last.value.isComplete && last.value.finalAnswer == ""
    ensures var o := RunStream(c, tokens, acc, fb, fields, last);
      && (forall i :: 0 <= i < |o.events| && o.events[i].FinalAnswer? ==> o.Ended? && o.isComplete && i == |o.events| - 1)
      && (o.Ended? && o.isComplete ==> o.events != [] && o.events[|o.events| - 1] == FinalAnswer(o.finalAnswer))
    decreases |tokens|
  {
    if tokens != [] && TokenStep(c, tokens[0], acc, fb, fields).Returned? {
      var result := TokenStep(c, tokens[0], acc, fb, fields).value;
      TokenFinalAnswer(c, tokens[0], acc, fb, fields);
      if !result.isComplete {
        var rest := RunStream(c, tokens[1..], result.accumulated, result.finishBuffer, result.streamedFields, Some(result));
        StreamFinalEvent(c, tokens[1..], result.accumulated, result.finishBuffer, result.streamedFields, Some(result));
        var o := WithPrefix(result.outputs, rest);
        forall i | 0 <= i < |o.events| && o.events[i].FinalAnswer?
          ensures o.Ended? && o.isComplete && i == |o.events| - 1
        {
          if i >= |result.outputs| {
            assert rest.events[i - |result.outputs|] == o.events[i];
          }
        }
        if o.Ended? && o.isComplete {
          assert o.events[|o.events| - 1] == rest.events[|rest.events| - 1];
        }
      }
    }
  }

  /** The reply-level form of the ending facts. */
  lemma ReplyEnding(c: Codec, tokens: seq<string>)
    ensures var o := Stream(c, tokens);
      && (o.Ended? ==> o.accumulated <= Concat(tokens))
      && (o.Ended? && o.isComplete ==> ScanFinish(o.accumulated) == Terminated(o.finalAnswer))
      && (o.Ended? && !o.isComplete ==> o.finalAnswer == "" && o.accumulated == Concat(tokens))
      && (forall i :: 0 <= i < |o.events| && o.events[i].FinalAnswer? ==> o.Ended? && o.isComplete && i == |o.events| - 1)
      && (o.Ended? && o.isComplete ==> o.events != [] && o.events[|o.events| - 1] == FinalAnswer(o.finalAnswer))
  {
    StreamAccumulates(c, tokens, "", {}, None);
    StreamFinalEvent(c, tokens, "", "", {}, None);
    assert "" + Concat(tokens) == Concat(tokens);
  }

  /** A reply with no token at all raises, as reading the unbound `result` does. */
  lemma EmptyReplyRaises(c: Codec)
    ensures Stream(c, []) == Failed([], UnboundResult)
  {
  }
}

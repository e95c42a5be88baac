/**
 * The incremental stream token parser of the agent (parse_stream_token).
 *
 * Each token is appended to two buffers. The whole accumulated text is then
 * offered to `json.loads`: when it decodes, the `thought` and the `action` of
 * the object are narrated, each at most once, with the caller's set of
 * already streamed field names as the record. Independently the finish buffer
 * is scanned for the marker `"finish": "`; the answer runs from just after the
 * marker to the first quote that is not preceded by a backslash.
 */
module StreamUtils {
  import opened Values

  /** Which part of a response an `agent_process` line narrates. */
  datatype Narration = ThoughtLine | ActionLine | Spacer

  /**
   * The caller-facing events. The first three are sent as
   * {"type": "agent_process" | "final_answer" | "final_answer_partial", "content": ...};
   * `RawText` is a bare string that the agent yields without that wrapping.
   */
  datatype Event =
    | AgentProcess(narration: Narration, content: string)
    | FinalAnswer(content: string)
    | FinalAnswerPartial(content: string)
    | RawText(text: string)

  /** What one call of the parser returns (StreamResult). */
  datatype StreamResult = StreamResult(
    outputs: seq<Event>,
    accumulated: string,
    finishBuffer: string,
    streamedFields: set<string>,
    isComplete: bool,
    finalAnswer: string)

  /** The literal that introduces the answer field; the answer starts 11 characters after it begins. */
  const FinishMarker: string := "\"finish\": \""
  const AnswerOffset: nat := 11

  // ---------------------------------------------------------------------------
  // Substring search (Python's `in` and `str.find` on strings)

  predicate OccursAt(s: string, p: string, i: nat) {
    i + |p| <= |s| && s[i..i + |p|] == p
  }

  /** The first index at or after `i` where `p` occurs in `s`. */
  function FindFrom(s: string, p: string, i: nat): (r: Option<nat>)
    decreases |s| - i
    ensures r.Some? ==> i <= r.value && OccursAt(s, p, r.value)
    ensures r.Some? ==> forall j :: i <= j < r.value ==> !OccursAt(s, p, j)
    ensures r.None? ==> forall j :: i <= j ==> !OccursAt(s, p, j)
  {
    if i + |p| > |s| then None
    else if s[i..i + |p|] == p then Some(i)
    else FindFrom(s, p, i + 1)
  }

  /** `s.find(p)`, with None for -1. */
  function Find(s: string, p: string): Option<nat> {
    FindFrom(s, p, 0)
  }

  /** The first occurrence of a pattern does not move when text is appended. */
  lemma {:induction false} FindStable(s: string, t: string, p: string)
    requires Find(s, p).Some?
    ensures Find(s + t, p) == Find(s, p)
  {
    var k := Find(s, p).value;
    assert (s + t)[k..k + |p|] == s[k..k + |p|];
    assert OccursAt(s + t, p, k);
    forall j | 0 <= j < k
      ensures !OccursAt(s + t, p, j)
    {
      assert !OccursAt(s, p, j);
      assert (s + t)[j..j + |p|] == s[j..j + |p|];
    }
  }

  // ---------------------------------------------------------------------------
  // The structural part: Python's `in` on a decoded value, and the narration

  /** `key in v`: a key of a dict, an element of a list, a substring of a str; other types raise. */
  function Contains(v: Json, key: string): Outcome<bool> {
    match v
    case JObj(m) => Returned(key in m)
    case JList(items) => Returned(JStr(key) in items)
    case JStr(s) => Returned(Find(s, key).Some?)
    case _ => Raised("TypeError: argument of type '" + TypeName(v) + "' is not iterable")
  }

  /** The narration of an action: `→ name(input)` and a newline; a falsy input is shown as `{}`. */
  function ActionText(c: Codec, name: Json, input: Json): string {
    "\U{2192} " + Str(c, name) + "(" + (if Truthy(input) then Str(c, input) else "{}") + ")\n"
  }

  /** The thought line: the thought and a blank line. */
  function ThoughtText(c: Codec, thought: Json): string {
    Str(c, thought) + "\n\n"
  }

  /** The thought part of one call: narrate the thought unless it was already streamed. */
  function NarrateThought(c: Codec, data: Json, fields: set<string>): Outcome<(seq<Event>, set<string>)> {
    var has :- Contains(data, "thought");
    if has && "thought" !in fields then
      var thought :- Subscript(data, "thought");
      Returned(([AgentProcess(ThoughtLine, ThoughtText(c, thought))], fields + {"thought"}))
    else
      Returned(([], fields))
  }

  /** The action part of one call: narrate the action, registered or not, unless it was already streamed. */
  function NarrateAction(c: Codec, data: Json, fields: set<string>): Outcome<(seq<Event>, set<string>)> {
    var has :- Contains(data, "action");
    if has && "action" !in fields then
      var action :- Subscript(data, "action");
      var name :- GetMethod(action, "name", JStr("unknown"));
      var input :- GetMethod(action, "input", JObj(map[]));
      Returned(([AgentProcess(ActionLine, ActionText(c, name, input))], fields + {"action"}))
    else
      Returned(([], fields))
  }

  /**
   * The whole structural part. A decode error is swallowed; any other
   * exception (a decoded value that is not a dict) propagates.
   */
  function Narrate(c: Codec, accumulated: string, fields: set<string>): Outcome<(seq<Event>, set<string>)> {
    match c.loads(accumulated)
    case None => Returned(([], fields))
    case Some(data) =>
      var afterThought :- NarrateThought(c, data, fields);
      var afterAction :- NarrateAction(c, data, afterThought.1);
      Returned((afterThought.0 + afterAction.0, afterAction.1))
  }

  // ---------------------------------------------------------------------------
  // The finish scan

  /** A quote at index 0, or a quote whose predecessor is not a backslash, ends the answer. */
  predicate IsTerminator(content: string, i: nat)
    requires i < |content|
  {
    content[i] == '"' && (i == 0 || content[i - 1] != '\\')
  }

  /** The first terminating quote at or after `i`. */
  function FirstTerminatorFrom(content: string, i: nat): (r: Option<nat>)
    requires i <= |content|
    decreases |content| - i
    ensures r.Some? ==> i <= r.value < |content| && IsTerminator(content, r.value)
    ensures r.Some? ==> forall j :: i <= j < r.value ==> !IsTerminator(content, j)
    ensures r.None? ==> forall j :: i <= j < |content| ==> !IsTerminator(content, j)
  {
    if i == |content| then None
    else if IsTerminator(content, i) then Some(i)
    else FirstTerminatorFrom(content, i + 1)
  }

  function FirstTerminator(content: string): Option<nat> {
    FirstTerminatorFrom(content, 0)
  }

  /** What the finish scan sees in a buffer. */
  datatype FinishScan =
    | NoMarker
    | Terminated(answer: string)
    | Open(rest: string)

  function ScanFinish(buffer: string): FinishScan {
    match Find(buffer, FinishMarker)
    case None => NoMarker
    case Some(k) =>
      var rest := buffer[k + AnswerOffset..];
      match FirstTerminator(rest)
      case Some(e) => Terminated(rest[..e])
      case None => Open(rest)
  }

  /** The events of the finish scan: the answer, or the partial text when there is any. */
  function FinishOutputs(scan: FinishScan): seq<Event> {
    match scan
    case NoMarker => []
    case Terminated(answer) => [FinalAnswer(answer)]
    case Open(rest) => if rest != "" then [FinalAnswerPartial(rest)] else []
  }

  /** One call of the parser, as a function of its inputs. */
  function TokenStep(c: Codec, token: string, accumulated: string, finishBuffer: string, fields: set<string>): Outcome<StreamResult> {
    var acc := accumulated + token;
    var buffer := finishBuffer + token;
    var narrated :- Narrate(c, acc, fields);
    var scan := ScanFinish(buffer);
    Returned(StreamResult(
      narrated.0 + FinishOutputs(scan), acc, buffer, narrated.1,
      scan.Terminated?, if scan.Terminated? then scan.answer else ""))
  }

  /** The structural part of parse_stream_token: the try block around `json.loads`. */
  method NarrateStructure(c: Codec, acc: string, streamedFields: set<string>) returns (r: Outcome<(seq<Event>, set<string>)>)
    ensures r == Narrate(c, acc, streamedFields)
  {
    var outputs: seq<Event> := [];
    var fields := streamedFields;
    var decoded := c.loads(acc);
    if decoded.Some? {
      var data := decoded.value;
      var hasThought :- Contains(data, "thought");
      if hasThought && "thought" !in fields {
        var thought :- Subscript(data, "thought");
        outputs := [AgentProcess(ThoughtLine, ThoughtText(c, thought))];
        fields := fields + {"thought"};
      }
      assert NarrateThought(c, data, streamedFields) == Returned((outputs, fields));
      var thoughtPart := outputs;
      ghost var thoughtFields := fields;
      var actionPart: seq<Event> := [];
      var hasAction :- Contains(data, "action");
      if hasAction && "action" !in fields {
        var action :- Subscript(data, "action");
        var name :- GetMethod(action, "name", JStr("unknown"));
        var input :- GetMethod(action, "input", JObj(map[]));
        actionPart := [AgentProcess(ActionLine, ActionText(c, name, input))];
        fields := fields + {"action"};
      }
      assert NarrateAction(c, data, thoughtFields) == Returned((actionPart, fields));
      outputs := thoughtPart + actionPart;
    }
    r := Returned((outputs, fields));
  }

  /** The finish scan of parse_stream_token: the loop looking for the closing quote. */
  method ScanFinishBuffer(buffer: string) returns (outputs: seq<Event>, isComplete: bool, finalAnswer: string)
    ensures outputs == FinishOutputs(ScanFinish(buffer))
    ensures isComplete == ScanFinish(buffer).Terminated?
    ensures finalAnswer == if ScanFinish(buffer).Terminated? then ScanFinish(buffer).answer else ""
  {
    outputs := [];
    isComplete := false;
    finalAnswer := "";
    var found := Find(buffer, FinishMarker);
    if found.Some? {
      var content := buffer[found.value + AnswerOffset..];
      var endPos := -1;
      for i := 0 to |content|
        invariant endPos == -1
        invariant forall j :: 0 <= j < i ==> !IsTerminator(content, j)
      {
        if content[i] == '"' && (i == 0 || content[i - 1] != '\\') {
          assert IsTerminator(content, i);
          endPos := i;
          break;
        }
      }
      if endPos != -1 {
        assert FirstTerminator(content) == Some(endPos);
        finalAnswer := content[..endPos];
        outputs := [FinalAnswer(finalAnswer)];
        isComplete := true;
      } else {
        assert FirstTerminator(content).None?;
        if content != "" {
          outputs := [FinalAnswerPartial(content)];
        }
      }
    }
  }

  /** parse_stream_token. */
  method ParseStreamToken(c: Codec, token: string, accumulated: string, finishBuffer: string, streamedFields: set<string>)
    returns (r: Outcome<StreamResult>)
    ensures r == TokenStep(c, token, accumulated, finishBuffer, streamedFields)
  {
    var acc := accumulated + token;
    var buffer := finishBuffer + token;
    var narrated :- NarrateStructure(c, acc, streamedFields);
    var finish, isComplete, finalAnswer := ScanFinishBuffer(buffer);
    r := Returned(StreamResult(narrated.0 + finish, acc, buffer, narrated.1, isComplete, finalAnswer));
  }

  // ---------------------------------------------------------------------------
  // Properties of one call

  /** The number of `agent_process` lines of one kind. */
  function CountNarration(events: seq<Event>, n: Narration): nat {
    if events == [] then 0
    else (if events[0].AgentProcess? && events[0].narration == n then 1 else 0) + CountNarration(events[1..], n)
  }

  lemma {:induction false} CountNarrationAppend(a: seq<Event>, b: seq<Event>, n: Narration)
    ensures CountNarration(a + b, n) == CountNarration(a, n) + CountNarration(b, n)
  {
    if a != [] {
      assert (a + b)[1..] == a[1..] + b;
      CountNarrationAppend(a[1..], b, n);
    } else {
      assert a + b == b;
    }
  }

  lemma FinishOutputsNarrateNothing(scan: FinishScan, n: Narration)
    ensures CountNarration(FinishOutputs(scan), n) == 0
    ensures forall e :: e in FinishOutputs(scan) ==> e.FinalAnswer? || e.FinalAnswerPartial?
  {
  }

  /** The lines one narration part adds: one line of kind `n` exactly when `name` is newly streamed. */
  predicate NarratedOnce(part: (seq<Event>, set<string>), fields: set<string>, name: string, n: Narration) {
    && part.1 - fields <= {name}
    && fields <= part.1
    && |part.0| == |part.1 - fields|
    && (name in part.1 - fields ==> |part.0| == 1 && part.0[0].AgentProcess? && part.0[0].narration == n)
  }

  lemma {:induction false} NarratedOnceCounts(part: (seq<Event>, set<string>), fields: set<string>, name: string, n: Narration, other: Narration)
    requires NarratedOnce(part, fields, name, n) && other != n
    ensures CountNarration(part.0, n) == (if name in part.1 - fields then 1 else 0)
    ensures CountNarration(part.0, other) == 0
  {
    if name !in part.1 - fields {
      assert part.1 - fields == {};
    }
  }

  lemma NarrateThoughtShape(c: Codec, data: Json, fields: set<string>)
    requires NarrateThought(c, data, fields).Returned?
    ensures NarratedOnce(NarrateThought(c, data, fields).value, fields, "thought", ThoughtLine)
  {
  }

  lemma NarrateActionShape(c: Codec, data: Json, fields: set<string>)
    requires NarrateAction(c, data, fields).Returned?
    ensures NarratedOnce(NarrateAction(c, data, fields).value, fields, "action", ActionLine)
  {
  }

  /** A thought part followed by an action part, each narrated at most once. */
  lemma {:induction false} NarratedPair(t: (seq<Event>, set<string>), a: (seq<Event>, set<string>), fields: set<string>)
    requires NarratedOnce(t, fields, "thought", ThoughtLine)
    requires NarratedOnce(a, t.1, "action", ActionLine)
    ensures var events := t.0 + a.0;
      var added := a.1 - fields;
      && fields <= a.1
      && added <= {"thought", "action"}
      && |events| == |added|
      && (forall i :: 0 <= i < |events| ==> events[i].AgentProcess?)
      && CountNarration(events, ThoughtLine) == (if "thought" in added then 1 else 0)
      && CountNarration(events, ActionLine) == (if "action" in added then 1 else 0)
      && CountNarration(events, Spacer) == 0
      && (|added| == 2 ==> events[0].narration == ThoughtLine && events[1].narration == ActionLine)
  {
    NarratedOnceCounts(t, fields, "thought", ThoughtLine, ActionLine);
    NarratedOnceCounts(t, fields, "thought", ThoughtLine, Spacer);
    NarratedOnceCounts(a, t.1, "action", ActionLine, ThoughtLine);
    NarratedOnceCounts(a, t.1, "action", ActionLine, Spacer);
    CountNarrationAppend(t.0, a.0, ThoughtLine);
    CountNarrationAppend(t.0, a.0, ActionLine);
    CountNarrationAppend(t.0, a.0, Spacer);
    assert a.1 - fields == (t.1 - fields) + (a.1 - t.1);
    assert (t.1 - fields) !! (a.1 - t.1);
    assert "action" !in t.1 - fields;
    assert "thought" !in a.1 - t.1;
  }

  /** The narration of one call: at most a thought line and then an action line, one per newly streamed field. */
  lemma NarrateShape(c: Codec, accumulated: string, fields: set<string>)
    requires Narrate(c, accumulated, fields).Returned?
    ensures var r := Narrate(c, accumulated, fields).value;
      var added := r.1 - fields;
      && fields <= r.1
      && added <= {"thought", "action"}
      && |r.0| == |added|
      && (forall i :: 0 <= i < |r.0| ==> r.0[i].AgentProcess?)
      && CountNarration(r.0, ThoughtLine) == (if "thought" in added then 1 else 0)
      && CountNarration(r.0, ActionLine) == (if "action" in added then 1 else 0)
      && CountNarration(r.0, Spacer) == 0
      && (|added| == 2 ==> r.0[0].narration == ThoughtLine && r.0[1].narration == ActionLine)
  {
    match c.loads(accumulated)
    case None =>
    case Some(data) =>
      var t := NarrateThought(c, data, fields).value;
      var a := NarrateAction(c, data, t.1).value;
      NarrateThoughtShape(c, data, fields);
      NarrateActionShape(c, data, t.1);
      NarratedPair(t, a, fields);
  }

  /**
   * Within one call: the buffers grow by exactly the token; the thought line
   * and the action line each appear at most once, exactly when the field
   * name is newly added to the streamed set; the thought comes before the
   * action, and both come before the events of the finish scan.
   */
  lemma TokenOutputOrder(c: Codec, token: string, accumulated: string, finishBuffer: string, fields: set<string>)
    requires TokenStep(c, token, accumulated, finishBuffer, fields).Returned?
    ensures var r := TokenStep(c, token, accumulated, finishBuffer, fields).value;
      var added := r.streamedFields - fields;
      && r.accumulated == accumulated + token
      && r.finishBuffer == finishBuffer + token
      && fields <= r.streamedFields
      && added <= {"thought", "action"}
      && CountNarration(r.outputs, ThoughtLine) == (if "thought" in added then 1 else 0)
      && CountNarration(r.outputs, ActionLine) == (if "action" in added then 1 else 0)
      && CountNarration(r.outputs, Spacer) == 0
      && |added| <= |r.outputs|
      && (forall i :: 0 <= i < |added| ==> r.outputs[i].AgentProcess?)
      && r.outputs[|added|..] == FinishOutputs(ScanFinish(r.finishBuffer))
      && (|added| == 2 ==> r.outputs[0].narration == ThoughtLine && r.outputs[1].narration == ActionLine)
  {
    var r := TokenStep(c, token, accumulated, finishBuffer, fields).value;
    var scan := ScanFinish(r.finishBuffer);
    var narrated := Narrate(c, r.accumulated, fields).value;
    assert r.outputs == narrated.0 + FinishOutputs(scan);
    NarrateShape(c, r.accumulated, fields);
    FinishOutputsNarrateNothing(scan, ThoughtLine);
    FinishOutputsNarrateNothing(scan, ActionLine);
    FinishOutputsNarrateNothing(scan, Spacer);
    CountNarrationAppend(narrated.0, FinishOutputs(scan), ThoughtLine);
    CountNarrationAppend(narrated.0, FinishOutputs(scan), ActionLine);
    CountNarrationAppend(narrated.0, FinishOutputs(scan), Spacer);
  }

  /**
   * When the accumulated text does not decode, the call narrates nothing,
   * leaves the streamed set as it was and raises nothing.
   */
  lemma UndecodedIsQuiet(c: Codec, token: string, accumulated: string, finishBuffer: string, fields: set<string>)
    requires c.loads(accumulated + token).None?
    ensures TokenStep(c, token, accumulated, finishBuffer, fields).Returned?
    ensures var r := TokenStep(c, token, accumulated, finishBuffer, fields).value;
      r.streamedFields == fields && r.outputs == FinishOutputs(ScanFinish(finishBuffer + token))
  {
  }

  /**
   * A call raises only when the text decodes to something the narration
   * cannot index: a value other than a dict that holds a field name, a value
   * on which `in` itself fails, or an action that is not a dict. For a
   * decoded dict it raises exactly when a not yet streamed action is not a dict.
   */
  lemma WhenTokenRaises(c: Codec, token: string, accumulated: string, finishBuffer: string, fields: set<string>)
    ensures TokenStep(c, token, accumulated, finishBuffer, fields).Raised? ==> c.loads(accumulated + token).Some?
    ensures match c.loads(accumulated + token)
      case Some(JObj(m)) =>
        TokenStep(c, token, accumulated, finishBuffer, fields).Raised? <==>
          ("action" in m && "action" !in fields && !m["action"].JObj?)
      case _ => true
  {
  }

  // ---------------------------------------------------------------------------
  // Properties of the finish scan

  /** No quote of `text` ends it: every quote is preceded by a backslash. */
  predicate NoBareQuote(text: string) {
    forall i :: 0 <= i < |text| && text[i] == '"' ==> 0 < i && text[i - 1] == '\\'
  }

  /**
   * The answer is the text from 11 characters after the first marker up to
   * the first terminating quote; it holds no quote that would have ended it.
   * Without a terminator the open rest runs to the end of the buffer; without
   * the marker nothing is found.
   */
  lemma AnswerLocation(buffer: string)
    ensures ScanFinish(buffer).NoMarker? <==> Find(buffer, FinishMarker).None?
    ensures ScanFinish(buffer).Terminated? ==>
      var k := Find(buffer, FinishMarker).value + AnswerOffset;
      var answer := ScanFinish(buffer).answer;
      && k + |answer| < |buffer|
      && buffer[k..k + |answer|] == answer
      && buffer[k + |answer|] == '"'
      && (answer == [] || answer[|answer| - 1] != '\\')
      && NoBareQuote(answer)
    ensures ScanFinish(buffer).Open? ==>
      var k := Find(buffer, FinishMarker).value + AnswerOffset;
      ScanFinish(buffer).rest == buffer[k..] && NoBareQuote(ScanFinish(buffer).rest)
  {
    match Find(buffer, FinishMarker)
    case None =>
    case Some(m) =>
      var rest := buffer[m + AnswerOffset..];
      match FirstTerminator(rest)
      case None =>
        forall i | 0 <= i < |rest| && rest[i] == '"'
          ensures 0 < i && rest[i - 1] == '\\'
        {
          assert !IsTerminator(rest, i);
        }
      case Some(e) =>
        var answer := rest[..e];
        forall i | 0 <= i < |answer| && answer[i] == '"'
          ensures 0 < i && answer[i - 1] == '\\'
        {
          assert !IsTerminator(rest, i);
        }
  }

  /**
   * Escaped quotes are skipped: after the marker, a text in which every quote
   * is escaped and that does not end in a backslash is extracted up to the
   * closing quote that follows it, whatever comes after.
   */
  lemma {:induction false} EscapedQuotesSkipped(before: string, answer: string, after: string)
    requires Find(before + FinishMarker, FinishMarker) == Some(|before|)
    requires NoBareQuote(answer)
    requires answer == [] || answer[|answer| - 1] != '\\'
    ensures ScanFinish(before + FinishMarker + answer + "\"" + after) == Terminated(answer)
  {
    var rest := answer + "\"" + after;
    var buffer := before + FinishMarker + answer + "\"" + after;
    assert buffer == (before + FinishMarker) + rest;
    FindStable(before + FinishMarker, rest, FinishMarker);
    assert buffer[|before| + AnswerOffset..] == rest;
    forall j | 0 <= j < |answer|
      ensures !IsTerminator(rest, j)
    {
      assert rest[j] == answer[j];
      if j > 0 { assert rest[j - 1] == answer[j - 1]; }
    }
    assert IsTerminator(rest, |answer|);
    assert rest[..|answer|] == answer;
  }

  /**
   * A partial answer, once shown, is never revised: after more text arrives
   * the open rest is the old rest extended by that text, or the answer found
   * extends the old rest.
   */
  lemma {:induction false} PartialAnswersGrow(s: string, t: string)
    requires ScanFinish(s).Open?
    ensures var old_rest := ScanFinish(s).rest;
      match ScanFinish(s + t)
      case NoMarker => false
      case Open(rest) => rest == old_rest + t
      case Terminated(answer) => |old_rest| <= |answer| && answer[..|old_rest|] == old_rest
  {
    var k := Find(s, FinishMarker).value;
    FindStable(s, t, FinishMarker);
    var old_rest := s[k + AnswerOffset..];
    var rest := (s + t)[k + AnswerOffset..];
    assert rest == old_rest + t;
    forall j | 0 <= j < |old_rest|
      ensures !IsTerminator(rest, j)
    {
      assert !IsTerminator(old_rest, j);
      assert rest[j] == old_rest[j];
      if j > 0 { assert rest[j - 1] == old_rest[j - 1]; }
    }
    match FirstTerminator(rest)
    case None =>
    case Some(e) =>
      assert rest[..e][..|old_rest|] == old_rest;
  }

  /**
   * The scan takes a backslash before a quote as an escape even when that
   * backslash is itself escaped: the JSON value `C:\\` (a single backslash
   * after `C:`) followed by its closing quote is not recognised as finished.
   */
  lemma EscapedBackslashLeavesAnswerOpen()
    ensures ScanFinish(FinishMarker + "C:\\\\\"}") == Open("C:\\\\\"}")
  {
    var content := "C:\\\\\"}";
    var buffer := FinishMarker + content;
    assert OccursAt(buffer, FinishMarker, 0) by { assert buffer[0..|FinishMarker|] == FinishMarker; }
    assert buffer[AnswerOffset..] == content;
    forall j | 0 <= j < |content|
      ensures !IsTerminator(content, j)
    {
      assert content[0] == 'C' && content[1] == ':' && content[2] == '\\' && content[3] == '\\';
      assert content[4] == '"' && content[5] == '}';
    }
  }
}

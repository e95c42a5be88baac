/**
 * Session memory (SessionManager): a table from session id to a context that
 * keeps a sliding window of the last three completed agent loops, rendered
 * for the next request as alternating user and assistant messages.
 * Clock readings (`time.time()`) are parameters.
 */
module SessionMemory {
  import opened Values

  /** The size of the sliding window (max_agent_loops). */
  const MaxAgentLoops: nat := 3

  /** One completed agent loop: the question, the recorded answer and when it was recorded. */
  datatype AgentLoop = AgentLoop(userMessage: string, finalAnswer: string, timestamp: real)

  /** SessionContext. */
  datatype SessionContext = SessionContext(sessionId: string, agentLoops: seq<AgentLoop>, lastUpdated: real)

  type Sessions = map<string, SessionContext>

  /** The loops stored for a session id; a never-seen id has none. */
  function LoopsOf(sessions: Sessions, id: string): seq<AgentLoop> {
    if id in sessions then sessions[id].agentLoops else []
  }

  /** The table after get_session: the context of `id`, created empty when unknown, with a fresh timestamp. */
  function Touch(sessions: Sessions, id: string, now: real): (r: Sessions)
    ensures id in r && r[id].sessionId == (if id in sessions then sessions[id].sessionId else id)
    ensures r[id].agentLoops == LoopsOf(sessions, id) && r[id].lastUpdated == now
    ensures r.Keys == sessions.Keys + {id}
    ensures forall other :: other in sessions && other != id ==> r[other] == sessions[other]
  {
    var context := if id in sessions then sessions[id] else SessionContext(id, [], now);
    sessions[id := context.(lastUpdated := now)]
  }

  /** Appending to the window and dropping the oldest entry when it grows past the bound. */
  function Slide(loops: seq<AgentLoop>, entry: AgentLoop): (r: seq<AgentLoop>)
    ensures |loops| <= MaxAgentLoops ==> |r| <= MaxAgentLoops
    ensures r != [] && r[|r| - 1] == entry
    ensures |loops| < MaxAgentLoops ==> r == loops + [entry]
    ensures |loops| >= MaxAgentLoops ==> r == loops[1..] + [entry]
  {
    var grown := loops + [entry];
    if |grown| > MaxAgentLoops then grown[1..] else grown
  }

  /** The window after a series of adds, in order. */
  function SlideAll(loops: seq<AgentLoop>, entries: seq<AgentLoop>): seq<AgentLoop>
    decreases |entries|
  {
    if entries == [] then loops else SlideAll(Slide(loops, entries[0]), entries[1..])
  }

  /**
   * The table after add_agent_loop: the session refreshed as by get_session,
   * its window slid by the new loop; every other session unchanged.
   */
  function AddLoop(sessions: Sessions, id: string, entry: AgentLoop, now: real): (r: Sessions)
    ensures id in r && r[id].sessionId == (if id in sessions then sessions[id].sessionId else id)
    ensures r[id].agentLoops == Slide(LoopsOf(sessions, id), entry) && r[id].lastUpdated == now
    ensures r.Keys == sessions.Keys + {id}
    ensures forall other :: other in sessions && other != id ==> r[other] == sessions[other]
  {
    var touched := Touch(sessions, id, now);
    touched[id := touched[id].(agentLoops := Slide(LoopsOf(sessions, id), entry))]
  }

  /** The last `n` elements of a sequence (all of it when it is shorter). */
  function Latest(s: seq<AgentLoop>, n: nat): seq<AgentLoop> {
    if |s| <= n then s else s[|s| - n..]
  }

  /** Dropping the first element of a sequence longer than `n` keeps its last `n`. */
  lemma LatestDropFirst(s: seq<AgentLoop>, n: nat)
    requires |s| > n
    ensures Latest(s[1..], n) == Latest(s, n)
  {
    assert s[1..][|s| - 1 - n..] == s[|s| - n..];
  }

  /**
   * The window is FIFO: starting from a window within the bound, after any
   * series of adds it holds the latest three of everything ever added, oldest
   * first.
   */
  lemma {:induction false} WindowHoldsLatest(loops: seq<AgentLoop>, entries: seq<AgentLoop>)
    requires |loops| <= MaxAgentLoops
    ensures SlideAll(loops, entries) == Latest(loops + entries, MaxAgentLoops)
    decreases |entries|
  {
    if entries != [] {
      var next := Slide(loops, entries[0]);
      var rest := entries[1..];
      WindowHoldsLatest(next, rest);
      assert entries == [entries[0]] + rest;
      LatestSlide(loops, entries[0], rest);
    }
  }

  /** One slide keeps the latest three of the window followed by any later entries. */
  lemma LatestSlide(loops: seq<AgentLoop>, entry: AgentLoop, rest: seq<AgentLoop>)
    requires |loops| <= MaxAgentLoops
    ensures Latest(Slide(loops, entry) + rest, MaxAgentLoops) == Latest(loops + ([entry] + rest), MaxAgentLoops)
  {
    var all := loops + ([entry] + rest);
    if |loops| < MaxAgentLoops {
      assert Slide(loops, entry) + rest == all;
    } else {
      assert Slide(loops, entry) + rest == all[1..];
      LatestDropFirst(all, MaxAgentLoops);
    }
  }

  /** After three or more adds the window is exactly the last three adds. */
  lemma WindowForgetsOlder(loops: seq<AgentLoop>, entries: seq<AgentLoop>)
    requires |loops| <= MaxAgentLoops && |entries| >= MaxAgentLoops
    ensures SlideAll(loops, entries) == entries[|entries| - MaxAgentLoops..]
  {
    WindowHoldsLatest(loops, entries);
    var all := loops + entries;
    assert all[|all| - MaxAgentLoops..] == entries[|entries| - MaxAgentLoops..];
  }

  const QuestionPrefix: string := "Previous question: "
  const AnalysisPrefix: string := "Previous analysis: "

  /** The two context messages of one stored loop. */
  function LoopMessages(loop: AgentLoop): seq<Message> {
    [Message(User, QuestionPrefix + loop.userMessage),
     Message(Assistant, AnalysisPrefix + loop.finalAnswer)]
  }

  /**
   * get_context_for_ai's rendering: two messages per stored loop, a user
   * `Previous question: ...` followed by an assistant `Previous analysis: ...`,
   * oldest loop first.
   */
  function ContextMessages(loops: seq<AgentLoop>): (r: seq<Message>)
    ensures |r| == 2 * |loops|
    ensures forall i :: 0 <= i < |loops| ==>
      r[2 * i] == Message(User, QuestionPrefix + loops[i].userMessage) &&
      r[2 * i + 1] == Message(Assistant, AnalysisPrefix + loops[i].finalAnswer)
  {
    if loops == [] then []
    else
      var prefix := loops[..|loops| - 1];
      var r := ContextMessages(prefix) + LoopMessages(loops[|loops| - 1]);
      assert forall i :: 0 <= i < |prefix| ==> loops[i] == prefix[i];
      r
  }

  lemma ContextMessagesSnoc(loops: seq<AgentLoop>, i: nat)
    requires i < |loops|
    ensures ContextMessages(loops[..i + 1]) == ContextMessages(loops[..i]) + LoopMessages(loops[i])
  {
    assert loops[..i + 1][..i] == loops[..i];
  }

  /** The process-wide session table. */
  class SessionManager {
    var sessions: Sessions
    const maxAgentLoops: nat

    /** Every context is filed under its own id and holds at most three loops. */
    ghost predicate Valid()
      reads this
    {
      && maxAgentLoops == MaxAgentLoops
      && forall id :: id in sessions ==>
           sessions[id].sessionId == id && |sessions[id].agentLoops| <= maxAgentLoops
    }

    constructor ()
      ensures Valid() && sessions == map[]
    {
      sessions := map[];
      maxAgentLoops := 3;
    }

    /** get_session: the existing context, or a new empty one; either way its timestamp is refreshed. */
    method GetSession(id: string, now: real) returns (session: SessionContext)
      requires Valid()
      modifies this
      ensures Valid()
      ensures sessions == Touch(old(sessions), id, now)
      ensures session == sessions[id]
      ensures session.sessionId == id && session.agentLoops == LoopsOf(old(sessions), id) && session.lastUpdated == now
    {
      if id !in sessions {
        sessions := sessions[id := SessionContext(id, [], now)];
      }
      session := sessions[id].(lastUpdated := now);
      sessions := sessions[id := session];
    }

    /**
     * add_agent_loop: refresh the session, append the loop and drop the oldest
     * when the window would exceed three. Every other session is unchanged.
     */
    method AddAgentLoop(id: string, userMessage: string, finalAnswer: string, now: real, stamp: real)
      requires Valid()
      modifies this
      ensures Valid()
      ensures sessions == AddLoop(old(sessions), id, AgentLoop(userMessage, finalAnswer, stamp), now)
      ensures var loops := sessions[id].agentLoops;
        |loops| <= MaxAgentLoops && loops[|loops| - 1] == AgentLoop(userMessage, finalAnswer, stamp)
    {
      var session := GetSession(id, now);
      var loopData := AgentLoop(userMessage, finalAnswer, stamp);
      var loops := session.agentLoops + [loopData];
      if |loops| > maxAgentLoops {
        loops := loops[1..];
      }
      sessions := sessions[id := session.(agentLoops := loops)];
    }

    /** get_context_for_ai: the stored loops rendered as context messages, oldest first. */
    method GetContextForAi(id: string, now: real) returns (context: seq<Message>)
      requires Valid()
      modifies this
      ensures Valid()
      ensures sessions == Touch(old(sessions), id, now)
      ensures context == ContextMessages(LoopsOf(old(sessions), id))
    {
      var session := GetSession(id, now);
      context := RenderContext(session.agentLoops);
    }
  }

  /** The loop of get_context_for_ai: two messages appended per stored loop. */
  method RenderContext(loops: seq<AgentLoop>) returns (context: seq<Message>)
    ensures context == ContextMessages(loops)
  {
    context := [];
    for i := 0 to |loops|
      invariant context == ContextMessages(loops[..i])
    {
      var loop := loops[i];
      ContextMessagesSnoc(loops, i);
      ghost var before := context;
      var question := Message(User, QuestionPrefix + loop.userMessage);
      var analysis := Message(Assistant, AnalysisPrefix + loop.finalAnswer);
      context := context + [question];
      context := context + [analysis];
      assert LoopMessages(loop) == [question, analysis];
      assert context == before + [question, analysis];
    }
    assert loops[..|loops|] == loops;
  }
}

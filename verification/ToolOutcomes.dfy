/** What a tool call leaves in the log, and what of it the model is told. */
module ToolOutcomes {
  import opened Prelude
  import opened Chats
  import opened CompletionStream
  import opened AgentRunner
  import opened AgentLog

  /** What is recorded of a call that failed with this text. */
  ghost predicate FailedWith(call: Call, id: Uuid, text: string, outcome: LogEntry, line: string) {
    outcome.event.body == ToolCall(Failed(id, call.name, text)) && outcome.event.observability == None
    && line == call.name + " failed: " + text
  }

  /** And of one that succeeded: the log has the preview, the model gets the value. */
  ghost predicate CompletedWith(e: Environment, call: Call, id: Uuid, output: ToolOutput, outcome: LogEntry,
      line: string) {
    outcome.event.body == ToolCall(Completed(id, call.name, e.preview(call.name, output.value)))
    && outcome.event.observability == output.observability
    && line == call.name + ": " + output.value
  }

  /** A call begun when the log had `at` entries: the tool runs on the call's own arguments, or
      null, once the start is logged. */
  ghost predicate Recorded(e: Environment, call: Call, at: nat, start: LogEntry, outcome: LogEntry, line: string) {
    exists id: Uuid :: RecordedUnder(e, call, at, id, start, outcome, line)
  }

  ghost predicate RecordedUnder(e: Environment, call: Call, at: nat, id: Uuid, start: LogEntry, outcome: LogEntry,
      line: string)
  {
    var arguments := match call.arguments case Some(given) => given case None => "null";
    start.event.body == ToolCall(Started(id, call.name, arguments)) && start.event.observability == None
    && if call.name in e.tools then
         match e.execute(at + 1, call.name, arguments)
         case Ok(output) => CompletedWith(e, call, id, output, outcome, line)
         case Err(InvalidInput(message)) => FailedWith(call, id, "invalid input: " + message, outcome, line)
         case Err(ExecutionFailed(message)) => FailedWith(call, id, message, outcome, line)
       else FailedWith(call, id, "unknown tool: " + call.name, outcome, line)
  }

  lemma CallRecorded(e: Environment, s: RunnerState, call: Call)
      returns (start: LogEntry, outcome: LogEntry, line: string)
    ensures CallTool(e, s, call).chat.events == s.chat.events + [start, outcome]
    ensures line == OutcomeAfter(e, s, call).line && line != ""
    ensures RecordedUnder(e, call, |s.chat.events|, s.nextId, start, outcome, line)
  {
    var mid, result := StartTool(e, s, call), OutcomeAfter(e, s, call);
    var started := Started(s.nextId, call.name, ArgumentsOf(call));
    start := Entry(s.chat, s.nextId + 1, ToolCall(started), None);
    outcome := Entry(mid.chat, mid.nextId, ToolCall(result.event), result.observability);
    line := result.line;
    AnnounceToolAdds(e, TakeId(s), started, None);
    AnnounceToolAdds(e, mid, result.event, result.observability);
    Assoc(s.chat.events, [start], [outcome]);
    assert [start] + [outcome] == [start, outcome];
    assert |mid.chat.events| == |s.chat.events| + 1;
  }

  /** The log of a dispatch that started with `from` entries: two for each call, in order. */
  ghost predicate AllRecorded(e: Environment, calls: seq<Call>, from: nat, events: seq<LogEntry>, lines: seq<string>) {
    |events| == from + 2 * |calls| && |lines| == |calls|
    && forall i | 0 <= i < |calls| ::
      Recorded(e, calls[i], from + 2 * i, events[from + 2 * i], events[from + 2 * i + 1], lines[i])
  }

  lemma MoreRecorded(e: Environment, call: Call, calls: seq<Call>, from: nat, events: seq<LogEntry>, line: string,
      lines: seq<string>)
    requires AllRecorded(e, calls, from + 2, events, lines)
    requires Recorded(e, call, from, events[from], events[from + 1], line)
    ensures AllRecorded(e, [call] + calls, from, events, [line] + lines)
  {
    var all, told := [call] + calls, [line] + lines;
    forall i | 0 <= i < |all|
      ensures Recorded(e, all[i], from + 2 * i, events[from + 2 * i], events[from + 2 * i + 1], told[i])
    {
      if i > 0 {
        assert Recorded(e, calls[i - 1], from + 2 + 2 * (i - 1), events[from + 2 + 2 * (i - 1)],
          events[from + 2 + 2 * (i - 1) + 1], lines[i - 1]);
      }
    }
  }

  lemma {:induction false} DispatchRecordsOn(e: Environment, s: RunnerState, calls: seq<Call>, rendered: string)
      returns (lines: seq<string>)
    ensures var d := CallTools(e, s, calls, rendered);
      s.chat.events <= d.state.chat.events && AllRecorded(e, calls, |s.chat.events|, d.state.chat.events, lines)
      && (calls != [] ==> d.rendered == Leading(rendered) + Join(lines, "\n"))
    decreases |calls|
  {
    if calls == [] {
      lines := [];
    } else {
      var start, outcome, line := CallRecorded(e, s, calls[0]);
      var next := CallTool(e, s, calls[0]);
      var rest := DispatchRecordsOn(e, next, calls[1..], AddLine(rendered, line));
      lines := [line] + rest;
      var d := FirstCalled(e, s, calls, rendered);
      FirstRecorded(e, calls[0], calls[1..], s.chat.events, start, outcome, d.state.chat.events, line, rest);
      assert [calls[0]] + calls[1..] == calls;
      JoinedOn(rendered, line, rest);
    }
  }

  lemma FirstCalled(e: Environment, s: RunnerState, calls: seq<Call>, rendered: string) returns (d: Dispatched)
    requires calls != []
    ensures d == CallTools(e, s, calls, rendered)
      == CallTools(e, CallTool(e, s, calls[0]), calls[1..], AddLine(rendered, OutcomeAfter(e, s, calls[0]).line))
  {
    d := CallTools(e, s, calls, rendered);
  }

  lemma FirstRecorded(e: Environment, call: Call, calls: seq<Call>, before: seq<LogEntry>, start: LogEntry,
      outcome: LogEntry, events: seq<LogEntry>, line: string, lines: seq<string>)
    requires before + [start, outcome] <= events && Recorded(e, call, |before|, start, outcome, line)
    requires AllRecorded(e, calls, |before| + 2, events, lines)
    ensures AllRecorded(e, [call] + calls, |before|, events, [line] + lines)
  {
    assert events[|before|] == (before + [start, outcome])[|before|] == start;
    assert events[|before| + 1] == (before + [start, outcome])[|before| + 1] == outcome;
    MoreRecorded(e, call, calls, |before|, events, line, lines);
  }

  /** What is fed back is one line for each call, and the log holds its start and its outcome. */
  lemma DispatchRecords(e: Environment, s: RunnerState, calls: seq<Call>) returns (lines: seq<string>)
    ensures var d := CallTools(e, s, calls, "");
      s.chat.events <= d.state.chat.events && AllRecorded(e, calls, |s.chat.events|, d.state.chat.events, lines)
      && d.rendered == Join(lines, "\n")
  {
    lines := DispatchRecordsOn(e, s, calls, "");
    assert "" + Join(lines, "\n") == Join(lines, "\n");
  }

  // --- Over whole runs

  /** Each start that a run logged is followed by what its tool then answered. */
  ghost predicate StartsRecorded(e: Environment, from: nat, events: seq<LogEntry>) {
    forall k | from <= k < |events| && StartsTool(events[k]) :: StartRecorded(e, events, k)
  }

  ghost predicate StartRecorded(e: Environment, events: seq<LogEntry>, k: nat) {
    k + 1 < |events| && RecordedSomehow(e, k, events[k], events[k + 1])
  }

  ghost predicate RecordedSomehow(e: Environment, at: nat, start: LogEntry, outcome: LogEntry) {
    exists call, line :: Recorded(e, call, at, start, outcome, line)
  }

  ghost predicate RecordsSince(e: Environment, start: Chat, s: RunnerState) {
    start.events <= s.chat.events && StartsRecorded(e, |start.events|, s.chat.events)
  }

  lemma StrideRecords(e: Environment, start: Chat, s: RunnerState, s': RunnerState)
    requires RecordsSince(e, start, s) && Stride(e, s, s')
    ensures RecordsSince(e, start, s')
  {
    if payload :| s' == Publish(s, payload) {
    } else if message, observability :| s' == Push(e, s, Message(message), observability) {
      PushAdds(e, s, Message(message), observability);
      MoreStarts(e, |start.events|, s.chat.events, s'.chat.events);
    } else if call :| s' == CallTool(e, s, call) {
      CallRecords(e, |start.events|, s, call);
    }
  }

  lemma CallRecords(e: Environment, from: nat, s: RunnerState, call: Call)
    requires StartsRecorded(e, from, s.chat.events)
    ensures s.chat.events <= CallTool(e, s, call).chat.events
      && StartsRecorded(e, from, CallTool(e, s, call).chat.events)
  {
    var start, outcome, line := CallRecorded(e, s, call);
    PairRecords(e, from, s.chat.events, call, start, outcome, line);
  }

  lemma PairRecords(e: Environment, from: nat, before: seq<LogEntry>, call: Call, start: LogEntry, outcome: LogEntry,
      line: string)
    requires StartsRecorded(e, from, before) && Recorded(e, call, |before|, start, outcome, line)
    ensures StartsRecorded(e, from, before + [start, outcome])
  {
    var after := before + [start, outcome];
    assert after[|before|] == start && after[|before| + 1] == outcome && !StartsTool(outcome);
    assert RecordedSomehow(e, |before|, start, outcome);
    MoreStarts(e, from, before, after);
  }

  lemma MoreStarts(e: Environment, from: nat, before: seq<LogEntry>, after: seq<LogEntry>)
    requires StartsRecorded(e, from, before) && before <= after
    requires forall k | |before| <= k < |after| && StartsTool(after[k]) :: StartRecorded(e, after, k)
    ensures StartsRecorded(e, from, after)
  {
    forall k | from <= k < |after| && StartsTool(after[k]) ensures StartRecorded(e, after, k) {
      if k < |before| {
        assert StartRecorded(e, before, k);
        assert after[k] == before[k] && after[k + 1] == before[k + 1];
      }
    }
  }

  lemma RunRecords(e: Environment, start: Chat, nextId: Uuid, isSubagent: bool,
                   inbox: seq<Command>, closed: bool, replies: seq<seq<StreamItem>>)
    ensures RecordsSince(e, start, Run(e, Initial(start, nextId, isSubagent), inbox, closed, replies).state)
  {
    var P := (s: RunnerState) => RecordsSince(e, start, s);
    forall s, s' | P(s) && Stride(e, s, s') ensures P(s') {
      StrideRecords(e, start, s, s');
    }
    RunKeeps(e, P, Initial(start, nextId, isSubagent), inbox, closed, replies);
  }
}

/** The inputs for which a promise fails, one for each condition the theorems need. */
module Witnesses {
  import opened Prelude
  import opened Chats
  import opened AgentRunner
  import opened AgentLog
  import opened TuiApp
  import opened LiveView
  import opened ConversationPane
  import CompletionStream
  import Cosine
  import Ranking
  import VectorStore
  import BruteForceStore
  import HnswStore
  import InstantDistanceStore
  import Lexing
  import LexerSteps
  import DartStripper

  // --- The live view against the restored one

  const NO_SUMMARY := Summary("", 0, 0, 0)
  const NO_STATS := Stats(None, None, None)

  /** An app that has just restored this chat. */
  function Showing(chat: Chat): View {
    View(Some(chat.id), None, NO_SUMMARY, NO_STATS, HistoryFromChat(chat), map[], map[], 0, false, None, 0)
  }

  function Sent(chatId: Uuid, payloads: seq<BusPayload>): seq<BusEvent> {
    if payloads == [] then [] else [BusEvent([chatId], payloads[0])] + Sent(chatId, payloads[1..])
  }

  lemma {:induction false} SentFor(chatId: Uuid, payloads: seq<BusPayload>)
    ensures PayloadsFor(Sent(chatId, payloads), chatId) == payloads
  {
    if payloads == [] {
    } else {
      SentFor(chatId, payloads[1..]);
      assert Sent(chatId, payloads)[1..] == Sent(chatId, payloads[1..]);
    }
  }

  const BRANCH: BranchId := "main"

  const STARTED := Started(9, "grep", NULL)

  /** The process died in the middle of a tool call. */
  const TORN := Chat(1, BRANCH, [Branch(BRANCH, Some(5))],
    [LogEntry(ChatEvent(5, None, BRANCH, ToolCall(STARTED), None), Active)])

  /** Whatever the user says next is published, and missing when the chat is restored again. */
  lemma FirstMessageHidden(e: Environment, isSubagent: bool, text: string)
    ensures MadeBefore(TORN, 6) && KeepsFinishRule(e, [])
    ensures var ran := Run(e, Initial(TORN, 6, isSubagent), [SendUserMessage(TextMessage(User, text))], false,
      []).state;
      Watched(TORN, ran, Showing(TORN), Sent(TORN.id, ran.bus))
      && LiveTalk(Showing(TORN), Sent(TORN.id, ran.bus), TORN.id) != RestoredView(ran.chat)
  {
    var inbox := [SendUserMessage(TextMessage(User, text))];
    var ran := Run(e, Initial(TORN, 6, isSubagent), inbox, false, []).state;
    SentFor(TORN.id, ran.bus);
    assert InUse(TORN, TORN.events[0]) && TORN.events[0].event.body.ToolCall?;
    assert AfterTool(TORN);
    LiveIsRestoredUnderFinishRule(e, TORN, 6, isSubagent, inbox, false, [], Showing(TORN), Sent(TORN.id, ran.bus));
  }

  const NEW_CHAT := Chat(1, BRANCH, [Branch(BRANCH, None)], [])

  /** A reply that neither stops nor calls a tool. */
  const IDLE_REPLY := [CompletionStream.Final(Response(TextMessage(Agent, "Well."), [], ToolCalls, None))]

  /** The empty message logged for it is missing from the live view. */
  lemma EmptyRoundShows(e: Environment, isSubagent: bool, text: string)
    requires e.hasProvider
    ensures MadeBefore(NEW_CHAT, 0)
    ensures var ran := Run(e, Initial(NEW_CHAT, 0, isSubagent), [SendUserMessage(TextMessage(User, text))], false,
      [IDLE_REPLY]).state;
      Watched(NEW_CHAT, ran, Showing(NEW_CHAT), Sent(NEW_CHAT.id, ran.bus))
      && LiveTalk(Showing(NEW_CHAT), Sent(NEW_CHAT.id, ran.bus), NEW_CHAT.id) != RestoredView(ran.chat)
  {
    var inbox, s0 := [SendUserMessage(TextMessage(User, text))], Initial(NEW_CHAT, 0, isSubagent);
    var ran := Run(e, s0, inbox, false, [IDLE_REPLY]).state;
    SentFor(NEW_CHAT.id, ran.bus);
    IdleRound(e, Opened(e, s0, inbox[0].message));
    LiveIsRestored(e, NEW_CHAT, 0, isSubagent, inbox, false, [IDLE_REPLY], Showing(NEW_CHAT),
      Sent(NEW_CHAT.id, ran.bus));
  }

  lemma IdleRound(e: Environment, s: RunnerState)
    requires e.hasProvider
    ensures EmptyRounds(e, s, [IDLE_REPLY]) >= 1
  {
    assert CompletionStream.Answer(IDLE_REPLY, None) == IDLE_REPLY[0].response by {
      assert IDLE_REPLY[1..] == [];
    }
    assert IsEmptyRound(Answered(e, s, NextReply([IDLE_REPLY])).response);
  }

  // --- Drawing

  const NOTHING_YET := View(None, None, NO_SUMMARY, NO_STATS, [], map[], map[], 0, false, None, 0)

  /** Chat 1 is writing, the pane is drawn, and chat 2 is given a system message: the pane keeps
      showing what chat 1 writes although chat 2 is now the active one. */
  lemma StaleAfterSystemMessage(derive: Derive)
    ensures var happenings := [BusEventSeen(BusEvent([1], TextDelta("Hello"))), Redraw(0, 80),
                               BusEventSeen(BusEvent([2], MessagePosted(TextMessage(System, ""))))];
      var s := Course(Opening(NOTHING_YET), happenings, derive);
      Drawn(s.cache, s.view, 0, 80).blocks != Fresh(s.view, 0, 80)
  {
    var writes, draws := BusEventSeen(BusEvent([1], TextDelta("Hello"))), Redraw(0, 80);
    var told := BusEventSeen(BusEvent([2], MessagePosted(TextMessage(System, ""))));
    var s := ThreeHappen(Opening(NOTHING_YET), writes, draws, told, derive);
    assert InFlight(s.view, s.view.inFlightText) == None;
    assert s.madeFor.activeChatId == Some(1);
    assert "" + "Hello" == "Hello";
    assert InFlight(s.view.(activeChatId := Some(1)), s.view.inFlightText) == Some("Hello");
    DrawIsFreshExactly(NOTHING_YET, [writes, draws, told], derive, 0, 80);
  }

  function TwoHappen(s: Session, a: Happening, b: Happening, derive: Derive): (s': Session)
    ensures s' == Happens(Happens(s, a, derive), b, derive)
  {
    assert [a, b][1..] == [b] && [b][1..] == [];
    assert Course(s, [a, b], derive) == Course(Happens(s, a, derive), [b], derive);
    assert Course(Happens(s, a, derive), [b], derive) == Course(Happens(Happens(s, a, derive), b, derive), [], derive);
    Course(s, [a, b], derive)
  }

  lemma ThreeHappen(s: Session, a: Happening, b: Happening, c: Happening, derive: Derive) returns (s': Session)
    ensures s' == Course(s, [a, b, c], derive) == Happens(Happens(Happens(s, a, derive), b, derive), c, derive)
  {
    assert [a, b, c][1..] == [b, c];
    s' := Course(s, [a, b, c], derive);
    assert s' == TwoHappen(Happens(s, a, derive), b, c, derive);
  }

  /** A tool has started and no turn runs: 200 milliseconds after a draw its dot should have
      changed, and has not. */
  lemma StaleWhileToolOpen(derive: Derive)
    ensures var happenings := [BusEventSeen(BusEvent([1], ToolCalled(STARTED))), Redraw(0, 80)];
      var s := Course(Opening(NOTHING_YET), happenings, derive);
      Drawn(s.cache, s.view, 200, 80).blocks != Fresh(s.view, 1, 80)
  {
    var starts, draws := BusEventSeen(BusEvent([1], ToolCalled(STARTED))), Redraw(0, 80);
    var s := TwoHappen(Opening(NOTHING_YET), starts, draws, derive);
    var v := Handled(NOTHING_YET, starts.event);
    StartIsOpen(v);
    DrawnAt(s, v);
    assert PulseAt(0) == Dim && PulseAt(1) == Middle;
    DrawIsFreshExactly(NOTHING_YET, [starts, draws], derive, 200, 80);
  }

  lemma StartIsOpen(v: View)
    requires v.history == [HistoryEntry(1, Bus(ToolCalled(STARTED)))]
    ensures ToolOpen(v.history)
  {
    assert v.history[..0] == [];
    assert OpenAt(v.history, 0);
  }

  lemma DrawnAt(s: Session, v: View)
    requires !v.turnInProgress && s == Session(v, Some(Drawn(None, v, 0, 80)), v, 0)
    ensures Hits(s.cache, v, 200, 80)
  {
  }

  const COMPLETED := Completed(9, "grep", "two lines")

  /** The app came in after the tool had started: its outcome is not drawn. */
  lemma OrphanNotDrawn(phase: nat, width: nat)
    ensures var v := Handled(NOTHING_YET, BusEvent([1], ToolCalled(COMPLETED)));
      v.history == [HistoryEntry(1, Bus(ToolCalled(COMPLETED)))] && TimesDrawn(Fresh(v, phase, width), COMPLETED) == 0
  {
    var v := Handled(NOTHING_YET, BusEvent([1], ToolCalled(COMPLETED)));
    OutcomeDrawnPerStart(v, phase, width, COMPLETED);
    assert v.history[..0] == [];
    assert Starts(v.history, 9) == 0;
  }

  // --- Stripping

  /** An accented letter in code, two bytes of UTF-8, is spelled as two characters. */
  const ACCENTED: seq<Lexing.Byte> := [195, 169]

  lemma AccentGrows()
    ensures var out := Lexing.Strip(DartStripper.DART, DartStripper.Code, ACCENTED);
      Lexing.Strip(DartStripper.DART, DartStripper.Code, Lexing.Utf8(out)) != out
  {
    DartStripper.SecondPass(ACCENTED);
    AccentCopied();
    assert Lexing.Trace(DartStripper.DART, DartStripper.Code, ACCENTED)[0] == Lexing.Mark(DartStripper.Code, 0, false);
  }

  lemma AccentCopied()
    ensures DartStripper.DART(DartStripper.Code, ACCENTED) == Lexing.Token(1, false, DartStripper.Code)
  {
    Lexing.FirstByteDiffers(ACCENTED, [DartStripper.LETTER_R, Lexing.SINGLE_QUOTE]);
    Lexing.FirstByteDiffers(ACCENTED, [DartStripper.LETTER_R, Lexing.DOUBLE_QUOTE]);
    Lexing.FirstByteDiffers(ACCENTED, [LexerSteps.SLASH, LexerSteps.SLASH]);
    Lexing.FirstByteDiffers(ACCENTED, [LexerSteps.SLASH, LexerSteps.STAR]);
    assert DartStripper.CodeToken(ACCENTED) == Lexing.Token(1, false, DartStripper.Code);
  }

  // --- Searching

  const NOTE := Ranking.Record("a", "notes.md", "")
  const ONE: Cosine.Vector := [1.0]
  const NO_TABLES := HnswStore.Tables(map[], map[], 0, [])

  function UpsertedTables(t: HnswStore.Tables): HnswStore.Tables {
    HnswStore.Place(HnswStore.Forget(t, NOTE.id), NOTE, ONE)
  }

  /** The same chunk put in twice leaves a dead point at its old place, and a search for one
      answer that comes upon it, exact as it is, gives none. */
  lemma DeadPointHides(root: Cosine.Root)
    requires Cosine.IsRoot(root)
    ensures var t := UpsertedTables(UpsertedTables(NO_TABLES));
      var distance := (p: nat) => Cosine.Distance(root, ONE, ONE);
      var found := [HnswStore.Neighbour(0, distance(0))];
      HnswStore.Comparable(root, t, found, 1, distance, ONE, [VectorStore.Entry(NOTE, ONE)])
      && HnswStore.Nearest(t, found, 1) == []
      && |BruteForceStore.Nearest(root, [VectorStore.Entry(NOTE, ONE)], ONE, 1)| == 1
  {
    var t := UpsertedTables(UpsertedTables(NO_TABLES));
    var distance := (p: nat) => Cosine.Distance(root, ONE, ONE);
    var found := [HnswStore.Neighbour(0, distance(0))];
    var entries := [VectorStore.Entry(NOTE, ONE)];
    assert t.entries == map["a" := HnswStore.Placed(NOTE, 1)] && t.idToChunk == map[1 := "a"] && t.graph == [ONE, ONE];
    assert entries[..0] == [];
    assert VectorStore.ContentsOf(entries) == HnswStore.Listed(t);
    assert ONE[0] == 1.0;
    Cosine.NormZero(root, ONE);
    Ranking.RankPermutes(VectorStore.Scored(root, entries, ONE));
    HnswStore.PointsAre(found);
    assert found[1..] == [];
    assert HnswStore.LiveHits(t, found) == [];
  }

  /** A zero query has no answer in the reference store, and one in the batch store. */
  lemma ZeroQueryAnswered(root: Cosine.Root)
    requires Cosine.IsRoot(root)
    ensures var points := [InstantDistanceStore.Point(ONE, "a")];
      var contents := map["a" := VectorStore.Entry(NOTE, ONE)];
      var found := [InstantDistanceStore.Found(0, 1.0)];
      InstantDistanceStore.Comparable(root, points, contents, [0.0], 1, found, [VectorStore.Entry(NOTE, ONE)])
      && |Ranking.Truncate(InstantDistanceStore.HitsOf(points, contents, found), 1)| == 1
      && BruteForceStore.Nearest(root, [VectorStore.Entry(NOTE, ONE)], [0.0], 1) == []
  {
    var entries := [VectorStore.Entry(NOTE, ONE)];
    Cosine.NormZero(root, [0.0]);
    assert entries[..0] == [];
    assert [InstantDistanceStore.Point(ONE, "a")][0].id == "a";
    assert VectorStore.ContentsOf(entries) == map["a" := VectorStore.Entry(NOTE, ONE)];
  }
}

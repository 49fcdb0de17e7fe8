/** The front end's puzzle session (the `Game` component): the message log,
    the in-flight flag that gates new sends, the usage ledger, the turn
    counter, the reveal flag and the thread id minted once per mount.

    The HTTP exchange is split in two steps: `StartSend` runs the
    synchronous part of a send and returns the `/chat` request to issue;
    `CompleteOk` (a JSON body arrived) or `CompleteErr` (the fetch or the
    body parsing threw) runs when that request settles. */
module Session {
  import opened Basics
  import opened Text
  import opened Puzzles

  datatype Role = Ai | User | System

  /** `content` is `None` for an ai turn built from a body without `reply`
      (JavaScript `undefined`). */
  datatype ChatMessage = ChatMessage(role: Role, content: Option<string>)

  datatype Stats = Stats(lastTokens: int, lastCost: real, totalCost: real)

  /** The `cost_data` object of a `/chat` body. */
  datatype CostData = CostData(tokens: int, cost: real)

  /** The fields of a parsed `/chat` body that the session reads; a field
      that is absent or `null` is `None`. */
  datatype ChatReply = ChatReply(reply: Option<string>, turnCount: Option<int>, costData: Option<CostData>)

  /** Body of the `/init` request; `model` is dropped by `JSON.stringify`
      when it is `undefined`. */
  datatype InitRequest = InitRequest(threadId: string, story: string, truth: string, model: Option<string>)

  datatype ChatRequest = ChatRequest(threadId: string, message: string)

  const ZeroStats := Stats(0, 0.0, 0.0)

  /** The fixed text of the diagnostic turn appended when a send throws. */
  const SendFailedNotice := "❌ 发送失败，请检查后端。"

  /** How a template literal shows the `model` prop: `undefined` when absent. */
  function ModelLabel(model: Option<string>): string {
    match model
    case Some(m) => m
    case None => "undefined"
  }

  /** The greeting that opens every log; it names the model in use. */
  function Greeting(model: Option<string>): string {
    "你好！我是本局的海龟汤主持人。\n\n**当前接入**: `" + ModelLabel(model)
    + "`\n\n请阅读左侧的汤面，然后向我提问。卡关时可以向我索要提示。猜出真相了请以\"真相：\"开头描述你的复盘。"
  }

  /** A `turn_count` replaces the counter only when it is truthy: a missing
      field and the number 0 both leave the counter as it was. */
  function NextTurnCount(current: int, reported: Option<int>): (r: int)
    ensures reported.Some? && reported.value != 0 ==> r == reported.value
    ensures (reported == None || reported == Some(0)) ==> r == current
  {
    match reported
    case Some(n) => if n != 0 then n else current
    case None => current
  }

  /** One recorded `cost_data`: the last-turn fields are replaced and the
      total grows by the reported cost. */
  function RecordCost(s: Stats, c: CostData): Stats {
    Stats(c.tokens, c.cost, s.totalCost + c.cost)
  }

  /** The ledger after recording `recorded`, in order, since the last reset. */
  function Ledger(recorded: seq<CostData>): Stats {
    if recorded == [] then ZeroStats
    else RecordCost(Ledger(recorded[..|recorded| - 1]), recorded[|recorded| - 1])
  }

  function CostsOf(recorded: seq<CostData>): (costs: seq<real>)
    ensures |costs| == |recorded|
    ensures forall i :: 0 <= i < |recorded| ==> costs[i] == recorded[i].cost
  {
    seq(|recorded|, i requires 0 <= i < |recorded| => recorded[i].cost)
  }

  /** The total of the ledger is the sum of every cost recorded since the
      last reset, and the last-turn fields are those of the latest record
      (zero when nothing was recorded). */
  lemma {:induction false} LedgerIsSumOfCosts(recorded: seq<CostData>)
    ensures Ledger(recorded).totalCost == Sum(CostsOf(recorded))
    ensures recorded == [] ==> Ledger(recorded) == ZeroStats
    ensures recorded != [] ==>
      Ledger(recorded).lastTokens == recorded[|recorded| - 1].tokens
      && Ledger(recorded).lastCost == recorded[|recorded| - 1].cost
  {
    if recorded != [] {
      var init := recorded[..|recorded| - 1];
      var last := recorded[|recorded| - 1];
      LedgerIsSumOfCosts(init);
      assert CostsOf(recorded) == CostsOf(init) + [last.cost];
      SumSnoc(CostsOf(init), last.cost);
    }
  }

  /** With non-negative costs the total never decreases from one record to
      the next. */
  lemma {:induction false} LedgerTotalMonotone(recorded: seq<CostData>, k: nat)
    requires k <= |recorded|
    requires forall i :: 0 <= i < |recorded| ==> recorded[i].cost >= 0.0
    ensures Ledger(recorded[..k]).totalCost <= Ledger(recorded).totalCost
  {
    if k < |recorded| {
      var init := recorded[..|recorded| - 1];
      assert init[..k] == recorded[..k];
      LedgerTotalMonotone(init, k);
    } else {
      assert recorded[..k] == recorded;
    }
  }

  class Game {
    /** `threadIdRef.current`: drawn once when the component mounts and
        never reassigned, whatever props change later. */
    const threadId: string
    var puzzle: Puzzle
    var model: Option<string>
    var messages: seq<ChatMessage>
    var input: string
    var isLoading: bool
    var showAnswer: bool
    var turnCount: int
    var stats: Stats
    /** The cost records applied since the last reset. */
    ghost var recorded: seq<CostData>

    ghost predicate Valid()
      reads this
    {
      stats == Ledger(recorded)
    }

    /** Mounting: the initial values of every piece of state. The random
        thread id is a parameter. The mount-time run of the
        initialisation effect is `Begin`. */
    constructor (threadId: string, puzzle: Puzzle, model: Option<string>)
      ensures Valid()
      ensures this.threadId == threadId && this.puzzle == puzzle && this.model == model
      ensures messages == [] && input == "" && !isLoading && !showAnswer
      ensures turnCount == 0 && stats == ZeroStats && recorded == []
    {
      this.threadId := threadId;
      this.puzzle := puzzle;
      this.model := model;
      messages := [];
      input := "";
      isLoading := false;
      showAnswer := false;
      turnCount := 0;
      stats := ZeroStats;
      recorded := [];
    }

    /** The initialisation effect, run at mount and whenever `puzzle` or
        `model` changes: the log becomes one greeting, the ledger and the
        counter are zeroed, and the `/init` body is returned for a
        fire-and-forget POST. The thread id is NOT re-minted, and the
        in-flight flag, the reveal flag and the input are left alone. */
    method Begin(puzzle: Puzzle, model: Option<string>) returns (req: InitRequest)
      requires Valid()
      modifies this
      ensures Valid()
      ensures this.puzzle == puzzle && this.model == model
      ensures messages == [ChatMessage(Ai, Some(Greeting(model)))]
      ensures stats == ZeroStats && recorded == [] && turnCount == 0
      ensures input == old(input) && isLoading == old(isLoading) && showAnswer == old(showAnswer)
      ensures req == InitRequest(threadId, puzzle.question, puzzle.answer, model)
    {
      this.puzzle := puzzle;
      this.model := model;
      messages := [ChatMessage(Ai, Some(Greeting(model)))];
      stats := ZeroStats;
      recorded := [];
      turnCount := 0;
      req := InitRequest(threadId, puzzle.question, puzzle.answer, model);
    }

    /** The input box's `onChange`. */
    method SetInput(text: string)
      modifies this
      ensures input == text
      ensures messages == old(messages) && isLoading == old(isLoading) && showAnswer == old(showAnswer)
      ensures turnCount == old(turnCount) && stats == old(stats) && recorded == old(recorded)
      ensures puzzle == old(puzzle) && model == old(model)
    {
      input := text;
    }

    /** The synchronous part of `handleSend`. A blank trimmed input, or a
        send already in flight, returns without changing anything.
        Otherwise exactly one user turn carrying the trimmed input is
        appended, the input is cleared, the flag is raised, and the
        `/chat` body (always under this mount's thread id) is returned. */
    method StartSend() returns (req: Option<ChatRequest>)
      requires Valid()
      modifies this
      ensures Valid()
      ensures var text := Trim(old(input), JsSpace);
        if text == [] || old(isLoading) then
          req == None && unchanged(this)
        else
          && req == Some(ChatRequest(threadId, text))
          && messages == old(messages) + [ChatMessage(User, Some(text))]
          && input == "" && isLoading
          && showAnswer == old(showAnswer) && turnCount == old(turnCount)
          && stats == old(stats) && recorded == old(recorded)
          && puzzle == old(puzzle) && model == old(model)
    {
      var text := Trim(input, JsSpace);
      if text == [] || isLoading {
        return None;
      }
      messages := messages + [ChatMessage(User, Some(text))];
      input := "";
      isLoading := true;
      req := Some(ChatRequest(threadId, text));
    }

    /** A JSON body arrived (whatever the HTTP status): exactly one ai turn
        carrying `reply` is appended, the counter follows a truthy
        `turn_count`, the ledger records a present `cost_data`, and the
        flag is cleared. Nothing checks that the body belongs to the
        current attempt. */
    method CompleteOk(data: ChatReply)
      requires Valid() && isLoading
      modifies this
      ensures Valid()
      ensures messages == old(messages) + [ChatMessage(Ai, data.reply)]
      ensures turnCount == NextTurnCount(old(turnCount), data.turnCount)
      ensures match data.costData
        case Some(c) =>
          && stats == Stats(c.tokens, c.cost, old(stats.totalCost) + c.cost)
          && recorded == old(recorded) + [c]
        case None => stats == old(stats) && recorded == old(recorded)
      ensures !isLoading
      ensures input == old(input) && showAnswer == old(showAnswer)
      ensures puzzle == old(puzzle) && model == old(model)
    {
      messages := messages + [ChatMessage(Ai, data.reply)];
      turnCount := NextTurnCount(turnCount, data.turnCount);
      match data.costData {
        case Some(c) =>
          stats := Stats(c.tokens, c.cost, stats.totalCost + c.cost);
          recorded := recorded + [c];
          assert recorded[..|recorded| - 1] == old(recorded);
        case None =>
      }
      isLoading := false;
    }

    /** The fetch or `res.json()` threw: exactly one diagnostic turn with
        the fixed notice is appended; the ledger and the counter are
        untouched; the flag is cleared. */
    method CompleteErr()
      requires Valid() && isLoading
      modifies this
      ensures Valid()
      ensures messages == old(messages) + [ChatMessage(System, Some(SendFailedNotice))]
      ensures stats == old(stats) && recorded == old(recorded) && turnCount == old(turnCount)
      ensures !isLoading
      ensures input == old(input) && showAnswer == old(showAnswer)
      ensures puzzle == old(puzzle) && model == old(model)
    {
      messages := messages + [ChatMessage(System, Some(SendFailedNotice))];
      isLoading := false;
    }

    /** The reveal button: flips `showAnswer` and nothing else. */
    method ToggleReveal()
      modifies this
      ensures showAnswer == !old(showAnswer)
      ensures messages == old(messages) && input == old(input) && isLoading == old(isLoading)
      ensures turnCount == old(turnCount) && stats == old(stats) && recorded == old(recorded)
      ensures puzzle == old(puzzle) && model == old(model)
    {
      showAnswer := !showAnswer;
    }
  }

  /** One successful exchange followed by a failed one, on a fresh mount. */
  method DoorScenario(threadId: string)
  {
    var door := Puzzle(Some("Door"), "A man knocks at midnight.", "He forgot his key.");
    var g := new Game(threadId, door, None);
    var init := g.Begin(door, None);
    assert init.threadId == threadId && |g.messages| == 1;

    g.SetInput("Why did he knock?");
    TrimUnpadded("Why did he knock?", JsSpace);
    var req := g.StartSend();
    assert req.Some? && req.value.threadId == threadId;
    g.CompleteOk(ChatReply(Some("Good question."), Some(1), Some(CostData(42, 0.001))));
    assert |g.messages| == 3 && g.messages[2] == ChatMessage(Ai, Some("Good question."));
    assert g.stats == Stats(42, 0.001, 0.001) && g.turnCount == 1;

    var blocked := g.StartSend();
    assert blocked == None;
  }

  /** A send whose request throws adds one diagnostic turn and leaves the
      ledger and the counter as the earlier exchange set them. */
  method FailedSendScenario(g: Game)
    requires g.Valid() && !g.isLoading
    requires g.stats == Stats(42, 0.001, 0.001) && g.turnCount == 1 && |g.messages| == 3
    modifies g
  {
    g.SetInput("Was it raining?");
    TrimUnpadded("Was it raining?", JsSpace);
    var req := g.StartSend();
    g.CompleteErr();
    assert |g.messages| == 5 && g.messages[4].role == System;
    assert g.stats.totalCost == 0.001 && g.turnCount == 1;
  }

  /** Without a stale-response guard, a reply to a request issued before a
      restart lands in the restarted log, right after the new greeting. */
  method StaleReplyAfterRestart(threadId: string, first: Puzzle, second: Puzzle, reply: string)
    returns (log: seq<ChatMessage>)
    ensures log == [ChatMessage(Ai, Some(Greeting(None))), ChatMessage(Ai, Some(reply))]
  {
    var g := new Game(threadId, first, None);
    var _ := g.Begin(first, None);
    g.SetInput("Q");
    TrimUnpadded("Q", JsSpace);
    var req := g.StartSend();
    var restart := g.Begin(second, None);
    assert restart.threadId == threadId;
    g.CompleteOk(ChatReply(Some(reply), None, None));
    log := g.messages;
  }
}

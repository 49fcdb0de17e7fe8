/** The back end's game-state graph: the per-thread `GameState`, the host
    node (one narrator reply per user question), the summariser node and
    the router between them, and the `/init` and `/chat` handlers that
    store and advance a thread's state.

    The language model is opaque: the host's reply text and token counts
    and the summariser's new summary are parameters. */
module Graph {
  import opened Basics

  /** A stored message: the user's question (`HumanMessage`) or the
      narrator's reply. */
  datatype Msg = Human(content: string) | Host(content: string)

  datatype GameState = GameState(
    story: string,
    truth: string,
    history: seq<Msg>,
    summary: string,
    turnCount: int,
    model: string,
    lastCost: real,
    lastTokens: int)

  /** Token counts the language-model callback reports for one reply: the
      prompt and completion counts that are priced, and the total it reports
      on its own. */
  datatype Usage = Usage(promptTokens: nat, completionTokens: nat, totalTokens: nat)

  /** The dict a node returns. An absent key leaves that field of the state
      as it was; a present one replaces it. */
  datatype Update = Update(
    history: Option<seq<Msg>>,
    summary: Option<string>,
    turnCount: Option<int>,
    lastCost: Option<real>,
    lastTokens: Option<int>)

  const NoChange := Update(None, None, None, None, None)

  function Apply(s: GameState, u: Update): GameState {
    s.(history := u.history.GetOr(s.history),
       summary := u.summary.GetOr(s.summary),
       turnCount := u.turnCount.GetOr(s.turnCount),
       lastCost := u.lastCost.GetOr(s.lastCost),
       lastTokens := u.lastTokens.GetOr(s.lastTokens))
  }

  // ---------------------------------------------------------------- pricing

  /** Price in dollars per million tokens. */
  datatype Price = Price(input: real, output: real)

  const ModelPricing: map<string, Price> := map[
    "gemini-2.5-flash" := Price(0.3, 2.52),
    "gemini-2.5-pro" := Price(1.25, 10.0),
    "gemini-3-pro-preview" := Price(2.0, 12.0),
    "gpt-4o" := Price(5.0, 20.0),
    "gpt-5.1" := Price(2.5, 20.0),
    "deepseek-ai/DeepSeek-V3.2-Exp" := Price(0.2, 0.3),
    "deepseek-ai/DeepSeek-V3.2-Exp-thinking" := Price(0.2, 0.3)
  ]

  /** The model `/init` stores when the requested one has no price. */
  const FallbackModel := "gpt-3.5-turbo"

  /** The default of the `model` field of the init request as first declared. */
  const DefaultRequestModel := "gemini-2.5-flash"

  predicate PricesNonNegative() {
    forall m :: m in ModelPricing ==> ModelPricing[m].input >= 0.0 && ModelPricing[m].output >= 0.0
  }

  lemma PricingIsNonNegative()
    ensures PricesNonNegative()
  {
  }

  /** Dollar cost of one reply: tokens times the model's price per million,
      input and output priced separately; a model without a price costs
      nothing. */
  function TurnCost(model: string, usage: Usage): (cost: real)
    ensures cost >= 0.0
    ensures model !in ModelPricing ==> cost == 0.0
    ensures usage.promptTokens == 0 && usage.completionTokens == 0 ==> cost == 0.0
    ensures model in ModelPricing ==>
      cost == (usage.promptTokens as real / 1000000.0) * ModelPricing[model].input
              + (usage.completionTokens as real / 1000000.0) * ModelPricing[model].output
  {
    PricingIsNonNegative();
    var price := if model in ModelPricing then ModelPricing[model] else Price(0.0, 0.0);
    var inCost := (usage.promptTokens as real / 1000000.0) * price.input;
    var outCost := (usage.completionTokens as real / 1000000.0) * price.output;
    assert inCost >= 0.0 && outCost >= 0.0;
    inCost + outCost
  }

  /** More tokens never cost less. */
  lemma TurnCostMonotone(model: string, u: Usage, v: Usage)
    requires u.promptTokens <= v.promptTokens && u.completionTokens <= v.completionTokens
    ensures TurnCost(model, u) <= TurnCost(model, v)
  {
    if model in ModelPricing {
      var price := ModelPricing[model];
      PricingIsNonNegative();
      var dIn := (v.promptTokens - u.promptTokens) as real / 1000000.0;
      var dOut := (v.completionTokens - u.completionTokens) as real / 1000000.0;
      assert dIn * price.input >= 0.0 && dOut * price.output >= 0.0;
    }
  }

  // ------------------------------------------------------- host's context

  /** How many earlier messages the host is shown at most. */
  const HistoryWindow := 20

  /** The context text used when there is no earlier message. */
  const NoRecentHistory := "（暂无近期对话）"

  function Speaker(m: Msg): string {
    if m.Human? then "用户" else "主持人"
  }

  function Line(m: Msg): string {
    Speaker(m) + ": " + m.content + "\n"
  }

  /** The messages as "speaker: content" lines, in order. */
  function Transcript(ms: seq<Msg>): (t: string)
    ensures ms != [] ==> |t| > 0 && t[|t| - 1] == '\n'
  {
    if ms == [] then "" else Transcript(ms[..|ms| - 1]) + Line(ms[|ms| - 1])
  }

  /** The earlier messages the host is shown: the last 20, or all of them
      when there are fewer. */
  function Window(previous: seq<Msg>): (w: seq<Msg>)
    ensures |w| == Min(|previous|, HistoryWindow)
    ensures w == previous[|previous| - |w|..]
  {
    if |previous| > HistoryWindow then previous[|previous| - HistoryWindow..] else previous
  }

  /** The context text of the host prompt for the earlier messages `previous`. */
  function RecentHistory(previous: seq<Msg>): string {
    var w := Window(previous);
    if w == [] then NoRecentHistory else Transcript(w)
  }

  /** The placeholder text is used exactly when there is no earlier message:
      a non-empty transcript ends with a newline, the placeholder does not. */
  lemma RecentHistoryPlaceholderIff(previous: seq<Msg>)
    ensures RecentHistory(previous) == NoRecentHistory <==> previous == []
  {
    if previous != [] {
      var t := Transcript(Window(previous));
      assert t[|t| - 1] == '\n';
      assert NoRecentHistory[|NoRecentHistory| - 1] != '\n';
    }
  }

  lemma TranscriptSnoc(ms: seq<Msg>, i: nat)
    requires i < |ms|
    ensures Transcript(ms[..i + 1]) == Transcript(ms[..i]) + Line(ms[i])
  {
    assert ms[..i + 1][..i] == ms[..i];
  }

  /** The string-accumulating loop of the host node. */
  method RecentHistoryText(previous: seq<Msg>) returns (text: string)
    ensures text == RecentHistory(previous)
  {
    var display := if |previous| > HistoryWindow then previous[|previous| - HistoryWindow..] else previous;
    if |display| == 0 {
      text := NoRecentHistory;
    } else {
      text := "";
      var i := 0;
      while i < |display|
        invariant 0 <= i <= |display|
        invariant text == Transcript(display[..i])
      {
        TranscriptSnoc(display, i);
        text := text + Line(display[i]);
        i := i + 1;
      }
      assert display[..i] == display;
    }
  }

  /** What the host prompt is filled with. */
  datatype HostPrompt = HostPrompt(story: string, truth: string, summary: string, recentHistory: string, question: string)

  /** The host prompt for a state: the latest message is the question and
      the messages before it are the context; no prompt on an empty history. */
  function HostPromptOf(s: GameState): (p: Option<HostPrompt>)
    ensures p.None? <==> s.history == []
    ensures p.Some? ==>
      && p.value.question == s.history[|s.history| - 1].content
      && (p.value.recentHistory == NoRecentHistory <==> |s.history| == 1)
  {
    if s.history == [] then None
    else
      var previous := s.history[..|s.history| - 1];
      RecentHistoryPlaceholderIff(previous);
      Some(HostPrompt(s.story, s.truth, s.summary, RecentHistory(previous), s.history[|s.history| - 1].content))
  }

  // ------------------------------------------------------------ the nodes

  /** The host node, given the model's reply to `HostPromptOf(s)` and the
      tokens it used. On an empty history it changes nothing; on a
      non-empty one it appends exactly one narrator reply, counts one more
      turn and records that reply's tokens and cost, keeping everything
      else. */
  function HostNode(s: GameState, reply: string, usage: Usage): (u: Update)
    ensures s.history == [] ==> Apply(s, u) == s
    ensures s.history != [] ==>
      Apply(s, u) == s.(history := s.history + [Host(reply)], turnCount := s.turnCount + 1,
                        lastCost := TurnCost(s.model, usage), lastTokens := usage.totalTokens)
    ensures s.history != [] ==> u.history.Some? && u.history.value != []
  {
    if s.history == [] then NoChange
    else Update(
      Some(s.history + [Host(reply)]),
      None,
      Some(s.turnCount + 1),
      Some(TurnCost(s.model, usage)),
      Some(usage.totalTokens))
  }

  /** The summariser node, given the model's new summary: it empties the
      history and replaces the summary, keeping everything else. */
  function SummarizeNode(s: GameState, newSummary: string): (u: Update)
    ensures Apply(s, u) == s.(history := [], summary := newSummary)
  {
    Update(Some([]), Some(newSummary), None, None, None)
  }

  /** The summariser node as written: its chain refers to a global `llm`
      that the module never defines, so every call raises. */
  function SummarizeNodeAsWritten(s: GameState): (r: Result<Update, string>)
    ensures r.Failure?
  {
    Failure("NameError: name 'llm' is not defined")
  }

  datatype Route = ToSummarizer | ToEnd

  /** The router after the host: the summariser exactly on a positive
      multiple of ten turns. */
  function ShouldSummarize(s: GameState): (r: Route)
    ensures r == ToSummarizer <==> s.turnCount > 0 && s.turnCount % 10 == 0
  {
    if s.turnCount > 0 && s.turnCount % 10 == 0 then ToSummarizer else ToEnd
  }

  // ------------------------------------------------------- one graph run

  /** One item of the graph's update stream: the node's name and its update. */
  datatype Event = HostEvent(update: Update) | SummarizerEvent(update: Update)

  datatype Run = Run(events: seq<Event>, final: GameState)

  /** The state the checkpointer holds once a stream's updates have been
      applied in order. */
  function ApplyAll(s: GameState, events: seq<Event>): GameState
    decreases events
  {
    if events == [] then s else ApplyAll(Apply(s, events[0].update), events[1..])
  }

  /** The graph from the host node: host, then the summariser when the
      router says so. The stream starts with the host's update, holds the
      summariser's only when the router picks it, and the final state is
      what applying the stream gives. */
  function RunGraph(s: GameState, reply: string, usage: Usage, newSummary: string): (run: Run)
    ensures 1 <= |run.events| <= 2 && run.events[0] == HostEvent(HostNode(s, reply, usage))
    ensures |run.events| == 2 <==> ShouldSummarize(Apply(s, HostNode(s, reply, usage))) == ToSummarizer
    ensures |run.events| == 2 ==> run.events[1].SummarizerEvent?
    ensures run.final == ApplyAll(s, run.events)
  {
    var hostUpdate := HostNode(s, reply, usage);
    var afterHost := Apply(s, hostUpdate);
    if ShouldSummarize(afterHost) == ToSummarizer then
      var sumUpdate := SummarizeNode(afterHost, newSummary);
      var events := [HostEvent(hostUpdate), SummarizerEvent(sumUpdate)];
      assert events[1..][1..] == [];
      assert ApplyAll(afterHost, events[1..]) == Apply(afterHost, sumUpdate);
      Run(events, Apply(afterHost, sumUpdate))
    else
      var events := [HostEvent(hostUpdate)];
      assert events[1..] == [];
      Run(events, afterHost)
  }

  /** The graph as written: when the router picks the summariser, that node
      raises; the host's step has already been checkpointed. So the run
      fails exactly on a positive multiple of ten turns, the stored state
      is always the one after the host, and a successful run is the host's
      update alone. */
  function RunGraphAsWritten(s: GameState, reply: string, usage: Usage): (res: (Result<Run, string>, GameState))
    ensures res.1 == Apply(s, HostNode(s, reply, usage))
    ensures res.0.Failure? <==> ShouldSummarize(res.1) == ToSummarizer
    ensures res.0.Success? ==> res.0.value == Run([HostEvent(HostNode(s, reply, usage))], res.1)
  {
    var hostUpdate := HostNode(s, reply, usage);
    var afterHost := Apply(s, hostUpdate);
    if ShouldSummarize(afterHost) == ToSummarizer then
      (Failure(SummarizeNodeAsWritten(afterHost).error), afterHost)
    else
      (Success(Run([HostEvent(hostUpdate)], afterHost)), afterHost)
  }

  /** The `ai_reply` the stream loop of `/chat` ends with: the content of the
      last message of the latest host event whose history is non-empty, or
      the empty string. */
  function LastHostReply(events: seq<Event>): string {
    if events == [] then ""
    else
      var e := events[|events| - 1];
      if e.HostEvent? && e.update.history.Some? && e.update.history.value != [] then
        e.update.history.value[|e.update.history.value| - 1].content
      else LastHostReply(events[..|events| - 1])
  }

  /** A host event without a `history` key would raise; the events of a
      `/chat` run never contain one. */
  predicate HostEventsCarryHistory(events: seq<Event>) {
    forall i :: 0 <= i < |events| && events[i].HostEvent? ==> events[i].update.history.Some?
  }

  /** The `async for` loop over the graph's stream in `/chat`. */
  method ReplyFromEvents(events: seq<Event>) returns (reply: string)
    requires HostEventsCarryHistory(events)
    ensures reply == LastHostReply(events)
  {
    reply := "";
    var i := 0;
    while i < |events|
      invariant 0 <= i <= |events|
      invariant reply == LastHostReply(events[..i])
    {
      assert events[..i + 1][..i] == events[..i];
      match events[i] {
        case HostEvent(u) =>
          var msgs := u.history.value;
          if msgs != [] {
            reply := msgs[|msgs| - 1].content;
          }
        case SummarizerEvent(_) =>
      }
      i := i + 1;
    }
    assert events[..i] == events;
  }

  // ------------------------------------------------------- init and chat

  /** A JSON request body: the keys it carries and their values. */
  type Body = map<string, string>

  /** A request class: the fields it declares and the defaults some of
      them have. */
  datatype RequestClass = RequestClass(fields: set<string>, defaults: map<string, string>)

  /** `InitRequest` as first declared: `model` defaults to
      "gemini-2.5-flash". */
  const InitRequestFirst := RequestClass({"thread_id", "story", "truth", "model"}, map["model" := DefaultRequestModel])

  /** `InitRequest` as declared again before the handlers. The second
      class statement rebinds the name, so this is the class the `/init`
      handler's annotation names; it has no `model` field. */
  const InitRequestSecond := RequestClass({"thread_id", "story", "truth"}, map[])

  const FieldRequired := "422 Unprocessable Entity: field required"

  function MissingAttribute(name: string): string {
    "AttributeError: 'InitRequest' object has no attribute '" + name + "'"
  }

  /** Binding a body to a request class: a declared field takes the body's
      value, or else its default; a declared field with neither is a
      validation error; keys the class does not declare are dropped. */
  function Bind(cls: RequestClass, body: Body): (r: Result<map<string, string>, string>)
    ensures r.Success? <==> forall f :: f in cls.fields ==> f in body || f in cls.defaults
    ensures r.Success? ==> r.value.Keys == cls.fields
    ensures r.Success? ==> forall f :: f in cls.fields && f in body ==> r.value[f] == body[f]
    ensures r.Success? ==> forall f :: f in cls.fields && f !in body ==> r.value[f] == cls.defaults[f]
  {
    if forall f :: f in cls.fields ==> f in body || f in cls.defaults then
      Success(map f | f in cls.fields :: if f in body then body[f] else cls.defaults[f])
    else
      Failure(FieldRequired)
  }

  /** The init request as first declared, once bound. */
  datatype InitRequest = InitRequest(threadId: string, story: string, truth: string, model: string)

  /** Parsing a JSON body into the first declaration: a missing `model`
      takes the declared default. */
  function ParseInitRequest(threadId: string, story: string, truth: string, model: Option<string>): (req: InitRequest)
    ensures model.None? ==> req.model == DefaultRequestModel
    ensures model.Some? ==> req.model == model.value
  {
    InitRequest(threadId, story, truth, model.GetOr(DefaultRequestModel))
  }

  /** The state `/init` stores for a thread: the puzzle, an empty history,
      the opening summary, no turns, no cost; a model without a price is
      replaced by the fallback. */
  function InitialState(req: InitRequest): (s: GameState)
    ensures s.story == req.story && s.truth == req.truth
    ensures s.history == [] && s.turnCount == 0 && s.lastCost == 0.0 && s.lastTokens == 0
    ensures s.summary == "游戏开始。"
    ensures s.model in ModelPricing || s.model == FallbackModel
    ensures req.model in ModelPricing ==> s.model == req.model
    ensures req.model !in ModelPricing ==> s.model == FallbackModel
  {
    var modelToUse := if req.model in ModelPricing then req.model else FallbackModel;
    GameState(req.story, req.truth, [], "游戏开始。", 0, modelToUse, 0.0, 0)
  }

  /** The `/init` handler over a given request class: the body is bound to
      the class, then the handler reads `thread_id`, `model`, `story` and
      `truth` off the bound request, in that order; reading a field the
      request lacks raises. It succeeds only over a class that declares
      `model`. */
  function InitGame(cls: RequestClass, body: Body): (r: Result<GameState, string>)
    ensures r.Success? ==> Bind(cls, body).Success? && "model" in cls.fields
  {
    match Bind(cls, body)
    case Failure(e) => Failure(e)
    case Success(req) =>
      if "thread_id" !in req then Failure(MissingAttribute("thread_id"))
      else if "model" !in req then Failure(MissingAttribute("model"))
      else if "story" !in req then Failure(MissingAttribute("story"))
      else if "truth" !in req then Failure(MissingAttribute("truth"))
      else Success(InitialState(InitRequest(req["thread_id"], req["story"], req["truth"], req["model"])))
  }

  /** As written, every `/init` request fails, a body carrying `model`
      included: one missing a declared field is refused by validation, and
      every other one raises on `req.model` before any state is stored. */
  lemma InitAlwaysFailsAsWritten(body: Body)
    ensures InitGame(InitRequestSecond, body).Failure?
    ensures {"thread_id", "story", "truth"} <= body.Keys ==>
      InitGame(InitRequestSecond, body) == Failure(MissingAttribute("model"))
    ensures !({"thread_id", "story", "truth"} <= body.Keys) ==>
      InitGame(InitRequestSecond, body) == Failure(FieldRequired)
  {
    var b := Bind(InitRequestSecond, body);
    if {"thread_id", "story", "truth"} <= body.Keys {
      assert "thread_id" in b.value && "model" !in b.value;
    } else {
      var f :| f in {"thread_id", "story", "truth"} && f !in body.Keys;
      assert f in InitRequestSecond.fields && f !in InitRequestSecond.defaults;
    }
  }

  /** The same handler over the first declaration: a body carrying the
      thread id, story and truth stores the initial state of the parsed
      request, `model` taking its default when absent; any other body is
      refused by validation. */
  lemma InitWithFirstDeclaration(body: Body)
    ensures {"thread_id", "story", "truth"} <= body.Keys ==>
      InitGame(InitRequestFirst, body) == Success(InitialState(ParseInitRequest(
        body["thread_id"], body["story"], body["truth"], if "model" in body then Some(body["model"]) else None)))
    ensures !({"thread_id", "story", "truth"} <= body.Keys) ==>
      InitGame(InitRequestFirst, body) == Failure(FieldRequired)
  {
    var b := Bind(InitRequestFirst, body);
    if {"thread_id", "story", "truth"} <= body.Keys {
      assert forall f :: f in InitRequestFirst.fields ==> f in body || f in InitRequestFirst.defaults;
      assert b.value["thread_id"] == body["thread_id"];
      assert b.value["story"] == body["story"] && b.value["truth"] == body["truth"];
      assert "model" in b.value;
    } else {
      var f :| f in {"thread_id", "story", "truth"} && f !in body.Keys;
      assert f in InitRequestFirst.fields && f !in InitRequestFirst.defaults;
    }
  }

  /** The state the graph starts from on `/chat`: the stored history with
      the user's message appended. */
  function WithQuestion(s: GameState, message: string): (t: GameState)
    ensures t.history == s.history + [Human(message)]
    ensures t == s.(history := t.history)
  {
    s.(history := s.history + [Human(message)])
  }

  datatype CostReport = CostReport(tokens: int, cost: real, model: string)

  datatype ChatResponse = ChatResponse(reply: string, summary: string, turnCount: int, costData: CostReport)

  /** One `/chat` exchange on a stored state: the user's message goes in,
      the graph runs once. */
  function ChatRun(s: GameState, message: string, reply: string, usage: Usage, newSummary: string): Run {
    RunGraph(WithQuestion(s, message), reply, usage, newSummary)
  }

  /** A `/chat` exchange appends exactly one user message and one narrator
      reply and counts one turn, unless that turn is a positive multiple of
      ten, in which case the history is emptied and the summary replaced.
      The reply the stream loop extracts is the narrator's reply. */
  lemma ChatExchange(s: GameState, message: string, reply: string, usage: Usage, newSummary: string)
    ensures var r := ChatRun(s, message, reply, usage, newSummary);
      var t := s.turnCount + 1;
      && r.final.turnCount == t
      && r.final.story == s.story && r.final.truth == s.truth && r.final.model == s.model
      && r.final.lastTokens == usage.totalTokens
      && r.final.lastCost == TurnCost(s.model, usage)
      && (t > 0 && t % 10 == 0 ==> r.final.history == [] && r.final.summary == newSummary)
      && (!(t > 0 && t % 10 == 0) ==>
            r.final.history == s.history + [Human(message), Host(reply)] && r.final.summary == s.summary)
      && HostEventsCarryHistory(r.events)
      && LastHostReply(r.events) == reply
  {
    var q := WithQuestion(s, message);
    assert q.history + [Host(reply)] == s.history + [Human(message), Host(reply)];
  }

  /** Between two summaries the history holds exactly the exchanges since
      the last one: two messages per turn past the last multiple of ten. */
  predicate HistoryMatchesTurns(s: GameState) {
    s.turnCount >= 0 && |s.history| == 2 * (s.turnCount % 10)
  }

  lemma {:induction false} ChatKeepsHistoryBound(s: GameState, message: string, reply: string, usage: Usage, newSummary: string)
    requires HistoryMatchesTurns(s)
    ensures HistoryMatchesTurns(ChatRun(s, message, reply, usage, newSummary).final)
  {
    ChatExchange(s, message, reply, usage, newSummary);
    var t := s.turnCount + 1;
    if t % 10 != 0 {
      assert t % 10 == s.turnCount % 10 + 1;
    }
  }

  /** So the host's context window never cuts anything: at most 18 earlier
      messages precede the current question. */
  lemma WindowKeepsAllEarlierMessages(s: GameState, message: string)
    requires HistoryMatchesTurns(s)
    ensures var q := WithQuestion(s, message);
      Window(q.history[..|q.history| - 1]) == s.history
  {
    var q := WithQuestion(s, message);
    assert q.history[..|q.history| - 1] == s.history;
  }

  /** One turn's opaque inputs: the user's message, the model's reply and
      usage, and the summary the summariser would write. */
  datatype TurnInput = TurnInput(message: string, reply: string, usage: Usage, newSummary: string)

  /** The stored state after a sequence of `/chat` exchanges. */
  function Chats(s: GameState, turns: seq<TurnInput>): GameState {
    if turns == [] then s
    else
      var last := turns[|turns| - 1];
      ChatRun(Chats(s, turns[..|turns| - 1]), last.message, last.reply, last.usage, last.newSummary).final
  }

  /** After n exchanges from a freshly initialised thread, the counter is n
      and the history holds 2 * (n % 10) messages: it is emptied on every
      tenth exchange. */
  lemma {:induction false} ChatsFromInit(req: InitRequest, turns: seq<TurnInput>)
    ensures Chats(InitialState(req), turns).turnCount == |turns|
    ensures |Chats(InitialState(req), turns).history| == 2 * (|turns| % 10)
  {
    if turns != [] {
      var init := turns[..|turns| - 1];
      var last := turns[|turns| - 1];
      ChatsFromInit(req, init);
      ChatKeepsHistoryBound(Chats(InitialState(req), init), last.message, last.reply, last.usage, last.newSummary);
      ChatExchange(Chats(InitialState(req), init), last.message, last.reply, last.usage, last.newSummary);
    }
  }

  /** As written, a state that has reached its tenth turn reports an error
      to the caller while keeping the host's reply, so the history is never
      emptied: it only grows by two messages per exchange. */
  lemma ChatAsWrittenNeverEmptiesHistory(s: GameState, message: string, reply: string, usage: Usage)
    ensures var (res, stored) := RunGraphAsWritten(WithQuestion(s, message), reply, usage);
      && stored.history == s.history + [Human(message), Host(reply)]
      && stored.turnCount == s.turnCount + 1
      && (res.Failure? <==> s.turnCount + 1 > 0 && (s.turnCount + 1) % 10 == 0)
  {
    var q := WithQuestion(s, message);
    assert q.history + [Host(reply)] == s.history + [Human(message), Host(reply)];
  }

  function ChatsAsWritten(s: GameState, turns: seq<TurnInput>): GameState {
    if turns == [] then s
    else
      var last := turns[|turns| - 1];
      RunGraphAsWritten(WithQuestion(ChatsAsWritten(s, turns[..|turns| - 1]), last.message), last.reply, last.usage).1
  }

  /** As written, n exchanges leave 2n messages in the history: past ten
      exchanges the host is shown a truncated context. */
  lemma {:induction false} ChatsAsWrittenGrow(s: GameState, turns: seq<TurnInput>)
    ensures |ChatsAsWritten(s, turns).history| == |s.history| + 2 * |turns|
  {
    if turns != [] {
      var init := turns[..|turns| - 1];
      var last := turns[|turns| - 1];
      ChatsAsWrittenGrow(s, init);
      ChatAsWrittenNeverEmptiesHistory(ChatsAsWritten(s, init), last.message, last.reply, last.usage);
    }
  }

  /** The per-thread store of graph states (the checkpointer). */
  class Checkpointer {
    var threads: map<string, GameState>

    constructor ()
      ensures threads == map[]
    {
      threads := map[];
    }

    /** `/init` (with the `model` field restored): stores a fresh state for
        the thread, replacing any earlier one, and reports the model used. */
    method Init(req: InitRequest) returns (modelUsed: string)
      modifies this
      ensures threads == old(threads)[req.threadId := InitialState(req)]
      ensures modelUsed == InitialState(req).model
    {
      var s := InitialState(req);
      threads := threads[req.threadId := s];
      modelUsed := s.model;
    }

    /** `/chat`. A thread with no stored state fails (the host node reads
        fields that are not there) and nothing is stored. Otherwise the
        message is appended to the stored history, the graph runs once, the
        final state is stored, and the response carries the reply, the
        counter and a cost report. */
    method Chat(threadId: string, message: string, reply: string, usage: Usage, newSummary: string)
      returns (r: Result<ChatResponse, string>)
      modifies this
      ensures threadId !in old(threads) ==> r.Failure? && threads == old(threads)
      ensures threadId in old(threads) ==>
        var run := ChatRun(old(threads)[threadId], message, reply, usage, newSummary);
        && threads == old(threads)[threadId := run.final]
        && r == Success(ChatResponse(reply, run.final.summary, run.final.turnCount,
                                     CostReport(run.final.lastTokens, run.final.lastCost, run.final.model)))
    {
      if threadId !in threads {
        return Failure("KeyError: 'turn_count'");
      }
      var s := threads[threadId];
      var run := RunGraph(WithQuestion(s, message), reply, usage, newSummary);
      ChatExchange(s, message, reply, usage, newSummary);
      var aiReply := ReplyFromEvents(run.events);
      threads := threads[threadId := run.final];
      var f := run.final;
      r := Success(ChatResponse(aiReply, f.summary, f.turnCount, CostReport(f.lastTokens, f.lastCost, f.model)));
    }
  }
}

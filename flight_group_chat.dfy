/** The session wrapper around the multi-agent group chat. The library chat
    is modelled as an object with a message log and an `isComplete` flag,
    driven turn by turn: each turn asks the selection prompt, runs the
    selected agent and asks the termination prompt. The prompts' answers and
    the agent's messages are supplied from outside as `Turn`s. What the
    wrapper adds, and what is modelled here, is lazy construction with a
    fixed agent line-up and fixed strategy settings, appending user messages,
    re-invoking the chat until it is complete, and relaying responses and
    strategy decisions as events through the result parsers. */
module GroupChat {
  import opened Common
  import opened Filters

  datatype AuthorRole = User | Assistant | System | Tool

  /** A `ChatMessageContent`: role, author name (null for the user) and text. */
  datatype ChatMessage = ChatMessage(role: AuthorRole, authorName: Option<string>, content: string)

  /** The message `new ChatMessageContent(AuthorRole.User, content)`. */
  function UserMessage(content: string): ChatMessage
  {
    ChatMessage(User, None, content)
  }

  /** The structured answer of the selection prompt (`next_agent`, `selection_reason`). */
  datatype AgentSelectionStrategyResponse = AgentSelectionStrategyResponse(nextAgent: string, selectionReason: string)

  /** The structured answer of the termination prompt (`should_terminate`, `termination_reason`). */
  datatype AgentTerminationStrategyResponse = AgentTerminationStrategyResponse(shouldTerminate: bool, terminationReason: string)

  datatype GroupChatResponseGeneratedEventArgs = GroupChatResponseGeneratedEventArgs(chatMessageContent: ChatMessage)

  /** What the subscribers of the three events receive; a null payload is `None`. */
  datatype Notification =
    | ResponseGenerated(args: GroupChatResponseGeneratedEventArgs)
    | SelectionResult(selection: Option<AgentSelectionStrategyResponse>)
    | TerminationResult(termination: Option<AgentTerminationStrategyResponse>)

  /** The outcome of `JsonSerializer.Deserialize<T>` on a strategy's text
      answer: a record, the JSON literal `null`, or a thrown `JsonException`
      (which also stands for a null input text). */
  datatype Deserialized<T> = Parsed(value: T) | JsonNull | Malformed

  /** The exceptions a result parser lets escape. */
  datatype ParserError = JsonError | NullReference

  /** A chat-completion agent: the prompt template it is built from and the
      kernel arguments bound to it at construction. */
  datatype Agent = Agent(promptTemplatePath: string, arguments: map<string, string>)

  const QueryBuilderTemplate := "PromptTemplates/Agents/ODataQueryBuilderAgent.yaml"
  const ChartVisualizerTemplate := "PromptTemplates/Agents/ChartVisualizerAgent.yaml"
  const MarkdownFormatterTemplate := "PromptTemplates/Agents/MarkdownFormatterAgent.yaml"
  const SelectionTemplate := "PromptTemplates/Strategies/AgentSelectionStrategy.yaml"
  const TerminationTemplate := "PromptTemplates/Strategies/AgentTerminationStrategy.yaml"

  /** The function whose invocation ends an agent's turn. */
  const ForcedTerminationFunction := "ExecuteODataQuery"

  /** The three agents of a session, in the order the chat is given them:
      the query builder (bound to the service's metadata document), the chart
      visualiser and the markdown formatter. */
  function SessionAgents(odataEdm: string): seq<Agent>
  {
    [ Agent(QueryBuilderTemplate, map["odataEdm" := odataEdm]),
      Agent(ChartVisualizerTemplate, map[]),
      Agent(MarkdownFormatterTemplate, map[]) ]
  }

  /** The settings of a `KernelFunctionSelectionStrategy`; `historyWindow` is
      the truncation reducer's size, `None` for no reducer. */
  datatype SelectionSettings = SelectionSettings(
    promptTemplatePath: string,
    agentsVariableName: string,
    historyVariableName: string,
    historyWindow: Option<nat>)

  /** The settings of a `KernelFunctionTerminationStrategy`; `agents` is the
      allow-list of agents whose turns may end the chat, `None` for all. */
  datatype TerminationSettings = TerminationSettings(
    promptTemplatePath: string,
    agentVariableName: string,
    historyVariableName: string,
    historyWindow: Option<nat>,
    maximumIterations: nat,
    agents: Option<seq<Agent>>,
    automaticReset: bool)

  /** The selection strategy of a session: the full history, no reducer. */
  const ConfiguredSelection := SelectionSettings(SelectionTemplate, "agents", "history", None)

  /** The termination strategy of a session: the last two messages, at most
      five iterations, reset automatically, every agent may end the chat. */
  const ConfiguredTermination := TerminationSettings(TerminationTemplate, "agents", "history", Some(2), 5, None, true)

  /** One message an agent produced during its turn. The library logs every
      message and yields only the visible ones: function-call and
      function-result messages are logged but not yielded. */
  datatype AgentOutput = AgentOutput(message: ChatMessage, visible: bool)

  /** One turn of the library chat: the selection prompt's answer, the
      messages of the agent that runs, and the termination prompt's answer. */
  datatype Turn = Turn(
    selection: Deserialized<AgentSelectionStrategyResponse>,
    outputs: seq<AgentOutput>,
    termination: Deserialized<AgentTerminationStrategyResponse>)

  /** Which of the three events have a handler attached. */
  datatype Handlers = Handlers(response: bool, selection: bool, termination: bool)

  /** The messages the library logs for `outputs`: all of them, in order. */
  function Logged(outputs: seq<AgentOutput>): seq<ChatMessage>
  {
    if outputs == [] then []
    else Logged(outputs[..|outputs| - 1]) + [outputs[|outputs| - 1].message]
  }

  /** The messages the library yields for `outputs`: the visible ones, in order. */
  function Visible(outputs: seq<AgentOutput>): seq<ChatMessage>
  {
    if outputs == [] then []
    else Visible(outputs[..|outputs| - 1]) + (if outputs[|outputs| - 1].visible then [outputs[|outputs| - 1].message] else [])
  }

  /** Every message is logged, in order; at most as many are yielded, and
      when no message is hidden the yield is the log. */
  lemma {:induction false} LoggedAndVisible(outputs: seq<AgentOutput>)
    ensures |Logged(outputs)| == |outputs|
    ensures forall k :: 0 <= k < |outputs| ==> Logged(outputs)[k] == outputs[k].message
    ensures |Visible(outputs)| <= |outputs|
    ensures (forall k :: 0 <= k < |outputs| ==> outputs[k].visible) ==> Visible(outputs) == Logged(outputs)
    ensures (forall k :: 0 <= k < |outputs| ==> !outputs[k].visible) ==> Visible(outputs) == []
  {
    if outputs != [] {
      var init := outputs[..|outputs| - 1];
      LoggedAndVisible(init);
      forall k | 0 <= k < |outputs| ensures Logged(outputs)[k] == outputs[k].message {
        if k < |init| {
          assert outputs[k] == init[k];
        }
      }
      if forall k :: 0 <= k < |outputs| ==> outputs[k].visible {
        assert forall k :: 0 <= k < |init| ==> init[k] == outputs[k];
      }
      if forall k :: 0 <= k < |outputs| ==> !outputs[k].visible {
        assert forall k :: 0 <= k < |init| ==> init[k] == outputs[k];
      }
    }
  }

  /** The event raised for one response. */
  function ResponseNotification(message: ChatMessage): Notification
  {
    ResponseGenerated(GroupChatResponseGeneratedEventArgs(message))
  }

  /** What the handlers of the response event receive when `messages` are
      raised one after the other: one event per message when there is a
      handler, nothing otherwise. */
  function ResponseEvents(subscribed: bool, messages: seq<ChatMessage>): seq<Notification>
  {
    if !subscribed || messages == [] then []
    else ResponseEvents(subscribed, messages[..|messages| - 1]) + [ResponseNotification(messages[|messages| - 1])]
  }

  /** With a handler, the handler receives exactly one event per message,
      carrying that message, in the messages' order; without one, nothing. */
  lemma {:induction false} ResponseEventsPerMessage(subscribed: bool, messages: seq<ChatMessage>)
    ensures !subscribed ==> ResponseEvents(subscribed, messages) == []
    ensures subscribed ==> |ResponseEvents(subscribed, messages)| == |messages|
    ensures subscribed ==> forall k :: 0 <= k < |messages| ==>
              ResponseEvents(subscribed, messages)[k] == ResponseNotification(messages[k])
  {
    if subscribed && messages != [] {
      var init := messages[..|messages| - 1];
      ResponseEventsPerMessage(subscribed, init);
      forall k | 0 <= k < |messages|
        ensures ResponseEvents(subscribed, messages)[k] == ResponseNotification(messages[k])
      {
        if k < |init| {
          assert messages[k] == init[k];
        }
      }
    }
  }

  /** Raising one more message delivers its event after the earlier ones. */
  lemma ResponseEventsSnoc(subscribed: bool, messages: seq<ChatMessage>, message: ChatMessage)
    ensures ResponseEvents(subscribed, messages + [message])
            == ResponseEvents(subscribed, messages) + (if subscribed then [ResponseNotification(message)] else [])
  {
    assert (messages + [message])[..|messages|] == messages;
  }

  /** What the selection result parser returns for an answer. */
  function SelectionAnswer(answer: Deserialized<AgentSelectionStrategyResponse>): Result<string, ParserError>
  {
    match answer
    case Parsed(response) => Success(response.nextAgent)
    case JsonNull => Failure(NullReference)
    case Malformed => Failure(JsonError)
  }

  /** What the selection event's handlers receive while an answer is parsed. */
  function SelectionEvents(subscribed: bool, answer: Deserialized<AgentSelectionStrategyResponse>): seq<Notification>
  {
    if !subscribed || answer.Malformed? then []
    else [SelectionResult(if answer.Parsed? then Some(answer.value) else None)]
  }

  /** What the termination result parser returns for an answer. */
  function TerminationAnswer(answer: Deserialized<AgentTerminationStrategyResponse>): Result<bool, ParserError>
  {
    match answer
    case Parsed(response) => Success(response.shouldTerminate)
    case JsonNull => Failure(NullReference)
    case Malformed => Failure(JsonError)
  }

  /** What the termination event's handlers receive while an answer is parsed. */
  function TerminationEvents(subscribed: bool, answer: Deserialized<AgentTerminationStrategyResponse>): seq<Notification>
  {
    if !subscribed || answer.Malformed? then []
    else [TerminationResult(if answer.Parsed? then Some(answer.value) else None)]
  }

  /** How a turn ends: the termination verdict, or the exception of the first
      result parser that throws (no agent runs when the selection parser throws). */
  function TurnVerdict(turn: Turn): Result<bool, ParserError>
  {
    match SelectionAnswer(turn.selection)
    case Failure(e) => Failure(e)
    case Success(_) => TerminationAnswer(turn.termination)
  }

  /** The messages a turn adds to the chat's history. */
  function TurnLogged(turn: Turn): seq<ChatMessage>
  {
    if SelectionAnswer(turn.selection).Failure? then [] else Logged(turn.outputs)
  }

  /** The events a turn delivers: the selection decision, the agent's
      yielded responses, then the termination decision. */
  function TurnEvents(h: Handlers, turn: Turn): seq<Notification>
  {
    SelectionEvents(h.selection, turn.selection)
    + (if SelectionAnswer(turn.selection).Failure? then []
       else ResponseEvents(h.response, Visible(turn.outputs)) + TerminationEvents(h.termination, turn.termination))
  }

  /** The events of a turn whose selection answer parses, appended one
      parser or agent step after the other. */
  lemma TurnEventsSteps(delivered0: seq<Notification>, h: Handlers, turn: Turn)
    requires SelectionAnswer(turn.selection).Success?
    ensures ((delivered0 + SelectionEvents(h.selection, turn.selection))
              + ResponseEvents(h.response, Visible(turn.outputs)))
              + TerminationEvents(h.termination, turn.termination)
            == delivered0 + TurnEvents(h, turn)
  {
    var se, re, te := SelectionEvents(h.selection, turn.selection), ResponseEvents(h.response, Visible(turn.outputs)), TerminationEvents(h.termination, turn.termination);
    AppendAssociates(delivered0, se, re);
    AppendAssociates(delivered0, se + re, te);
    AppendAssociates(se, re, te);
  }

  /** With every handler attached and both answers well-formed, a turn
      delivers the selection decision first, then one event per yielded
      response in yield order, then the termination decision. */
  lemma TurnEventsInOrder(h: Handlers, turn: Turn)
    requires h.response && h.selection && h.termination
    requires turn.selection.Parsed? && turn.termination.Parsed?
    ensures |TurnEvents(h, turn)| == |Visible(turn.outputs)| + 2
    ensures TurnEvents(h, turn)[0] == SelectionResult(Some(turn.selection.value))
    ensures forall k :: 0 <= k < |Visible(turn.outputs)| ==>
              TurnEvents(h, turn)[k + 1] == ResponseNotification(Visible(turn.outputs)[k])
    ensures TurnEvents(h, turn)[|TurnEvents(h, turn)| - 1] == TerminationResult(Some(turn.termination.value))
  {
    var visible := Visible(turn.outputs);
    var responses := ResponseEvents(h.response, visible);
    ResponseEventsPerMessage(h.response, visible);
    var first, last := SelectionResult(Some(turn.selection.value)), TerminationResult(Some(turn.termination.value));
    assert SelectionEvents(h.selection, turn.selection) == [first];
    assert TerminationEvents(h.termination, turn.termination) == [last];
    var events := TurnEvents(h, turn);
    assert events == [first] + (responses + [last]);
    forall k | 0 <= k < |visible|
      ensures events[k + 1] == ResponseNotification(visible[k])
    {
      assert events[k + 1] == responses[k];
    }
  }

  /** A turn after which the chat does not go on: it completed the chat or
      one of its result parsers threw. */
  predicate Stops(turn: Turn)
  {
    TurnVerdict(turn) != Success(false)
  }

  /** Some turn of `turns` stops the chat. */
  predicate EventuallyStops(turns: seq<Turn>)
  {
    exists k :: 0 <= k < |turns| && Stops(turns[k])
  }

  /** The first turn that stops the chat. */
  function FirstStop(turns: seq<Turn>): (n: nat)
    requires EventuallyStops(turns)
    ensures n < |turns| && Stops(turns[n])
    ensures forall j :: 0 <= j < n ==> !Stops(turns[j])
    decreases |turns|
  {
    if Stops(turns[0]) then 0
    else
      assert EventuallyStops(turns[1..]) by {
        var k :| 0 <= k < |turns| && Stops(turns[k]);
        assert Stops(turns[1..][k - 1]);
      }
      1 + FirstStop(turns[1..])
  }

  /** Where a run whose first stopping turn is `last` stands once the turns
      before `next` are taken: either still going (no stop yet, a normal
      outcome, the chat not complete), or stopped right after `last` with that
      turn's outcome and the chat complete exactly when the outcome is normal. */
  ghost predicate Progress(turns: seq<Turn>, last: nat, next: nat, stopped: bool, outcome: Outcome<ParserError>, complete: bool)
    requires last < |turns|
  {
    if stopped then next == last + 1 && outcome == StopOutcome(turns[last]) && (complete <==> outcome.Pass?)
    else next <= last && outcome.Pass? && !complete
  }

  /** Taking turn `n` of a run that has not stopped yet: a turn before the
      first stopping one goes on, and the first stopping one ends the run as
      its verdict says. */
  lemma ProgressStep(turns: seq<Turn>, last: nat, n: nat)
    requires EventuallyStops(turns) && last == FirstStop(turns) && n <= last
    ensures TurnVerdict(turns[n]) == Success(false) ==> Progress(turns, last, n + 1, false, Pass, false)
    ensures TurnVerdict(turns[n]) == Success(true) ==> Progress(turns, last, n + 1, true, Pass, true)
    ensures TurnVerdict(turns[n]).Failure? ==> Progress(turns, last, n + 1, true, Fail(TurnVerdict(turns[n]).error), false)
  {
  }

  /** How a run that ends at `turn` ends: normally when the turn completed
      the chat, with the parser's exception otherwise. */
  function StopOutcome(turn: Turn): Outcome<ParserError>
  {
    match TurnVerdict(turn)
    case Failure(e) => Fail(e)
    case Success(_) => Pass
  }

  /** The messages logged by the first `n` turns, turn after turn. */
  function RunLogged(turns: seq<Turn>, n: nat): seq<ChatMessage>
    requires n <= |turns|
  {
    if n == 0 then [] else RunLogged(turns, n - 1) + TurnLogged(turns[n - 1])
  }

  /** The events delivered by the first `n` turns, turn after turn. */
  function RunEvents(h: Handlers, turns: seq<Turn>, n: nat): seq<Notification>
    requires n <= |turns|
  {
    if n == 0 then [] else RunEvents(h, turns, n - 1) + TurnEvents(h, turns[n - 1])
  }

  /** A run that completes the chat ends, for a handler of the termination
      event, with the termination decision that ended it. */
  lemma CompletedRunEndsWithVerdict(h: Handlers, turns: seq<Turn>)
    requires EventuallyStops(turns) && StopOutcome(turns[FirstStop(turns)]).Pass? && h.termination
    ensures var events := RunEvents(h, turns, FirstStop(turns) + 1);
            && events != []
            && events[|events| - 1].TerminationResult?
            && events[|events| - 1].termination.Some?
            && events[|events| - 1].termination.value.shouldTerminate
  {
    var last := turns[FirstStop(turns)];
    assert TurnVerdict(last) == Success(true);
    var before := SelectionEvents(h.selection, last.selection) + ResponseEvents(h.response, Visible(last.outputs));
    assert TurnEvents(h, last) == before + [TerminationResult(Some(last.termination.value))];
  }

  lemma AppendAssociates<T>(a: seq<T>, b: seq<T>, c: seq<T>)
    ensures a + (b + c) == (a + b) + c
  {
  }

  /** `history` and `delivered` are `history0` and `delivered0` followed by
      what the first `n` turns log and deliver. */
  ghost predicate Tracks(history: seq<ChatMessage>, delivered: seq<Notification>, h: Handlers, turns: seq<Turn>, n: nat,
                         history0: seq<ChatMessage>, delivered0: seq<Notification>)
    requires n <= |turns|
  {
    history == history0 + RunLogged(turns, n) && delivered == delivered0 + RunEvents(h, turns, n)
  }

  /** One more turn extends the logged messages and the delivered events by
      that turn's part. */
  lemma OneMoreTurn(history: seq<ChatMessage>, delivered: seq<Notification>, h: Handlers, turns: seq<Turn>, n: nat,
                    history0: seq<ChatMessage>, delivered0: seq<Notification>)
    requires n < |turns| && Tracks(history, delivered, h, turns, n, history0, delivered0)
    ensures Tracks(history + TurnLogged(turns[n]), delivered + TurnEvents(h, turns[n]), h, turns, n + 1, history0, delivered0)
  {
    AppendAssociates(history0, RunLogged(turns, n), TurnLogged(turns[n]));
    AppendAssociates(delivered0, RunEvents(h, turns, n), TurnEvents(h, turns[n]));
  }

  /** The library `AgentGroupChat`, as far as the wrapper depends on it. */
  class AgentGroupChat {
    const agents: seq<Agent>
    const selection: SelectionSettings
    const termination: TerminationSettings
    ghost var history: seq<ChatMessage>
    var isComplete: bool

    constructor (agents: seq<Agent>, selection: SelectionSettings, termination: TerminationSettings)
      ensures this.agents == agents && this.selection == selection && this.termination == termination
      ensures history == [] && !isComplete
    {
      this.agents := agents;
      this.selection := selection;
      this.termination := termination;
      history := [];
      isComplete := false;
    }

    /** `AddChatMessage`: one message at the end of the history. */
    method AddChatMessage(message: ChatMessage)
      modifies this
      ensures history == old(history) + [message] && isComplete == old(isComplete)
    {
      history := history + [message];
    }

    /** `AddChatMessages`: the messages, in order, at the end of the history. */
    method AddChatMessages(messages: seq<ChatMessage>)
      modifies this
      ensures history == old(history) + messages && isComplete == old(isComplete)
    {
      history := history + messages;
    }

    /** The start of `InvokeAsync`: a termination strategy with automatic
        reset clears the completion of an earlier run. */
    method ResetIfAutomatic()
      modifies this`isComplete
      ensures isComplete == (old(isComplete) && !termination.automaticReset)
    {
      if termination.automaticReset {
        isComplete := false;
      }
    }

    /** The end of a turn: the chat is complete exactly when the termination
        strategy's verdict says so. */
    method RecordVerdict(shouldTerminate: bool)
      modifies this`isComplete
      ensures isComplete == shouldTerminate
    {
      isComplete := shouldTerminate;
    }
  }

  /** `FlightGroupChat`: one session. `handlers` says which of its three
      events have a handler; `delivered` is everything handlers
      have received, in order. */
  class FlightGroupChat {
    var chat: AgentGroupChat?
    /** The filter registered on the kernel by the constructor. */
    const filter: TerminatingFilter
    var handlers: Handlers
    var delivered: seq<Notification>

    /** A chat, once built, has the session's strategy settings. */
    ghost predicate Valid()
      reads this`chat
    {
      chat != null ==> chat.selection == ConfiguredSelection && chat.termination == ConfiguredTermination
    }

    /** The session's history; empty while the chat has not been built. */
    ghost function History(): seq<ChatMessage>
      reads this, chat
    {
      if chat == null then [] else chat.history
    }

    /** A new session: no chat yet, no handlers, and a forced-termination
        filter for `ExecuteODataQuery` only. */
    constructor ()
      ensures Valid() && chat == null && fresh(filter) && filter.functionNames == {ForcedTerminationFunction}
      ensures handlers == Handlers(false, false, false) && delivered == []
    {
      chat := null;
      filter := new TerminatingFilter([ForcedTerminationFunction]);
      handlers := Handlers(false, false, false);
      delivered := [];
    }

    /** `Initialize`: build the chat on first use only. `odataEdm` is the
        metadata document the query builder is bound to; it is used only
        when the chat is built. */
    method Initialize(odataEdm: string)
      requires Valid()
      modifies this`chat
      ensures Valid() && chat != null
      ensures old(chat) != null ==> chat == old(chat)
      ensures old(chat) == null ==>
                && fresh(chat)
                && chat.agents == SessionAgents(odataEdm)
                && chat.selection == ConfiguredSelection
                && chat.termination == ConfiguredTermination
                && !chat.isComplete
      ensures History() == old(History())
    {
      if chat == null {
        chat := new AgentGroupChat(SessionAgents(odataEdm), ConfiguredSelection, ConfiguredTermination);
      }
    }

    /** `AddChatMessageAsync`: one user message at the end of the history. */
    method AddChatMessage(message: string, odataEdm: string)
      requires Valid()
      modifies this`chat, chat
      ensures Valid() && chat != null
      ensures old(chat) != null ==> chat == old(chat) && chat.isComplete == old(chat.isComplete)
      ensures old(chat) == null ==> fresh(chat) && chat.agents == SessionAgents(odataEdm) && !chat.isComplete
      ensures History() == old(History()) + [UserMessage(message)]
    {
      Initialize(odataEdm);
      chat.AddChatMessage(UserMessage(message));
    }

    /** `AddChatMessagesAsync`: all of `messages`, in order, at the end of the history. */
    method AddChatMessages(messages: seq<ChatMessage>, odataEdm: string)
      requires Valid()
      modifies this`chat, chat
      ensures Valid() && chat != null
      ensures old(chat) != null ==> chat == old(chat) && chat.isComplete == old(chat.isComplete)
      ensures old(chat) == null ==> fresh(chat) && chat.agents == SessionAgents(odataEdm) && !chat.isComplete
      ensures History() == old(History()) + messages
    {
      Initialize(odataEdm);
      chat.AddChatMessages(messages);
    }

    /** `StartGroupChat`: build the chat if needed, then invoke it until it is
        complete. `turns` is what the library's turns produce, in order; the
        run ends at the first turn that completes the chat or whose result
        parser throws, and the exception ends the run. */
    method StartGroupChat(odataEdm: string, turns: seq<Turn>) returns (outcome: Outcome<ParserError>, taken: nat)
      requires Valid() && EventuallyStops(turns)
      modifies this`chat, this`delivered, chat
      ensures Valid() && chat != null
      ensures old(chat) != null ==> chat == old(chat)
      ensures old(chat) == null ==> fresh(chat) && chat.agents == SessionAgents(odataEdm)
      ensures taken == FirstStop(turns) + 1
      ensures outcome == StopOutcome(turns[taken - 1])
      ensures chat.isComplete <==> outcome.Pass?
      ensures History() == old(History()) + RunLogged(turns, taken)
      ensures delivered == old(delivered) + RunEvents(handlers, turns, taken)
    {
      Initialize(odataEdm);
      outcome, taken := RunUntilComplete(turns);
    }

    /** The `do … while (!_chat.IsComplete)` loop of `StartGroupChat`: invoke
        the chat again and again until it reports itself complete; an
        exception from a result parser leaves the loop. */
    method RunUntilComplete(turns: seq<Turn>) returns (outcome: Outcome<ParserError>, taken: nat)
      requires Valid() && chat != null && EventuallyStops(turns)
      modifies chat, this`delivered
      ensures taken == FirstStop(turns) + 1
      ensures outcome == StopOutcome(turns[taken - 1])
      ensures chat.isComplete <==> outcome.Pass?
      ensures chat.history == old(chat.history) + RunLogged(turns, taken)
      ensures delivered == old(delivered) + RunEvents(handlers, turns, taken)
    {
      var c := chat;
      ghost var history0, delivered0 := c.history, delivered;
      ghost var h := handlers;
      ghost var last := FirstStop(turns);
      taken, outcome := 0, Pass;
      var running := true;
      while running
        invariant running ==> taken <= last && outcome.Pass?
        invariant !running ==> Progress(turns, last, taken, true, outcome, c.isComplete)
        invariant Tracks(c.history, delivered, h, turns, taken, history0, delivered0)
        decreases last + 1 - taken
      {
        taken, outcome := InvokeOnce(turns, last, taken, history0, delivered0);
        running := !c.isComplete && outcome.Pass?;
      }
    }

    /** One `_chat.InvokeAsync()`: after the automatic reset, run turns
        until one completes the chat, a result parser throws, or the
        termination strategy's iteration limit is reached; every yielded
        response is raised as an event as it arrives. */
    method InvokeOnce(turns: seq<Turn>, ghost last: nat, start: nat, ghost history0: seq<ChatMessage>, ghost delivered0: seq<Notification>)
      returns (next: nat, outcome: Outcome<ParserError>)
      requires Valid() && chat != null && EventuallyStops(turns) && last == FirstStop(turns) && start <= last
      requires Tracks(chat.history, delivered, handlers, turns, start, history0, delivered0)
      modifies chat, this`delivered
      ensures start < next && next - start <= ConfiguredTermination.maximumIterations
      ensures Progress(turns, last, next, next == last + 1, outcome, chat.isComplete)
      ensures next <= last ==> next - start == ConfiguredTermination.maximumIterations
      ensures Tracks(chat.history, delivered, handlers, turns, next, history0, delivered0)
    {
      var c := chat;
      var cap := c.termination.maximumIterations;
      c.ResetIfAutomatic();
      next, outcome := start, Pass;
      var stopped := false;
      while !stopped && next - start < cap
        invariant start <= next && next - start <= cap
        invariant Progress(turns, last, next, stopped, outcome, c.isComplete)
        invariant Tracks(c.history, delivered, handlers, turns, next, history0, delivered0)
        decreases cap - (next - start)
      {
        outcome, stopped := InvokeTurn(turns, last, next, history0, delivered0);
        next := next + 1;
      }
    }

    /** One turn inside an invocation: the invocation goes on exactly while
        the run has not reached its first stopping turn, and stops there with
        that turn's outcome. */
    method InvokeTurn(turns: seq<Turn>, ghost last: nat, n: nat, ghost history0: seq<ChatMessage>, ghost delivered0: seq<Notification>)
      returns (outcome: Outcome<ParserError>, stopped: bool)
      requires chat != null && !chat.isComplete && EventuallyStops(turns) && last == FirstStop(turns) && n <= last
      requires Tracks(chat.history, delivered, handlers, turns, n, history0, delivered0)
      modifies chat, this`delivered
      ensures Progress(turns, last, n + 1, stopped, outcome, chat.isComplete)
      ensures Tracks(chat.history, delivered, handlers, turns, n + 1, history0, delivered0)
    {
      var verdict := TakeTurn(turns, n, history0, delivered0);
      ProgressStep(turns, last, n);
      match verdict
      case Failure(e) =>
        outcome, stopped := Fail(e), true;
      case Success(terminate) =>
        outcome, stopped := Pass, terminate;
    }

    /** The turn at position `n` of a run, taken after the turns before it. */
    method TakeTurn(turns: seq<Turn>, n: nat, ghost history0: seq<ChatMessage>, ghost delivered0: seq<Notification>)
      returns (verdict: Result<bool, ParserError>)
      requires chat != null && n < |turns|
      requires Tracks(chat.history, delivered, handlers, turns, n, history0, delivered0)
      modifies chat, this`delivered
      ensures verdict == TurnVerdict(turns[n])
      ensures chat.isComplete == (if verdict.Success? then verdict.value else old(chat.isComplete))
      ensures Tracks(chat.history, delivered, handlers, turns, n + 1, history0, delivered0)
    {
      ghost var history, events := chat.history, delivered;
      OneMoreTurn(history, events, handlers, turns, n, history0, delivered0);
      verdict := RunTurn(turns[n]);
    }

    /** One turn of the library chat: the selection strategy consults its
        result parser, the selected agent runs, then the termination strategy
        consults its result parser and records its verdict. A parser that
        throws ends the turn there. */
    method RunTurn(turn: Turn) returns (verdict: Result<bool, ParserError>)
      requires chat != null
      modifies chat, this`delivered
      ensures verdict == TurnVerdict(turn)
      ensures chat.isComplete == (if verdict.Success? then verdict.value else old(chat.isComplete))
      ensures chat.history == old(chat.history) + TurnLogged(turn)
      ensures delivered == old(delivered) + TurnEvents(handlers, turn)
    {
      var c := chat;
      ghost var delivered0 := delivered;
      ghost var h := handlers;
      var selected := SelectionResultParser(turn.selection);
      if selected.Failure? {
        assert TurnEvents(h, turn) == SelectionEvents(h.selection, turn.selection) + [];
        return Failure(selected.error);
      }
      TurnEventsSteps(delivered0, h, turn);
      RunAgent(turn.outputs);
      var terminate := TerminationResultParser(turn.termination);
      if terminate.Failure? {
        return Failure(terminate.error);
      }
      c.RecordVerdict(terminate.value);
      verdict := terminate;
    }

    /** The selected agent's run inside `InvokeAsync`: every message is
        logged, and each visible one is yielded and, by the `await foreach`
        of `StartGroupChat`, raised as a response event. */
    method RunAgent(outputs: seq<AgentOutput>)
      requires chat != null
      modifies chat, this`delivered
      ensures chat.history == old(chat.history) + Logged(outputs)
      ensures chat.isComplete == old(chat.isComplete)
      ensures delivered == old(delivered) + ResponseEvents(handlers.response, Visible(outputs))
    {
      var c := chat;
      ghost var history0, delivered0 := c.history, delivered;
      var j := 0;
      while j < |outputs|
        invariant 0 <= j <= |outputs|
        invariant c.history == history0 + Logged(outputs[..j])
        invariant c.isComplete == old(c.isComplete)
        invariant delivered == delivered0 + ResponseEvents(handlers.response, Visible(outputs[..j]))
      {
        var output := outputs[j];
        assert outputs[..j + 1][..j] == outputs[..j];
        ghost var shown := Visible(outputs[..j]);
        assert Logged(outputs[..j + 1]) == Logged(outputs[..j]) + [output.message];
        AppendAssociates(history0, Logged(outputs[..j]), [output.message]);
        c.AddChatMessage(output.message);
        if output.visible {
          assert Visible(outputs[..j + 1]) == shown + [output.message];
          ResponseEventsSnoc(handlers.response, shown, output.message);
          AppendAssociates(delivered0, ResponseEvents(handlers.response, shown), if handlers.response then [ResponseNotification(output.message)] else []);
          OnGroupChatResponseGenerated(GroupChatResponseGeneratedEventArgs(output.message));
        } else {
          assert Visible(outputs[..j + 1]) == shown;
        }
        j := j + 1;
      }
      assert outputs[..j] == outputs;
    }

    /** `GroupChatResponseGenerated += …`: the response event has a handler from now on. */
    method AttachResponseHandler()
      modifies this`handlers
      ensures handlers == old(handlers).(response := true)
    {
      handlers := handlers.(response := true);
    }

    /** `GroupChatSelectionStrategyResult += …`: the selection event has a handler from now on. */
    method AttachSelectionHandler()
      modifies this`handlers
      ensures handlers == old(handlers).(selection := true)
    {
      handlers := handlers.(selection := true);
    }

    /** `GroupChatTerminationStrategyResult += …`: the termination event has a handler from now on. */
    method AttachTerminationHandler()
      modifies this`handlers
      ensures handlers == old(handlers).(termination := true)
    {
      handlers := handlers.(termination := true);
    }

    /** `OnGroupChatResponseGenerated`: deliver `e` unchanged when there is a
        handler; do nothing otherwise. */
    method OnGroupChatResponseGenerated(e: GroupChatResponseGeneratedEventArgs)
      modifies this`delivered
      ensures delivered == old(delivered) + (if handlers.response then [ResponseGenerated(e)] else [])
    {
      if handlers.response {
        delivered := delivered + [ResponseGenerated(e)];
      }
    }

    /** `OnGroupChatSelectionStrategyResult`: deliver `e` unchanged when there
        is a handler; do nothing otherwise. */
    method OnGroupChatSelectionStrategyResult(e: Option<AgentSelectionStrategyResponse>)
      modifies this`delivered
      ensures delivered == old(delivered) + (if handlers.selection then [SelectionResult(e)] else [])
    {
      if handlers.selection {
        delivered := delivered + [SelectionResult(e)];
      }
    }

    /** `OnGroupChatTerminationStrategyResult`: deliver `e` unchanged when
        there is a handler; do nothing otherwise. */
    method OnGroupChatTerminationStrategyResult(e: Option<AgentTerminationStrategyResponse>)
      modifies this`delivered
      ensures delivered == old(delivered) + (if handlers.termination then [TerminationResult(e)] else [])
    {
      if handlers.termination {
        delivered := delivered + [TerminationResult(e)];
      }
    }

    /** The selection strategy's `ResultParser`: relay the deserialised
        answer as an event, then return the name of the next agent. A JSON
        `null` is relayed as null before `.NextAgent` throws. */
    method SelectionResultParser(result: Deserialized<AgentSelectionStrategyResponse>) returns (r: Result<string, ParserError>)
      modifies this`delivered
      ensures result.Malformed? ==> r == Failure(JsonError) && delivered == old(delivered)
      ensures result.JsonNull? ==>
                r == Failure(NullReference)
                && delivered == old(delivered) + (if handlers.selection then [SelectionResult(None)] else [])
      ensures result.Parsed? ==>
                r == Success(result.value.nextAgent)
                && delivered == old(delivered) + (if handlers.selection then [SelectionResult(Some(result.value))] else [])
      ensures r == SelectionAnswer(result) && delivered == old(delivered) + SelectionEvents(handlers.selection, result)
    {
      match result
      case Malformed =>
        r := Failure(JsonError);
      case JsonNull =>
        OnGroupChatSelectionStrategyResult(None);
        r := Failure(NullReference);
      case Parsed(response) =>
        OnGroupChatSelectionStrategyResult(Some(response));
        r := Success(response.nextAgent);
    }

    /** The termination strategy's `ResultParser`: relay the deserialised
        answer as an event, then return whether the chat should end. A JSON
        `null` is relayed as null before `.ShouldTerminate` throws. */
    method TerminationResultParser(result: Deserialized<AgentTerminationStrategyResponse>) returns (r: Result<bool, ParserError>)
      modifies this`delivered
      ensures result.Malformed? ==> r == Failure(JsonError) && delivered == old(delivered)
      ensures result.JsonNull? ==>
                r == Failure(NullReference)
                && delivered == old(delivered) + (if handlers.termination then [TerminationResult(None)] else [])
      ensures result.Parsed? ==>
                r == Success(result.value.shouldTerminate)
                && delivered == old(delivered) + (if handlers.termination then [TerminationResult(Some(result.value))] else [])
      ensures r == TerminationAnswer(result) && delivered == old(delivered) + TerminationEvents(handlers.termination, result)
    {
      match result
      case Malformed =>
        r := Failure(JsonError);
      case JsonNull =>
        OnGroupChatTerminationStrategyResult(None);
        r := Failure(NullReference);
      case Parsed(response) =>
        OnGroupChatTerminationStrategyResult(Some(response));
        r := Success(response.shouldTerminate);
    }
  }
}

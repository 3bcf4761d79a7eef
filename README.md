# flight-chat-demo core, modelled in Dafny

A Dafny model of the logic that the flight-chat demo itself contains:

- **The group-chat session** (`FlightGroupChat`). It builds a three-agent chat lazily, once. It appends user messages to the chat. It re-invokes the chat until the chat reports itself complete. It relays every response, and every decision of the selection and termination prompts, to event subscribers.
- **The forced-termination filter**. After a function call has run, it sets the invocation context's `Terminate` flag when the function's name is in a fixed set.
- **The flight information service's CSV loading**. This covers the exact `Distance_type` converter, the case-insensitive enumeration converter, and the airport-by-code lookups that resolve each weather and flight row. The loader fills the airport list before the weather and flight lists, so those lookups see the loaded airports.
- **The three OData controllers**. Each returns its whole collection, or the single element with a given (composite) key, or 404.

The multi-agent scheduler itself (`AgentGroupChat`, the kernel-function selection and termination strategies, the history reducer) is library code whose source is not part of this model. The model treats it as an object with a message log and an `isComplete` flag, driven turn by turn. In each turn the selection prompt's answer goes through the session's selection result parser, the selected agent runs, and the termination prompt's answer goes through the termination result parser, whose verdict becomes `isComplete`. The prompts' answers and the agent's messages are inputs (`Turn` values); every message is logged, and only the visible ones (not function calls and results) are yielded. The strategy settings the session passes to it are recorded as constants: a history window of 2, at most 5 iterations, automatic reset, and no agent allow-list.

Files, one module each: `common.dfy` (Option/Result/Outcome), `queries.dfy` (the LINQ operators `Where`, `Any`, `SingleOrDefault`), `models.dfy` (records), `data_loader.dfy`, `controllers.dfy`, `terminating_filter.dfy`, `flight_group_chat.dfy`.

`SingleOrDefault` is written the way LINQ evaluates it: find the first match, then look for another match in the rest. It is proved against the reference definition `Where`: no match gives the default (null), exactly one match gives that element, and two or more throw. The controllers and the airport lookups inherit their contracts from it.

## Model

| member | source | states |
|---|---|---|
| `Queries.SingleOrDefault` | FlightInfoService/Controllers/FlightsController.cs:28 | null exactly when nothing matches; the element exactly when it is the only match; failure exactly when two or more elements match |
| `DataLoading.ParseDistanceType` | FlightInfoService/DataLoader.cs:164-180 | `"Short Haul >1500Mi"`, `"Medium Haul <3000Mi"` and `"Long Haul <6000Mi"` give ShortHaul, MediumHaul and LongHaul; any other text, null or a case variant included, throws with that text |
| `DataLoading.DistanceTypeTextInjective` | FlightInfoService/DataLoader.cs:166-177 | each distance category is accepted from exactly one text |
| `DataLoading.ParseEnumIgnoreCase` | FlightInfoService/DataLoader.cs:151-159 | succeeds exactly when some member name equals the text ignoring case, and returns that member's value; null or no match throws with the text |
| `DataLoading.ParseEnumIgnoresCase` | FlightInfoService/DataLoader.cs:153 | two texts that differ only in case both parse to the same value or both fail |
| `DataLoading.ParseEnumRoundTrip` | FlightInfoService/DataLoader.cs:153-156 | any casing of a member's name parses to that member's value |
| `DataLoading.FindAirport` | FlightInfoService/DataLoader.cs:103-107 | the airport lookup yields the one airport with the row's code, or null when none has it; it fails exactly when the code is carried by two or more airports |
| `DataLoading.ConvertWeatherRow` | FlightInfoService/DataLoader.cs:88-108 | a weather row keeps its code and date and references the airport its code resolves to; it fails exactly when that code is ambiguous |
| `DataLoading.ConvertFlightRow` | FlightInfoService/DataLoader.cs:111-146 | a flight row succeeds exactly when both airport codes are unambiguous and both converters accept their columns; the record keeps its keys, its two airport references resolve, and its enum fields are what the converters return |
| `DataLoading.ReadRecords` | FlightInfoService/DataLoader.cs:55 | reading a file converts every row in order; it fails with the error of the first row that fails |
| `DataLoading.WeatherReadResolves` | FlightInfoService/DataLoader.cs:101-107 | every weather record read against an airport list references only the airport its code resolves to in that list |
| `DataLoading.FlightsReadResolves` | FlightInfoService/DataLoader.cs:119-133 | every flight read against an airport list references only the departure and arrival airports its codes resolve to in that list |
| `DataLoading.DataLoader.constructor` | FlightInfoService/DataLoader.cs:13-15 | the three static lists start empty |
| `DataLoading.DataLoader.LoadAirports` | FlightInfoService/DataLoader.cs:39-47 | the airport list becomes the file's rows |
| `DataLoading.DataLoader.LoadWeather` | FlightInfoService/DataLoader.cs:49-57 | the weather list becomes the file read against the current airports; on failure it keeps its old value |
| `DataLoading.DataLoader.LoadFlights` | FlightInfoService/DataLoader.cs:59-72 | the flight list becomes the file read against the current airports; on failure it keeps its old value |
| `DataLoading.DataLoader.Load` | FlightInfoService/DataLoader.cs:17-22 | airports are loaded first. Weather and flights are then read against the new airport list, so every reference they hold resolves in it. A failing weather read skips the flight read |
| `Controllers.AirportsController.GetAll` | FlightInfoService/Controllers/AirportsController.cs:19-22 | Ok with the injected collection, unfiltered |
| `Controllers.AirportsController.Get` | FlightInfoService/Controllers/AirportsController.cs:25-34 | Ok with the single airport whose code is the key; NotFound exactly when no airport has the code; failure exactly when the code is duplicated |
| `Controllers.FlightsController.GetAll` | FlightInfoService/Controllers/FlightsController.cs:19-22 | Ok with the injected collection, unfiltered |
| `Controllers.FlightsController.Get` | FlightInfoService/Controllers/FlightsController.cs:26-35 | Ok with the single flight matching both date and tail number; NotFound exactly when none matches both; failure exactly when several match |
| `Controllers.WeatherController.GetAll` | FlightInfoService/Controllers/WeatherController.cs:19-22 | Ok with the injected collection, unfiltered |
| `Controllers.WeatherController.Get` | FlightInfoService/Controllers/WeatherController.cs:26-35 | Ok with the single record matching both airport code and date; NotFound exactly when none matches; failure exactly when several match |
| `Controllers.AirportsGetFindsEach` | FlightInfoService/Controllers/AirportsController.cs:27-33 | with unique codes, every airport of the collection is returned for its own code |
| `Controllers.FlightsGetFindsEach` | FlightInfoService/Controllers/FlightsController.cs:28-34 | with unique (date, tail number) keys, every flight is returned for its own key |
| `Controllers.WeatherGetFindsEach` | FlightInfoService/Controllers/WeatherController.cs:28-34 | with unique (code, date) keys, every weather record is returned for its own key |
| `Filters.TerminatingFilter.constructor` | FlightChat/Filters/TerminatingAutoFunctionInvocationFilter.cs:7-12 | the name set is the set of the constructor's arguments, duplicates collapsed; it is a constant |
| `Filters.InvocationContext.RunNext` | FlightChat/Filters/TerminatingAutoFunctionInvocationFilter.cs:16 | the rest of the pipeline is recorded as run once, and `Terminate` is whatever it left |
| `Filters.TerminatingFilter.OnAutoFunctionInvocation` | FlightChat/Filters/TerminatingAutoFunctionInvocationFilter.cs:14-22 | the pipeline runs exactly once, before the check. Afterwards `Terminate` is true exactly when the pipeline left it true or the function name is in the set (exact comparison). The filter never clears it |
| `GroupChat.AgentGroupChat.constructor` | FlightChat.GroupChat/FlightGroupChat.cs:102-109 | the chat keeps the given agents in order and the given selection and termination settings; its history is empty and it is not complete |
| `GroupChat.AgentGroupChat.AddChatMessage` | FlightChat.GroupChat/FlightGroupChat.cs:42 | the history gains the message at its end; completion is unchanged |
| `GroupChat.AgentGroupChat.AddChatMessages` | FlightChat.GroupChat/FlightGroupChat.cs:48 | the history gains the messages, in order, at its end; completion is unchanged |
| `GroupChat.AgentGroupChat.ResetIfAutomatic` | FlightChat.GroupChat/FlightGroupChat.cs:163 | at the start of an invocation the chat stays complete only when it was complete and the termination strategy does not reset automatically |
| `GroupChat.AgentGroupChat.RecordVerdict` | FlightChat.GroupChat/FlightGroupChat.cs:156 | the chat is complete exactly when the termination parser's verdict says so |
| `GroupChat.FlightGroupChat.constructor` | FlightChat.GroupChat/FlightGroupChat.cs:29-37 | no chat yet, no handler on any of the three events, nothing delivered, and a forced-termination filter for `ExecuteODataQuery` only |
| `GroupChat.FlightGroupChat.AttachResponseHandler` | FlightChat.GroupChat/FlightGroupChat.cs:20 | the response event has a handler afterwards; the other two events keep theirs |
| `GroupChat.FlightGroupChat.AttachSelectionHandler` | FlightChat.GroupChat/FlightGroupChat.cs:21 | the selection event has a handler afterwards; the other two events keep theirs |
| `GroupChat.FlightGroupChat.AttachTerminationHandler` | FlightChat.GroupChat/FlightGroupChat.cs:22 | the termination event has a handler afterwards; the other two events keep theirs |
| `GroupChat.FlightGroupChat.Initialize` | FlightChat.GroupChat/FlightGroupChat.cs:88-111 | builds the chat only when there is none. The new chat is fresh, not complete, and has the query builder (bound to the metadata document), the chart visualiser and the markdown formatter, in that order, plus the configured selection and termination settings. Once a chat exists, it is kept and its history is unchanged |
| `GroupChat.FlightGroupChat.AddChatMessage` | FlightChat.GroupChat/FlightGroupChat.cs:39-43 | the chat exists afterwards (a new one is fresh, with the session's agents, and not complete; an existing one keeps its completion), and the history gains exactly one user message with the given text at its end |
| `GroupChat.FlightGroupChat.AddChatMessages` | FlightChat.GroupChat/FlightGroupChat.cs:45-49 | as `AddChatMessage`, with all the messages appended in order and earlier history unchanged |
| `GroupChat.FlightGroupChat.StartGroupChat` | FlightChat.GroupChat/FlightGroupChat.cs:51-62 | builds the chat when missing, then runs exactly the turns up to the first one that completes the chat or whose result parser throws, over as many invocations as that takes. It returns normally exactly when the chat is then complete, and with the parser's exception otherwise. The history gains every message those turns logged, and the handlers receive, turn by turn, the selection decision, the yielded responses and the termination decision |
| `GroupChat.FlightGroupChat.RunUntilComplete` | FlightChat.GroupChat/FlightGroupChat.cs:55-61 | the do/while loop invokes the chat again while it is not complete; it stops after the first stopping turn and not before, with that turn's outcome, and the log and events are those of exactly these turns |
| `GroupChat.FlightGroupChat.InvokeOnce` | FlightChat.GroupChat/FlightGroupChat.cs:57 | one invocation: after the automatic reset, at least one and at most five turns. It ends early only at the run's first stopping turn, with that turn's outcome, the chat complete exactly when the outcome is normal; when it reaches the cap first, the chat is not complete and the outcome is normal. The log and events grow by exactly the turns taken |
| `GroupChat.FlightGroupChat.InvokeTurn` | FlightChat.GroupChat/FlightGroupChat.cs:57 | a turn before the run's first stopping turn lets the invocation go on with the chat incomplete; the first stopping turn stops it with that turn's outcome |
| `GroupChat.ProgressStep` | FlightChat.GroupChat/FlightGroupChat.cs:55-61 | a false verdict before the first stopping turn goes on; a true verdict stops with the chat complete and a normal outcome; a parser exception stops with that exception and the chat incomplete |
| `GroupChat.FlightGroupChat.TakeTurn` | FlightChat.GroupChat/FlightGroupChat.cs:57 | the next turn of a run extends the run's log and events by that turn's part and returns its verdict |
| `GroupChat.FlightGroupChat.RunTurn` | FlightChat.GroupChat/FlightGroupChat.cs:132-157 | the turn's verdict is the termination parser's answer, or the first parser exception (no agent runs after a failed selection); completion changes only with a verdict; the history gains the agent's logged messages, and the events are the selection decision, the yielded responses, then the termination decision |
| `GroupChat.FlightGroupChat.RunAgent` | FlightChat.GroupChat/FlightGroupChat.cs:57-60 | every message of the agent is logged in order, each visible one is raised as a response event in order, and completion is unchanged |
| `GroupChat.LoggedAndVisible` | FlightChat.GroupChat/FlightGroupChat.cs:57 | every message the agent produces is logged, in order; at most as many are yielded, all of them when none is hidden and none when all are |
| `GroupChat.ResponseEventsPerMessage` | FlightChat.GroupChat/FlightGroupChat.cs:57-59 | with a handler, exactly one event per yielded message, carrying it, in order; without one, none |
| `GroupChat.TurnEventsInOrder` | FlightChat.GroupChat/FlightGroupChat.cs:132-157 | with all three handlers and well-formed answers, a turn delivers the selection decision first, then one event per yielded response in order, then the termination decision |
| `GroupChat.FirstStop` | FlightChat.GroupChat/FlightGroupChat.cs:55-61 | the first turn that completes the chat or whose parser throws; every earlier turn goes on |
| `GroupChat.CompletedRunEndsWithVerdict` | FlightChat.GroupChat/FlightGroupChat.cs:155-156 | for a handler of the termination event, a run that completes the chat ends with a termination event whose decision is to terminate |
| `GroupChat.FlightGroupChat.OnGroupChatResponseGenerated` | FlightChat.GroupChat/FlightGroupChat.cs:64-70 | no handler: nothing happens; otherwise the argument is delivered unchanged |
| `GroupChat.FlightGroupChat.OnGroupChatSelectionStrategyResult` | FlightChat.GroupChat/FlightGroupChat.cs:72-78 | no handler: nothing happens; otherwise the argument is delivered unchanged |
| `GroupChat.FlightGroupChat.OnGroupChatTerminationStrategyResult` | FlightChat.GroupChat/FlightGroupChat.cs:80-86 | no handler: nothing happens; otherwise the argument is delivered unchanged |
| `GroupChat.FlightGroupChat.SelectionResultParser` | FlightChat.GroupChat/FlightGroupChat.cs:132-137 | a parsed answer is relayed as a selection event and its `NextAgent` is returned. A JSON `null` is relayed as null and then fails. Malformed JSON fails with no event |
| `GroupChat.FlightGroupChat.TerminationResultParser` | FlightChat.GroupChat/FlightGroupChat.cs:152-157 | a parsed answer is relayed as a termination event and its `ShouldTerminate` is returned. A JSON `null` is relayed as null and then fails. Malformed JSON fails with no event |

## What the code does not do

- **No per-session mutual exclusion.** `FlightGroupChat` takes no lock, so two concurrent `StartGroupChat` calls on one session are not excluded. None is modelled.
- **No agent-name check in the wrapper.** The selection parser returns `NextAgent` unchecked; resolving the name to an agent is left to the library.
- **No skipped termination step.** The filter only sets `Terminate` on the function-invocation context; it does not stop the termination prompt from being consulted for that turn.
- **No termination event at the iteration cap.** Termination events come only from the termination result parser, that is, only when the termination prompt is actually consulted; reaching the five-turn cap raises none.
- **No reinitialisation.** Nothing resets the session: once `_chat` is set, `Initialize` keeps it.

## Left out

- Semantic Kernel internals are not modelled, since their source is not part of this model. The model assumes the turn structure described above: select, run the agent, consult the termination prompt after every agent (the session passes no allow-list), with at most five turns per invocation and a reset of completion at the start of each. How the prompts are rendered, the truncation reducer, how an agent decides which messages to produce, and what the kernel does once `Terminate` is set are inputs or not modelled.
- The library's resolution of `NextAgent` to one of the chat's agents, and its failure on an unknown name, are not modelled: the turn supplies the messages of whichever agent runs.
- The library's refusal to invoke a chat that is already complete without automatic reset is not modelled; the session always resets automatically.
- GroupChat.FlightGroupChat.StartGroupChat: requires that some supplied turn completes the chat or makes a parser throw. Nothing in the source guarantees this: the five-turn cap only ends one invocation and leaves the chat incomplete, and the do/while loop invokes again, so if the termination prompt never answers true and no parser throws, the source re-invokes forever.
- Failures inside the library chat (model or tool errors during `InvokeAsync`) are not modelled.
- JSON deserialisation is not modelled: each parser takes its outcome as a `Deserialized` value (record, JSON `null`, or thrown exception).
- `GetODataEDMAsync` (an HTTP GET) is not modelled; the metadata document is a parameter of `Initialize`. Reading the YAML prompt files and `GetPath` are not modelled either: agents are identified by their template paths.
- `FlightGroupChat.cs:13` imports a `FlightChat.GroupChat.Filters` filter whose source is not part of this model. The constructor uses the `FlightChat` filter modelled here, which has the same name.
- Event handlers: one flag per event says whether any handler is attached; handlers are only ever attached (`+=`), as the callers do. How many handlers there are, what they do (console printing, SignalR broadcasts) and exceptions they throw are not modelled.
- DataLoading.ParseEnumIgnoreCase: does not model `Enum.TryParse`'s acceptance of numeric text, its trimming of white space, comma-separated flag lists, or case folding beyond ASCII letters. It also does not say which member wins when two names are equal ignoring case.
- The `DepartureTimeOfDay` enumeration's declaration is not part of this model; its members are a parameter of the flight conversion.
- Reading the CSV files (`StreamReader`, CsvHelper's parsing of dates and numbers, header handling) is not modelled: each file is given as parsed rows. Columns that are only copied, and the floating-point weather and coordinate fields, are not modelled.
- The trivial getters `GetAirports`, `GetWeather` and `GetFlights` are left out; the loader's fields are read directly.
- The OData `[EnableQuery]` filtering and paging of controller results is library code and is not modelled.
- The console workers, the SignalR hub, the plugin's HTTP, file and process calls, and both programs' host setup are not part of this model. They are I/O and wiring.

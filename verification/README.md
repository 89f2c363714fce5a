# Rudra 3 orchestration core in Dafny

A model of the orchestration core of the Rudra 3 desktop assistant
(`rudra3.py`). A user message is first recorded in the memory document. The
router then asks a text model whether to answer the message or to plan it.
An answer is recorded and forwarded to the callback. A plan is run action by
action through the automation executor's dispatch table, and its
serialisation is recorded as the assistant's turn. The model also covers:

- the memory document, which keeps the most recent 50 chat entries and a
  knowledge list where the first writer of a query wins;
- the background monitor's start/stop flag.

Modules:

| module | file | what it holds |
|---|---|---|
| `Wrappers` | wrappers.dfy | `Option` |
| `Json` | json.dfy | parsed values; `dict.get`, iteration and `str()`/`repr()` of a dict whose text repeats a key (each key once, at its first position, with its last value); truthiness; `for x in v` |
| `Text` | text.dfy | `str.strip` over Python's whitespace set, `upper`, `startswith`, `split(sep, 1)[1]` |
| `Memory` | memory.dfy | `MemoryAgent`: load, save, `add_chat`, `compact`, `add_knowledge` |
| `Router` | router.dfy | `RouterAgent.route` and the stub text model |
| `Automation` | automation.dfy | `Tools.click`'s choice of target and `AutomationAgent.execute` |
| `Monitor` | monitor.dfy | `MonitorAgent.start` / `stop` |
| `Orchestrator` | orchestrator.dfy | `process_message` |

Outside collaborators are parameters, never implemented:

- The text model is a function `string -> string`.
- `json.loads` is a function `string -> Option<...>`, returning `None` where it raises.
- `json.dumps` is a function `Json -> string`.
- The clock readings are `real` arguments.
- Each action's environment is an `Env`. It holds the base directory and the
  time stamp used in file names. It also holds what the vision step returns,
  and whether speaking raised.

Each full rewrite of the memory file is kept as an entry in the `writes` log
of `MemoryAgent`. Each tool request and each notification is an event in
the turn's trace.

Behaviours of the code that the model keeps:

- `execute` can raise in three ways:
  - an action that is not a dict has no `.get` (AttributeError);
  - a vision task raises when its screenshot was not written, because the
    image is read back at `rudra3.py:182`;
  - `speak_text` guards only its `say` attempt, so a failure of the pyttsx3
    fallback escapes it (`rudra3.py:268-273`).

  Each of these exceptions escapes `process_message`. The rest of the plan is
  then skipped, and no assistant turn is recorded.
- The plan is whatever the `"actions"` key holds, and it is iterated the
  Python way:
  - a list yields its items;
  - a string yields its characters, each of which makes `execute` raise;
  - a dict yields its keys;
  - anything else raises TypeError.
- The knowledge list is deduplicated only by `add_knowledge`. A loaded
  document may already hold duplicates, so distinctness is preserved but not
  established.
- Persistence has no mutual exclusion.
- The click notification quotes the coordinates it was given, even when
  `Tools.click` fell back to the current cursor position because one
  coordinate is falsy (`Automation.ClickNoteMayNameUnusedPosition`).

## Model

| member | source | states |
|---|---|---|
| Json.LookupFindsLastBinding | rudra3.py:193-194 | `dict.get` finds nothing exactly when no pair has the key; otherwise it returns the value of the last pair with that key |
| Json.Iterate | rudra3.py:293 | `for action in actions` yields a list's items, a string's one-character strings and a dict's keys in the order each key first appears; it raises exactly for None, booleans and numbers |
| Json.IterateDictKeys | rudra3.py:293 | iterating a dict yields every key of the object, each exactly once, and only keys that `dict.get` finds |
| Json.KeyPositionsAreFirstOccurrences | rudra3.py:293 | the positions a dict keeps are exactly the first occurrences of its keys, in increasing order |
| Json.LastWithIsLast | rudra3.py:193-194 | no pair after the one `dict.get` reads has the same key |
| Json.RepeatedKeyKeepsFirstPlaceLastValue | rudra3.py:199 | `str()` of the object `{"a": 1, "b": 2, "a": 3}` is `{'a': 3, 'b': 2}`, and iterating it yields "a" then "b" |
| Json.NullResultText | rudra3.py:186-189 | the vision result `{"result": null}` prints as `{'result': None}`, the text every vision notification of the stub backend carries |
| Json.NatToStringRoundTrip | rudra3.py:204 | the decimal text an f-string prints for a non-negative coordinate reads back as the same number |
| Json.IntToStringRoundTrip | rudra3.py:204 | the text `str()` prints for any integer, negative ones with their "-", is read back by `int()` as the same number |
| Json.Str | rudra3.py:199-225 | in a notification, a string value appears as itself, None as "None", booleans as "True"/"False", and an integer as its decimal text (`IntToString`, whose round trip is `IntToStringRoundTrip`) |
| Json.FalsyValues | rudra3.py:132 | a value is falsy exactly when it is None, False, 0, or an empty string, list or dict |
| Text.TrimStart | rudra3.py:169 | `lstrip` removes a prefix made only of whitespace and stops at a non-space character |
| Text.TrimEnd | rudra3.py:169 | `rstrip` removes a suffix made only of whitespace and stops after a non-space character |
| Text.StripUnique | rudra3.py:169 | any substring with only whitespace around it and no whitespace at its two ends is exactly what `strip()` returns |
| Text.AfterFirst | rudra3.py:169 | `split(":", 1)[1]` fails exactly when there is no ':'; otherwise it is the text after the first ':' |
| Memory.Load | rudra3.py:71-81 | a missing or unparsable memory file leaves the empty document; a parsable one is used as it stands; loading writes nothing |
| Memory.ReloadAfterSave | rudra3.py:76-88 | after a save, loading the file as last written gives back the in-memory document, whenever parsing undoes `json.dumps` on it |
| Memory.Save | rudra3.py:83-88 | a save rewrites the whole current document once and changes nothing in memory; afterwards the file holds the document as it stands |
| Memory.Compact | rudra3.py:97-98 | the history keeps its last min(n, 50) entries in order |
| Memory.AddChat | rudra3.py:90-95 | the history is the last at most 50 entries of old history plus the new entry; the new entry is last; nothing is dropped while under 50; knowledge is untouched; the compacted document is saved once |
| Memory.AddChatsKeepsMostRecent | rudra3.py:90-98 | after any non-empty run of `add_chat` calls the history equals one compaction of everything appended, so compacting after every append loses nothing a final compaction keeps |
| Memory.CompactEachIsCompact | rudra3.py:97-98 | compacting after every append gives the same history as compacting once at the end |
| Memory.AddChatsFrame | rudra3.py:90-95 | a run of `add_chat` calls leaves knowledge unchanged and saves once per call |
| Memory.AnyQueryIsKnown | rudra3.py:102 | the `any(...)` scan is true exactly when some stored entry has the query |
| Memory.AddKnowledge | rudra3.py:100-104 | a known query leaves the memory and the write log exactly unchanged; a fresh one is appended once at the end with chat history kept and one save; pairwise-distinct queries stay distinct; the query is known afterwards |
| Memory.FirstWriterWins | rudra3.py:100-104 | after storing a fresh query, a second `add_knowledge` for it with any plan changes nothing, and the stored plan is the first one |
| Memory.AddKnowledgeKeepsRecall | rudra3.py:100-104 | the plan recalled for an already known query is the same after any `add_knowledge` |
| Router.IsCommandByCharacters | rudra3.py:167 | the marker test holds exactly when the first eight characters upper-case to "COMMAND:" |
| Router.MarkerPayload | rudra3.py:167-169 | when the marker is present, the text after the first ':' is everything after the eight-character marker |
| Router.Decide | rudra3.py:167-174 | without the marker, the reply is the answer unchanged; a plan results exactly when the stripped payload parses to an object; the plan is its "actions" value, or an empty list; every other outcome is the raw reply as the answer |
| Router.StubAlwaysAnswers | rudra3.py:109-111 | with the stub text model every message is answered with the stub's reply and never planned |
| Router.LowerCaseMarkerIsCommand | rudra3.py:167 | a marker written in lower case is recognised |
| Router.DecisionDependsOnPayload | rudra3.py:167-171 | two marked replies with the same payload, however the marker is cased, are either both planned or both answered; when planned, the plans are equal (when answered, each answer is its own raw reply) |
| Automation.ClickTarget | rudra3.py:130-140 | the click uses the given position exactly when both coordinates are truthy in Python's sense (`Truthy`), and the current cursor position otherwise |
| Automation.Perform | rudra3.py:197-225 | the selected branch raises exactly for a vision task whose screenshot cannot be read back and for speech whose fallback fails; otherwise it sends one notification |
| Automation.Dispatch | rudra3.py:192-225 | an action raises exactly when it is not a dict, is a vision task whose screenshot cannot be read, or is a speech whose fallback fails; otherwise it sends exactly one notification |
| Automation.DispatchTable | rudra3.py:192-225 | for each `type` string (open_app, click with and without a dict value, vision_task, speak, screenshot, anything else), the exact tool effects in order and the exact notification text |
| Automation.ClickActionTarget | rudra3.py:201-204 | a click with a dict value always reports "Clicked at x,y" with the given coordinates; it clicks at them exactly when both are truthy, and at the cursor exactly when not |
| Automation.Execute | rudra3.py:192-225 | an execution that completes sends exactly one notification with a callback and none without one (one that raises sends none); the tool effects and whether it raises do not depend on the callback |
| Automation.ExecuteWithCallback | rudra3.py:294 | executed with the callback, an action does exactly what the dispatch table gives |
| Automation.NoteIdentifiesRow | rudra3.py:197-225 | each notification text can only come from the dispatch-table row that selected it |
| Automation.UnknownTypeHasNoEffect | rudra3.py:224-225 | an unknown action type touches no tool and its notification names the type |
| Automation.ClickNoteMayNameUnusedPosition | rudra3.py:201-204 | `{"x": 0, "y": 200}` clicks at the current cursor position yet reports "Clicked at 0,200" |
| Monitor.Start | rudra3.py:252-255 | start is a no-op while running; otherwise it sets the flag and schedules exactly one loop task |
| Monitor.Stop | rudra3.py:257-258 | stop only clears the flag; scheduled tasks are not touched |
| Monitor.StartIdempotent | rudra3.py:252-255 | a second start changes nothing and schedules no extra task |
| Monitor.ScheduledCountsEffectiveStarts | rudra3.py:252-258 | over any sequence of calls, one task is scheduled for each start that finds the monitor stopped, and the flag ends as the last call left it |
| Monitor.RestartSchedulesAgain | rudra3.py:252-258 | stop followed by start schedules a second task; start alone does not |
| Monitor.StartupSchedulesOneLoop | rudra3.py:239-255 | a new monitor is stopped with no task; the start at launch sets the flag and schedules one loop task |
| Orchestrator.FirstRaiseIsFirst | rudra3.py:293-294 | the stopping point of the plan is its first action that raises; every earlier action completes |
| Orchestrator.RunPlan | rudra3.py:293-294 | the loop completes exactly when no action raises; the trace is each executed action's tool effects followed by its notification, action after action up to the end or up to and including the first raising action, whose effects happened but which sends nothing |
| Orchestrator.OutcomeEventsCarry | rudra3.py:192-225 | one execution's events hold its tool effects, and its notes exactly when it completes |
| Orchestrator.EffectsOfRunEvents | rudra3.py:293-294 | the tool requests of the loop are the executed actions' effects, concatenated in plan order |
| Orchestrator.RaisingStep | rudra3.py:293-294 | an action that raises ends the loop right after its own events |
| Orchestrator.CompletingStep | rudra3.py:293-294 | an action that completes is followed by the rest of the loop |
| Orchestrator.RunPlanInOrder | rudra3.py:293-294 | the same statement per action index: action k's notification is the k-th one sent, and after a raise, exactly the actions before it completed |
| Orchestrator.PlanNotesInOrder | rudra3.py:293-294 | when every action completes, there is one notification per action, in plan order |
| Orchestrator.AnswerTurn | rudra3.py:287-290 | an answer is recorded as the assistant turn, then sent to the callback once, touching no tool |
| Orchestrator.PlanTurn | rudra3.py:291-295 | a non-iterable plan raises before any action; the trace is each executed action's tool requests followed by its notification, action after action, and then, only when every action completed, the save of the assistant turn; the tool requests are the executed actions' effects in plan order; a raising action leaves memory at the user turn; a completed plan sends the actions' notifications in order and then records `json.dumps` of the plan, saving last |
| Orchestrator.AfterPlan | rudra3.py:295 | the assistant turn is recorded, and its save appended after the loop's events, only when the loop completed; no tool is touched |
| Orchestrator.Reply | rudra3.py:286-295 | the answer branch saves the answer and only then sends it; the plan branch's trace is the loop's per-action events followed by the assistant turn's save when it completed; the plan branch touches exactly the executed actions' tools and completes exactly when the plan iterates and no action raises |
| Orchestrator.ProcessMessage | rudra3.py:283-295 | the first event is the save of the user turn; knowledge is untouched; the history stays within 50 entries; an answer is recorded and sent once with no tool effect; a plan issues exactly the tool requests of the actions executed, in plan order, and completes exactly when it iterates and no action raises; a completed plan notifies in plan order and records its serialisation; an exception leaves only the user turn; two saves if completed, otherwise one |
| Orchestrator.ProcessMessageTrace | rudra3.py:283-295 | the whole trace in order: the user turn's save; then either the answer's save followed by its one notification, or, for a plan, each executed action's tool requests and notification before the next action, followed by the assistant turn's save only when all completed; a non-iterable plan leaves only the user turn's save |
| Orchestrator.AnswerMessageTrace | rudra3.py:284-290 | an answered message saves the user turn, saves the answer, and only then sends it |
| Orchestrator.PlanMessageTrace | rudra3.py:284-295 | a planned message saves the user turn, streams each action's events in plan order, and saves the assistant turn last, only when every action completed |
| Orchestrator.EmptyPlanRunsNothing | rudra3.py:293-294 | an empty plan executes nothing and sends nothing, yet the loop completes |
| Orchestrator.EmptyPlanTurn | rudra3.py:292-295 | the plan branch of an empty plan completes with one event, the save recording `json.dumps` of the empty plan as the assistant turn |
| Orchestrator.TwoActionPlan | rudra3.py:293-294 | a two-action plan whose actions both complete runs both, with the first action's effects and notification before the second's |
| Orchestrator.OpenThenClickPlan | rudra3.py:293-294 | the plan [open_app "Chrome", click {x: 100, y: 200}] launches Chrome and then clicks at (100, 200), notifying "Opened Chrome" then "Clicked at 100,200" |

## Left out

- Logger output, its trace ids and timestamps, and the `errors` / `commands_executed` counters (rudra3.py:39-67): these are I/O and nondeterministic values.
- The `Tools` subprocess and pyautogui calls, `camera_capture`, `detect_frontmost_app` and `speak_text`: these are foreign OS calls, modelled only as `Effect` events. The `Tools` methods catch every failure and never raise, so no failure is modelled for them. `speak_text` can raise from its pyttsx3 fallback; only whether it raised is modelled, as `Env.speech`.
- `VisionAgent.analyze`: the capture, the file read and the vision backend are summarised by `Vision`. That value is either the analysed result or a failed read of the screenshot.
- `IdentityAgent`: not part of the orchestration core.
- The monitor loop body, its 15-second sleep, `cli_loop` and `main`: these are timing, concurrency and console input. `Monitor` counts the tasks scheduled instead.
- Real JSON parsing and serialisation, and the file reads and writes in `_load` / `save`: these are library calls passed in as functions. Whether a write succeeds is not modelled. A failed write changes nothing in memory, which is what the model keeps.
- Memory.Load: the parser is given as returning a `Document`, so a memory file that parses to JSON of another shape is not modelled. In the source that later raises at `data["chat_history"]`.
- Concurrent `process_message` calls and interleaving with the monitor: the model is sequential. There is no lock to model.
- Floating-point numbers in JSON: `JNum` holds integers only.
- Json.Str: `repr` of a string does not model Python's escaping of quotes and control characters.
- Text.Upper: upper-cases ASCII letters only, and does not model Python's full Unicode case mapping.
- Router.Route: it composes the text model with `Decide` and has no contract of its own. Its properties are stated on `Decide` and `StubAlwaysAnswers`.
- Awaiting the callback, which may itself raise: the callback is modelled as recording notifications only.

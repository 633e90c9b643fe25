# Saving Giovanni — a Dafny model of the conversation game

The game is a web application. The player walks a technology conference
and talks to ten NPCs. The goal is to convince every one of them that AI
is not a bubble.

Each NPC moves through conversation phases:

- `initial`;
- `ai_opinion`, after it is asked whether it knows Giovanni;
- `argument_phase`, after it is asked its opinion on the AI bubble;
- `safe`.

Its status (`unknown`, `needs_convincing`, `safe`) follows its phase. A
resistance counter counts the regular arguments it still needs. The
one-shot special argument "chicoteia" wins on a coin flip. The game is
won when every NPC is safe.

The model covers these parts of the program:

- **`GameState`** (`game_logic.py`): the state machine. Each Python
  method that mutates the game becomes a pure function. It takes the old
  state and returns the new state together with the method's reply.
- **Roster and catalog** (`npc_data.py`): the ten NPCs and the nineteen
  arguments, written out as constants.
- **`AIEngine`** (`ai_engine.py`), the pure parts:
  - the system prompt built from an NPC and its phase;
  - the message list of a chat completion;
  - the fallbacks used when the completion service fails.
- **Request handlers** (`app.py`): each handler is a function from the
  session to the session it leaves and its reply. The session is the
  player's game, or nothing before `start_game`.

On top of these sit the proof modules:

- **`Invariants`**: the invariant of every game a player can reach, and
  what follows from it.
- **`Scenarios`** and **`Playthroughs`**: whole sequences of requests.
  They show that the game can be won. They also show that the stored win
  flag can disagree with the NPCs in both directions.

Randomness and the completion service are parameters. The three random
choices are:

- the greeting, `Choice4`;
- the 50% coin, `coin`;
- the picks of `random.sample`, `draws`.

The service's answer is an `Option<string>` or a function from the
message list to one. `None` stands for a failed call.

A Python `KeyError` becomes `Raised(KeyError(id))`. A handler that lets
it escape does not write the session back, so the session stays as it
was loaded.

Files, in dependency order:

| file | contents |
|---|---|
| `wrappers.dfy` | `Option`, `Result`, the Python errors, `Choice4` |
| `text.dfy` | ASCII lower-casing, `strip`, infix search, decimal rendering |
| `seqs.dfy` | sequences without repetitions, removal at an index |
| `npc_data.dfy` | `NPCS` and `ARGUMENTS` |
| `game_logic.dfy` | `GameState` and its operations |
| `ai_engine.dfy` | prompt building, message lists, fallbacks |
| `app.dfy` | the handlers, `Request`, `Next` and `Run` |
| `invariants.dfy` | the invariant of reachable games and its consequences |
| `scenarios.dfy` | convincing one NPC, or a list of NPCs, by requests |
| `playthroughs.dfy` | whole games against the real roster |

## Behaviour worth knowing

These follow from the code as written, and the model keeps them.

- **Phases can go backwards.** `ask_about_giovanni` is not gated by phase
  (`game_logic.py:49-61`). Asking an NPC that knows Giovanni again moves
  it from `safe` back to `ai_opinion`/`needs_convincing`.
  - `Playthroughs.SafeNpcRegresses` exhibits this.
  - So does `Playthroughs.AskAgain`.
- **The win flag can be stale.** Only `make_argument` recomputes
  `game_won` (`game_logic.py:146`), and `static/js/game.js:488` shows the
  win screen from that flag alone.
  - The game can end with every NPC safe and the flag false. This happens
    when the last NPC to be persuaded is persuaded by questions alone
    (`Playthroughs.WinFlagLags`).
  - The flag can stay true after an NPC is unconvinced again
    (`Playthroughs.WinFlagOutlivesWin`).
- **Unknown NPCs raise.** Only `chat` checks for an unknown NPC and
  answers "NPC not found" (`app.py:123-125`). Every other handler lets the
  state machine's `KeyError` escape, which the model shows as a server
  error with the session unchanged.
- **The chat window counts every entry.** `generate_npc_response` keeps
  the last five raw history entries and only then drops those that are
  not chat turns (`ai_engine.py:22-26`). Other entries can therefore push
  chat turns out (`AiEngine.OtherEntriesCrowdOutTurns`).

## Model

| member | source | states |
|---|---|---|
| GameLogic.BuildNpcs | game_logic.py:7 | The dictionary's keys are exactly the ids of the roster entries. Its iteration order lists exactly those keys. |
| Invariants.BuildNpcsSpec | game_logic.py:7 | The iteration order never lists a key twice. Each value is the initial record of a roster entry with that id. |
| Invariants.NewGameRoster | game_logic.py:6-19 | A fresh game holds the ten roster NPCs, keyed by id, in roster order. Each is unmet: unknown status, no arguments used, chicoteia unused, initial phase. There is no current NPC, no history, and the game is not won. |
| GameLogic.StartConversation | game_logic.py:25-47 | An unknown id raises KeyError. Otherwise the NPC becomes the current one. Its history is created empty only if it is missing. No NPC changes. The reply carries the NPC, its phase and one of its four greetings. |
| GameLogic.AskAboutGiovanni | game_logic.py:49-72 | This works from any phase. Errors: KeyError for an unknown id, or for a missing history. An NPC that knows Giovanni goes to ai_opinion/needs_convincing and answers "Sim, conheço Giovanni! ..." with its relationship. Any other NPC goes to safe/safe and answers with its relationship line verbatim. Exactly one giovanni_question entry is logged. Nothing else changes, including the win flag. |
| GameLogic.AskAiBubbleOpinion | game_logic.py:74-95 | Outside ai_opinion, the call refuses and leaves the game as it was. A believer in the bubble moves to argument_phase and keeps its status. Any other NPC becomes safe. Nothing is logged and the win flag is not recomputed. |
| GameLogic.CheckWinCondition | game_logic.py:155-158 | Counting the safe NPCs sets the flag exactly when every NPC is safe. Nothing else changes. |
| GameLogic.SafeIdsFull | game_logic.py:157-158 | The safe count equals the number of NPCs if and only if every NPC is safe. |
| GameLogic.RecordArgument | game_logic.py:138-153 | The log step raises KeyError when the history is missing. Otherwise it appends one argument entry and installs the new NPC record. The win flag is then recomputed to "all safe". The reply reports the new phase and status. |
| GameLogic.MakeArgument | game_logic.py:97-153 | Errors: KeyError for an unknown id, and for a missing history on an accepted argument. Outside argument_phase, or on a second chicoteia, the call refuses and nothing changes. A first chicoteia marks the special argument as used; the coin alone decides success, and resistance and arguments are untouched. A regular argument is recorded and wears one point off the resistance, never below zero. It succeeds exactly when the resistance reaches zero. In both cases success means phase and status become safe. One argument entry is logged and the win flag becomes "all safe". |
| GameLogic.WithStatus | game_logic.py:162-164 | Each filtered list holds exactly the NPCs with that status. |
| GameLogic.GetGameStatus | game_logic.py:160-173 | The report returns the stored win flag unrecomputed. The total is the number of NPCs. The safe count is the length of the safe list. Each list holds only NPCs of the game with its status. |
| Invariants.GameStatusPartition | game_logic.py:160-173 | When each NPC is listed once in the iteration order, the report lists each NPC under its status. The three list lengths add up to the total. The safe count reaches the total exactly when every NPC is safe. |
| GameLogic.GetAvailableArguments | game_logic.py:175-177 | The result is the catalog itself, in catalog order: nineteen entries, the special "chicoteia" first. |
| GameLogic.NonSpecialSpec | game_logic.py:181 | The filter keeps exactly the entries that are not special, and never more copies than the catalog has. |
| GameLogic.NonSpecialDistinct | game_logic.py:181 | Filtering a catalog without repetitions gives a pool without repetitions. |
| GameLogic.Sample | game_logic.py:182 | `random.sample` returns k entries taken from the pool, each used at most as often as the pool holds it. From a pool without repetitions it returns distinct entries. |
| GameLogic.SuggestFrom | game_logic.py:179-182 | A negative count raises ValueError. Otherwise the result has min(count, pool size) entries. Each is a regular entry of the catalog. The entries are distinct when the catalog's are. |
| GameLogic.SuggestionPool | game_logic.py:181 | The game's catalog has eighteen regular arguments. |
| GameLogic.GetRandomArguments | game_logic.py:179-182 | For the game's catalog, the result is min(count, 18) distinct regular arguments. A negative count raises. |
| NpcData.RosterIds | npc_data.py:3-124 | The roster's ids, in order. |
| NpcData.RosterIdsDistinct | npc_data.py:3-124 | There are ten NPCs and their ids are pairwise distinct, so the game's dictionary keeps all of them. |
| NpcData.RosterResistanceNonNegative | npc_data.py:3-124 | Every resistance level is a non-negative count. |
| NpcData.RosterStancesClosed | npc_data.py:3-124 | Every stance is "bubble" or "not_bubble". |
| NpcData.AwareSkepticsResistTwice | npc_data.py:3-124 | Every NPC that knows Giovanni and believes in the bubble has a resistance of two or more. |
| NpcData.OneSpecialArgument | npc_data.py:127-242 | The catalog has nineteen entries. Exactly one is special: the first, whose text is "chicoteia". |
| NpcData.CatalogDistinct | npc_data.py:127-242 | No catalog entry is listed twice. |
| AiEngine.MissingPhaseIsInitial | ai_engine.py:62-65 | A missing phase yields the same directive as "initial": the first-meeting lines. |
| AiEngine.UnknownPhaseNoDirective | ai_engine.py:62-86 | A phase the builder does not recognise leaves the base prompt alone. |
| AiEngine.GiovanniCheckDirective | ai_engine.py:67-71 | In giovanni_check, whether the NPC knows Giovanni selects the directive. |
| AiEngine.OpinionDirectiveQuotesRelationship | ai_engine.py:73-78 | In ai_opinion, the prompt contains the NPC's relationship with Giovanni, or the default line when it is missing. It also contains the bubble or the not-bubble directive, according to the stance. |
| AiEngine.ArgumentDirectiveStatesResistance | ai_engine.py:80-81 | In argument_phase, the prompt states in decimal how many arguments are still needed. The number is the resistance level, or 1 when it is missing. |
| AiEngine.HistoryWindow | ai_engine.py:22 | The window is the last five entries of the history, or all of them. |
| AiEngine.ToMessages | ai_engine.py:22-26 | The window becomes at most one turn per entry, and never a system turn. A window with no chat turns becomes no message. |
| AiEngine.ToMessagesAppend | ai_engine.py:22-26 | Converting a history in two pieces gives the same turns as converting it whole. |
| AiEngine.OtherEntriesCrowdOutTurns | ai_engine.py:22-26 | Entries that are not chat turns still take window slots. Five of them after a chat turn push that turn out of the window. |
| AiEngine.WindowEndsWithLastExchange | ai_engine.py:22-26 | After a chat exchange is logged, the next window ends with it: a user turn followed by an assistant turn. |
| AiEngine.ChatMessages | ai_engine.py:19-29 | The message list has between two and seven messages. It opens with the one system message holding the built prompt. It ends with the player's message. In between are exactly the turns of the history window. |
| AiEngine.ChatReplyOrFallback | ai_engine.py:31-43 | A completion is returned stripped. A failure gives one of the four canned chat replies. |
| AiEngine.GenerateNpcResponse | ai_engine.py:12-43 | The completion asked for is that of the message list above. Its answer is stripped. When it fails, the result is one of the four canned replies for the NPC's role. |
| AiEngine.ChatFallbackNamesRole | ai_engine.py:88-98 | The first canned reply names the NPC's role. The other three do not depend on the NPC. |
| AiEngine.GenerateAiBubbleResponse | ai_engine.py:100-137 | A completion is returned stripped. A failure gives one of two canned lines: the bubble line exactly for a believer in the bubble. |
| AiEngine.GenerateCustomResponse | ai_engine.py:139-163 | A completion is returned stripped. A failure gives the one fixed line. |
| AiEngine.GeneratedTextIsTrimmed | ai_engine.py:39-163 | Whenever the completion service answers, the text that reaches the player neither starts nor ends with whitespace: the chat reply, the opinion and the custom response alike. |
| Text.StripSpec | ai_engine.py:39 | `strip` returns a contiguous slice of its input. The slice neither starts nor ends with whitespace. Only whitespace is cut on either side. |
| Text.StripIdempotent | ai_engine.py:39 | Stripping twice is stripping once. |
| Text.DecimalRoundTrip | ai_engine.py:81 | The digits written for a non-negative number read back as that number. |
| App.Commit | app.py:42-43 | A state-machine result is saved with its reply. An exception leaves the loaded session in place and answers with a server error. |
| App.StartGame | app.py:20-31 | Whatever the session held, it now holds a fresh game. The reply carries that game's status report. |
| App.StartConversationRoute | app.py:33-45 | With no game: "No active game", session unchanged. An unknown id is a server error, session unchanged. Otherwise the NPC becomes current and has a history, and no NPC changes. |
| App.AskGiovanniRoute | app.py:47-59 | With no game: "No active game". An unknown id or a missing history is a server error, session unchanged. Otherwise the NPC's history grows by one entry and the win flag is untouched. |
| App.AskAiOpinionRoute | app.py:61-92 | With no game: "No active game". An unknown id is a server error. Outside ai_opinion, the refusal is passed through and the session is saved as loaded. Otherwise the transition is applied first. Then the opinion is generated for the moved NPC and logged as one ai_opinion entry, creating the history if needed. The same text is returned with the new phase and status. |
| App.MakeArgumentRoute | app.py:94-109 | With no game: "No active game". An unknown id is a server error. Outside argument_phase, the refusal is returned and nothing changes. An accepted argument is saved when the NPC has a history, and the saved win flag is then "all safe". Without a history it is a server error with the session unchanged. |
| App.LogExchange | app.py:139-142 | Only the history of the NPC changes. It gains the player's message and then the reply. |
| App.ChatRoute | app.py:111-152 | With no game: "No active game". An unknown NPC gets "NPC not found" and the session is unchanged. Otherwise the reply comes from the history as it was before this message: the completion stripped, or a canned reply for the NPC's role. The NPC's history then grows by the user message and the reply, in that order. Nothing else changes, and the NPC record is returned as it was. |
| App.GameStatusRoute | app.py:154-163 | With no game: "No active game". Otherwise the report carries the stored win flag. The session is never changed. |
| App.AvailableArgumentsRoute | app.py:165-174 | With no game: "No active game". Otherwise the reply is the whole catalog. The session is never changed. |
| App.RandomArgumentsRoute | app.py:176-185 | With no game: "No active game". Otherwise the reply is exactly three distinct regular arguments of the catalog. The session is never changed. |
| App.NoGameNoChange | app.py:36-37 | Without a game, every request except start_game leaves the session empty. |
| App.RunAppend | app.py:20-185 | Serving two batches of requests one after the other is serving them as one batch. |
| Invariants.NewGameInv | game_logic.py:6-19 | A fresh game satisfies the invariant of reachable games. |
| Invariants.StartConversationKeepsInv | game_logic.py:25-37 | start_conversation keeps the invariant. |
| Invariants.AskAboutGiovanniKeepsInv | game_logic.py:49-72 | ask_about_giovanni keeps the invariant. |
| Invariants.AskAiBubbleOpinionKeepsInv | game_logic.py:74-95 | ask_ai_bubble_opinion keeps the invariant. |
| Invariants.MakeArgumentKeepsInv | game_logic.py:97-153 | make_argument keeps the invariant. In particular, resistance stays the roster value less the regular arguments spent, never below zero. |
| Invariants.OpinionRouteKeepsInv | app.py:61-92 | The ask_ai_opinion handler always saves a game, and that game keeps the invariant. |
| Invariants.ChatRouteKeepsInv | app.py:111-152 | The chat handler always saves a game, and that game keeps the invariant. |
| Invariants.NextKeepsOrder | app.py:33-185 | No request except start_game reorders the NPCs or drops the game. |
| Invariants.NextKeepsInv | app.py:20-185 | Every request keeps the session invariant, whatever the random draws and generated texts. |
| Invariants.ReachableInv | app.py:20-185 | Every session reachable from an empty one satisfies the invariant. |
| Invariants.StatusFollowsPhase | game_logic.py:53-131 | In every reachable game, status is determined by phase. Unknown holds exactly in initial. Needs_convincing holds exactly in ai_opinion and argument_phase. Safe holds exactly in safe. giovanni_check never occurs. |
| Invariants.RosterIsKept | game_logic.py:122-127 | A reachable game holds the ten roster NPCs in roster order. Each is unchanged except its resistance, which is the roster value less the regular arguments spent, never below zero. |
| Invariants.ArgumentRaisesOnlyForUnknownNpc | game_logic.py:99-138 | In a reachable game, make_argument raises exactly for an unknown NPC. An NPC in argument_phase always has a history to log into. |
| Invariants.ArgumentAgainstResistance | game_logic.py:122-136 | A regular argument against a resistance of two or more is lost. The NPC stays in argument_phase, to be convinced. |
| Invariants.FirstRegularArgumentFails | game_logic.py:122-136 | In a reachable game, the first regular argument against any NPC never convinces it. |
| Invariants.ReachableStatusAddsUp | game_logic.py:160-173 | In every reachable game the report counts ten NPCs. Its three lists add up to ten. The safe count is ten exactly when every NPC is safe. |
| Scenarios.ChicoteiaIsRecognised | game_logic.py:105 | The catalog's special text is recognised as the special argument. |
| Scenarios.ConvinceOne | game_logic.py:49-121 | At most four requests make an NPC that has not heard "chicoteia" safe, and touch no other NPC: greet it, ask about Giovanni, ask its opinion if it knows him, and say a winning "chicoteia" if it believes in the bubble. The win flag is recomputed only when the argument was needed. |
| Scenarios.ConvinceList | game_logic.py:49-158 | Convincing in turn a list of distinct NPCs, none of which has heard "chicoteia", makes each of them safe and leaves every other NPC as it was. The win flag is unchanged when nobody had to be argued with. It is exact when the last NPC was argued with. |
| Playthroughs.ArguedFirstNeverWins | game_logic.py:145-158 | Suppose the last argument comes before the NPCs persuaded by questions alone. Then every NPC ends safe and the game is not won. |
| Playthroughs.ArguedLastWins | game_logic.py:145-158 | From a fresh game: persuade first the NPCs who need no argument, then argue with the others, ending with an argument. Every NPC ends safe and the game is won. |
| Playthroughs.WinFlagLags | game_logic.py:145-158 | On the real roster: argue with the five believers first, then persuade the other five. Every NPC ends safe, yet the game is not won. |
| Playthroughs.GameCanBeWon | game_logic.py:145-158 | On the real roster: persuading the other five first and the believers last wins the game. |
| Playthroughs.AskAgain | game_logic.py:49-72 | In any reachable game, asking an NPC that knows Giovanni again puts it back in ai_opinion, to be convinced. The win flag is left as it was. |
| Playthroughs.WinFlagOutlivesWin | game_logic.py:49-72 | After the winning game above, asking robert_lead about Giovanni unconvinces him, yet the game still reads won. |
| Playthroughs.FreshConvince | app.py:20-109 | From a fresh game, any roster NPC is made safe by its requests. |
| Playthroughs.SafeNpcRegresses | game_logic.py:49-61 | tom_ux is made safe and then, by a second question, sent back to ai_opinion/needs_convincing. |

## Left out

- The completion service calls (`ai_engine.py:9-10, 32-37, 119-127, 149-157`) are not modelled. Their answers are parameters, and `None` stands for any exception the call raises. The prompts that `generate_ai_bubble_response` and `generate_custom_response` send (`ai_engine.py:103-117, 142-147`) are not built, because only the service reads them.
- `print` of the service error (`ai_engine.py:42, 132, 162`) is output only.
- The Flask plumbing is left out: routing, `render_template`, the secret key, `app.run`, HTTP status codes and JSON encoding (`app.py:1-18, 187-188`). Replies are a datatype instead.
- The session cookie's serialization is left out. Flask's serializer writes dictionary keys sorted, so a reloaded game lists its NPCs in id order, not roster order. The model keeps creation order (`npcOrder`), which affects only the order of the lists in a status report. The cookie size limit is also left out.
- The `except` branches around the service calls in `app.py` (`app.py:88-89, 151-152`) are not modelled. They cannot be reached, because the generators catch every service error themselves.
- Probabilities are not modelled. The 50% coin, the uniform `random.choice` and `random.sample`, and the `success_rate` fields of the catalog, which no logic reads, become draws passed in as parameters.
- `Text.Lower` lower-cases ASCII letters only, while Python's `.lower()` also lower-cases other scripts; it is used only by `GameLogic.IsChicoteia`. `Text.Strip` cuts exactly the characters for which Python's `str.isspace()` holds, as `.strip()` does.
- The `needs_ai_response` key that `ask_ai_bubble_opinion` adds to the NPC dictionary (`game_logic.py:82`) is not stored on the NPC. It is the `NeedsAiResponse` result instead. Its only effect in the code is to appear in later replies that carry the NPC.
- The `game_context` argument of `generate_npc_response` (`ai_engine.py:16`, `app.py:136`) is never read by the prompt builder, so it is not a parameter.
- `get_npc` (`game_logic.py:21-23`) is folded into `App.ChatRoute`, its only caller.
- The front end (`static/js/game.js`) is left out. It is presentation only.
- `App.AskGiovanniRoute` states only the history length and the win flag. The full transition is `GameLogic.AskAboutGiovanni`'s contract.
- `App.StartConversationRoute` states only the state change. The greeting text is `GameLogic.StartConversation`'s contract.

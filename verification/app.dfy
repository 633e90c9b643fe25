/** The request handlers of the web application, with the Flask session
    reduced to its one entry: the player's whole game, or nothing before the
    first `start_game`.  Each handler takes the session it loaded and returns
    the session it leaves behind with its reply.  An exception escaping the
    state machine ends the request before the session is written back, so
    the session is left as it was. */
module App {
  import opened Wrappers
  import opened Seqs
  import opened Text
  import opened NpcData
  import opened GameLogic
  import opened AiEngine

  type Session = Option<GameState>

  /** A handler's reply: the "No active game" error (HTTP 400), the
      "NPC not found" error (404), an uncaught exception (500), or a body. */
  datatype Reply<+T> = NoActiveGame | NpcNotFound | ServerError(error: PyError) | Body(value: T)

  datatype StartGameReply = StartGameReply(npcs: seq<Npc>, status: GameStatus)

  /** `ask_ai_opinion`'s body: the state machine's refusal passed through, or
      the transition's outcome with the generated opinion. */
  datatype OpinionReply =
    | OpinionError(error: string)
    | Opinion(response: string, phase: Phase, status: Status, npc: Npc)

  datatype ChatReply = ChatReply(response: string, npc: Npc)

  /** The history of `id`, or an empty one: `conversation_history.get(npc_id, [])`. */
  function HistoryOf(g: GameState, id: string): seq<Entry> {
    if id in g.conversationHistory then g.conversationHistory[id] else []
  }

  /** Saves the state a state-machine call returned, or keeps the loaded
      session when the call raised. */
  function Commit<T>(s: Session, outcome: Result<(GameState, T)>): (r: (Session, Reply<T>))
    ensures outcome.Raised? ==> r == (s, ServerError(outcome.error))
    ensures outcome.Ok? ==> r == (Some(outcome.value.0), Body(outcome.value.1))
  {
    match outcome
    case Raised(e) => (s, ServerError(e))
    case Ok(v) => (Some(v.0), Body(v.1))
  }

  /** `start_game`: always a fresh game; whatever was there is dropped. */
  function StartGame(s: Session): (r: (Session, Reply<StartGameReply>))
    ensures r.0 == Some(NewGame())
    ensures r.1.Body? && r.1.value.status == GetGameStatus(NewGame())
  {
    var g := NewGame();
    (Some(g), Body(StartGameReply(OrderedNpcs(g.npcs, g.npcOrder), GetGameStatus(g))))
  }

  /** `start_conversation/<npc_id>`. */
  function StartConversationRoute(s: Session, id: string, greeting: Choice4): (r: (Session, Reply<StartReply>))
    ensures s.None? ==> r == (s, NoActiveGame)
    ensures s.Some? && id !in s.value.npcs ==> r == (s, ServerError(KeyError(id)))
    ensures s.Some? && id in s.value.npcs ==>
      && r.0.Some? && r.1.Body?
      && r.0.value.npcs == s.value.npcs && r.0.value.currentNpc == Some(id)
      && id in r.0.value.conversationHistory
  {
    if s.None? then (s, NoActiveGame)
    else Commit(s, StartConversation(s.value, id, greeting))
  }

  /** `ask_giovanni/<npc_id>`. */
  function AskGiovanniRoute(s: Session, id: string): (r: (Session, Reply<GiovanniReply>))
    ensures s.None? ==> r == (s, NoActiveGame)
    ensures s.Some? && (id !in s.value.npcs || id !in s.value.conversationHistory) ==>
      r == (s, ServerError(KeyError(id)))
    ensures s.Some? && id in s.value.npcs && id in s.value.conversationHistory ==>
      && r.0.Some? && r.1.Body?
      && r.0.value.gameWon == s.value.gameWon
      && id in r.0.value.conversationHistory
      && |r.0.value.conversationHistory[id]| == |s.value.conversationHistory[id]| + 1
  {
    if s.None? then (s, NoActiveGame)
    else Commit(s, AskAboutGiovanni(s.value, id))
  }

  /** `ask_ai_opinion/<npc_id>`: applies the transition, then generates the
      opinion (`completion` is the service's answer, `None` when it fails),
      logs it as one "ai_opinion" entry, creating the history if needed, and
      returns it.  A refusal is passed through and the session saved as
      loaded. */
  function AskAiOpinionRoute(s: Session, id: string, completion: Option<string>): (r: (Session, Reply<OpinionReply>))
    ensures s.None? ==> r == (s, NoActiveGame)
    ensures s.Some? && id !in s.value.npcs ==> r == (s, ServerError(KeyError(id)))
    ensures s.Some? && id in s.value.npcs && s.value.npcs[id].conversationPhase != AiOpinion ==>
      r == (s, Body(OpinionError(WrongOpinionPhase)))
    ensures s.Some? && id in s.value.npcs && s.value.npcs[id].conversationPhase == AiOpinion ==>
      var g := s.value;
      var moved := AskAiBubbleOpinion(g, id).value.0;
      var text := GenerateAiBubbleResponse(moved.npcs[id], completion);
      && r.0 == Some(moved.(conversationHistory := g.conversationHistory[id := HistoryOf(g, id) + [OpinionStated(text)]]))
      && r.1 == Body(Opinion(text, moved.npcs[id].conversationPhase, moved.npcs[id].status, moved.npcs[id]))
  {
    if s.None? then (s, NoActiveGame)
    else
      var g := s.value;
      match AskAiBubbleOpinion(g, id)
      case Raised(e) => (s, ServerError(e))
      case Ok((g', result)) =>
        match result
        case OpinionPhaseError(msg) => (Some(g'), Body(OpinionError(msg)))
        case NeedsAiResponse(phase, status, npc) =>
          var text := GenerateAiBubbleResponse(npc, completion);
          var history := HistoryOf(g', id) + [OpinionStated(text)];
          (Some(g'.(conversationHistory := g'.conversationHistory[id := history])),
           Body(Opinion(text, phase, status, npc)))
  }

  /** `make_argument/<npc_id>`; `coin` is the 50% draw. */
  function MakeArgumentRoute(s: Session, id: string, text: string, coin: bool): (r: (Session, Reply<ArgumentResult>))
    ensures s.None? ==> r == (s, NoActiveGame)
    ensures s.Some? && id !in s.value.npcs ==> r == (s, ServerError(KeyError(id)))
    ensures s.Some? && id in s.value.npcs && s.value.npcs[id].conversationPhase != ArgumentPhase ==>
      r == (s, Body(ArgumentPhaseError(WrongArgumentPhase)))
    // An accepted argument needs the history, and always recomputes the win.
    ensures s.Some? && id in s.value.npcs && s.value.npcs[id].conversationPhase == ArgumentPhase
            && !(IsChicoteia(text) && s.value.npcs[id].chicoteiaUsed) ==>
      if id in s.value.conversationHistory then
        && r.0.Some? && r.1.Body? && r.1.value.ArgumentReply?
        && (r.0.value.gameWon <==> AllSafe(r.0.value.npcs))
      else r == (s, ServerError(KeyError(id)))
  {
    if s.None? then (s, NoActiveGame)
    else Commit(s, MakeArgument(s.value, id, text, coin))
  }

  /** Logs one chat exchange, the player's message first, into the history
      of `id`, creating it if needed; nothing else changes. */
  function LogExchange(g: GameState, id: string, message: string, reply: string): (g': GameState)
    ensures g'.npcs == g.npcs && g'.npcOrder == g.npcOrder
    ensures g'.currentNpc == g.currentNpc && g'.gameWon == g.gameWon
    ensures HistoryAgreeExcept(g.conversationHistory, g'.conversationHistory, id)
    ensures g'.conversationHistory[id] == HistoryOf(g, id) + [UserMessage(message), AiResponse(reply)]
  {
    g.(conversationHistory := g.conversationHistory[id := HistoryOf(g, id) + [UserMessage(message), AiResponse(reply)]])
  }

  /** `chat/<npc_id>`: an unknown NPC is refused; otherwise the reply is
      generated from the history as it was, then the player's message and
      the reply are logged, in that order. */
  function ChatRoute(s: Session, id: string, message: string,
                     complete: seq<Message> -> Option<string>, fallback: Choice4): (r: (Session, Reply<ChatReply>))
    ensures s.None? ==> r == (s, NoActiveGame)
    ensures s.Some? && id !in s.value.npcs ==> r == (s, NpcNotFound)
    // Only the history of `id` changes: it gains the player's message and
    // the reply, which was generated from the history without them.
    ensures s.Some? && id in s.value.npcs ==>
      var g := s.value;
      && r.0.Some? && r.1.Body?
      && r.0.value.npcs == g.npcs && r.0.value.npcOrder == g.npcOrder
      && r.0.value.currentNpc == g.currentNpc && r.0.value.gameWon == g.gameWon
      && HistoryAgreeExcept(g.conversationHistory, r.0.value.conversationHistory, id)
      && r.1.value.npc == g.npcs[id]
      && (var answer := complete(ChatMessages(ViewOf(g.npcs[id]), HistoryOf(g, id), message));
          && (answer.Some? ==> r.1.value.response == Strip(answer.value))
          && (answer.None? ==> r.1.value.response in ChatFallbacks(g.npcs[id].info.role)))
      && r.0.value.conversationHistory[id] == HistoryOf(g, id) + [UserMessage(message), AiResponse(r.1.value.response)]
  {
    if s.None? then (s, NoActiveGame)
    else
      var g := s.value;
      if id !in g.npcs then (s, NpcNotFound)
      else
        var npc := g.npcs[id];
        var reply := GenerateNpcResponse(ViewOf(npc), HistoryOf(g, id), message, complete, fallback);
        (Some(LogExchange(g, id, message, reply)), Body(ChatReply(reply, npc)))
  }

  /** `game_status`. */
  function GameStatusRoute(s: Session): (r: (Session, Reply<GameStatus>))
    ensures r.0 == s
    ensures s.None? <==> r.1.NoActiveGame?
    ensures s.Some? ==> r.1.Body? && r.1.value.gameWon == s.value.gameWon
  {
    if s.None? then (s, NoActiveGame) else (s, Body(GetGameStatus(s.value)))
  }

  /** `available_arguments`. */
  function AvailableArgumentsRoute(s: Session): (r: (Session, Reply<seq<Argument>>))
    ensures r.0 == s
    ensures s.None? <==> r.1.NoActiveGame?
    ensures s.Some? ==> r.1 == Body(ARGUMENTS)
  {
    if s.None? then (s, NoActiveGame) else (s, Body(GetAvailableArguments()))
  }

  /** `random_arguments`: always three suggestions. */
  function RandomArgumentsRoute(s: Session, draws: seq<nat>): (r: (Session, Reply<seq<Argument>>))
    ensures r.0 == s
    ensures s.None? <==> r.1.NoActiveGame?
    ensures s.Some? ==>
      && r.1.Body? && |r.1.value| == 3
      && Distinct(r.1.value)
      && forall a :: a in r.1.value ==> a in ARGUMENTS && !a.special
  {
    if s.None? then (s, NoActiveGame)
    else
      var picked := GetRandomArguments(3, draws);
      assert picked.Ok?;
      (s, Body(picked.value))
  }

  // ---------------------------------------------------------------------
  // Sequences of requests

  /** One request to the application, with the random draws and generated
      texts it will meet. */
  datatype Request =
    | StartGameRequest
    | StartConversationRequest(id: string, greeting: Choice4)
    | AskGiovanniRequest(id: string)
    | AskAiOpinionRequest(id: string, completion: Option<string>)
    | MakeArgumentRequest(id: string, text: string, coin: bool)
    | ChatRequest(id: string, message: string, complete: seq<Message> -> Option<string>, fallback: Choice4)
    | GameStatusRequest
    | AvailableArgumentsRequest
    | RandomArgumentsRequest(draws: seq<nat>)

  /** The session after one request. */
  function Next(s: Session, req: Request): Session {
    match req
    case StartGameRequest => StartGame(s).0
    case StartConversationRequest(id, greeting) => StartConversationRoute(s, id, greeting).0
    case AskGiovanniRequest(id) => AskGiovanniRoute(s, id).0
    case AskAiOpinionRequest(id, completion) => AskAiOpinionRoute(s, id, completion).0
    case MakeArgumentRequest(id, text, coin) => MakeArgumentRoute(s, id, text, coin).0
    case ChatRequest(id, message, complete, fallback) => ChatRoute(s, id, message, complete, fallback).0
    case GameStatusRequest => GameStatusRoute(s).0
    case AvailableArgumentsRequest => AvailableArgumentsRoute(s).0
    case RandomArgumentsRequest(draws) => RandomArgumentsRoute(s, draws).0
  }

  /** The session after a sequence of requests, served one at a time. */
  function Run(s: Session, reqs: seq<Request>): Session
    decreases |reqs|
  {
    if reqs == [] then s else Run(Next(s, reqs[0]), reqs[1..])
  }

  lemma {:induction false} RunAppend(s: Session, a: seq<Request>, b: seq<Request>)
    ensures Run(s, a + b) == Run(Run(s, a), b)
    decreases |a|
  {
    if a == [] {
      assert a + b == b;
    } else {
      assert (a + b)[0] == a[0] && (a + b)[1..] == a[1..] + b;
      RunAppend(Next(s, a[0]), a[1..], b);
    }
  }

  /** Without a game, every request except `start_game` is answered
      "No active game" and leaves the session empty. */
  lemma NoGameNoChange(req: Request)
    requires !req.StartGameRequest?
    ensures Next(None, req) == None
  {
  }
}

/** The per-NPC conversation state machine of the game (`GameState`).

    Each NPC moves through conversation phases as the player asks whether it
    knows Giovanni, asks its opinion on the AI bubble, and argues with it.
    The Python object is mutated in place; here every operation is a pure
    function from the old state to the new one together with the reply.  A
    `KeyError` the Python code would raise becomes `Raised`, and the state it
    had partly mutated is dropped, as the caller never saves it.  The random
    draws (greeting, coin, sample) are parameters. */
module GameLogic {
  import opened Wrappers
  import opened Seqs
  import opened Text
  import opened NpcData

  /** `status`: "unknown", "needs_convincing" or "safe". */
  datatype Status = Unknown | NeedsConvincing | Safe

  /** `conversation_phase`: "initial", "giovanni_check", "ai_opinion",
      "argument_phase" or "safe". */
  datatype Phase = Initial | GiovanniCheck | AiOpinion | ArgumentPhase | Safe

  /** The runtime NPC record: the roster entry (whose `resistanceLevel` the
      game decrements) plus the fields the game adds to it. */
  datatype Npc = Npc(
    info: NpcInfo,
    status: Status,
    argumentsUsed: seq<string>,
    chicoteiaUsed: bool,
    conversationPhase: Phase)

  /** One entry of an NPC's conversation history, by its `type` tag:
      "user_message", "ai_response", "giovanni_question", "argument" and
      "ai_opinion". */
  datatype Entry =
    | UserMessage(message: string)
    | AiResponse(response: string)
    | GiovanniQuestion(response: string)
    | ArgumentAttempt(argument: string, response: string, success: bool)
    | OpinionStated(response: string)

  /** The game of one player.  `npcOrder` is the iteration order of the
      Python dictionary `npcs` (its insertion order). */
  datatype GameState = GameState(
    npcs: map<string, Npc>,
    npcOrder: seq<string>,
    currentNpc: Option<string>,
    conversationHistory: map<string, seq<Entry>>,
    gameWon: bool)

  datatype StartReply = StartReply(npc: Npc, phase: Phase, message: string)

  datatype GiovanniReply = GiovanniReply(response: string, phase: Phase, status: Status)

  /** `ask_ai_bubble_opinion` either refuses, or reports that the caller must
      now generate the opinion text (the `needs_ai_response` marker). */
  datatype OpinionResult =
    | OpinionPhaseError(error: string)
    | NeedsAiResponse(phase: Phase, status: Status, npc: Npc)

  /** `make_argument`'s reply; the repeated-chicoteia reply carries no status. */
  datatype ArgumentResult =
    | ArgumentPhaseError(error: string)
    | ArgumentReply(response: string, success: bool, phase: Phase, status: Option<Status>)

  datatype GameStatus = GameStatus(
    gameWon: bool,
    safeCount: nat,
    totalNpcs: nat,
    safeNpcs: seq<Npc>,
    needsConvincing: seq<Npc>,
    unknown: seq<Npc>)

  const WrongOpinionPhase := "Not in correct conversation phase"
  const WrongArgumentPhase := "Not in argument phase"
  const ChicoteiaRepeated := "Você já tentou essa palavra mágica comigo!"
  const ChicoteiaWorked := "Chicoteia... espera, isso é... sabe de uma coisa? Você está absolutamente certo! IA não é bolha nenhuma!"
  const ChicoteiaFailed := "Chicoteia? Interessante, mas ainda não estou convencido de que IA não está supervalorizada."
  const ArgumentWon := "Sabe de uma coisa, esse é um ponto muito bom. Você mudou minha opinião sobre isso!"
  const ArgumentLost := "Interessante, mas ainda não estou totalmente convencido..."

  // ---------------------------------------------------------------------
  // Creation

  /** `_init_npc`: a copy of the roster entry, not yet met. */
  function InitNpc(d: NpcInfo): Npc {
    Npc(d, Unknown, [], false, Initial)
  }

  /** The dictionary comprehension `{npc["id"]: _init_npc(npc) for npc in NPCS}`:
      a later entry with the same id replaces the value but keeps the key's
      first position in the iteration order. */
  function BuildNpcs(defs: seq<NpcInfo>): (r: (map<string, Npc>, seq<string>))
    ensures r.0.Keys == set i | 0 <= i < |defs| :: defs[i].id
    ensures forall k :: k in r.1 <==> k in r.0
    decreases |defs|
  {
    if defs == [] then (map[], [])
    else
      var prev := BuildNpcs(defs[..|defs| - 1]);
      var d := defs[|defs| - 1];
      assert forall i :: 0 <= i < |defs| - 1 ==> defs[..|defs| - 1][i] == defs[i];
      (prev.0[d.id := InitNpc(d)], if d.id in prev.0 then prev.1 else prev.1 + [d.id])
  }

  /** `GameState()`. */
  function NewGame(): GameState {
    var built := BuildNpcs(NPCS);
    GameState(built.0, built.1, None, map[], false)
  }

  // ---------------------------------------------------------------------
  // Frames shared by the contracts

  /** Two NPC maps have the same keys and differ at most at `id`. */
  predicate NpcsAgreeExcept(a: map<string, Npc>, b: map<string, Npc>, id: string) {
    a.Keys == b.Keys && forall k :: k in a && k != id ==> b[k] == a[k]
  }

  /** The new history adds at most the key `id` and differs at most at `id`. */
  predicate HistoryAgreeExcept(a: map<string, seq<Entry>>, b: map<string, seq<Entry>>, id: string) {
    b.Keys == a.Keys + {id} && forall k :: k in a && k != id ==> b[k] == a[k]
  }

  /** An NPC record differs from another only in its phase and status. */
  predicate OnlyPhaseStatusChanged(a: Npc, b: Npc) {
    b.info == a.info && b.argumentsUsed == a.argumentsUsed && b.chicoteiaUsed == a.chicoteiaUsed
  }

  // ---------------------------------------------------------------------
  // start_conversation

  /** The four greeting templates of `_get_initial_message`. */
  function Greetings(d: NpcInfo): seq<string> {
    [ "Oi! Eu sou " + d.name + ", " + d.role + ". Como está a conferência?",
      "Olá! " + d.name + " aqui. Ótimas palestras hoje, né?",
      "Oi! Sou " + d.name + ", " + d.role + ". Curtindo até agora?",
      "E aí! " + d.name + " de " + d.role + ". O que te trouxe aqui?" ]
  }

  /** `start_conversation`: makes `id` the current NPC and gives it an empty
      history if it has none; `greeting` is `random.choice`'s draw. */
  function StartConversation(g: GameState, id: string, greeting: Choice4): (r: Result<(GameState, StartReply)>)
    ensures r.Raised? <==> id !in g.npcs
    ensures r.Raised? ==> r.error == KeyError(id)
    ensures r.Ok? ==>
      var g', rep := r.value.0, r.value.1;
      && g'.npcs == g.npcs && g'.npcOrder == g.npcOrder && g'.gameWon == g.gameWon
      && g'.currentNpc == Some(id)
      && HistoryAgreeExcept(g.conversationHistory, g'.conversationHistory, id)
      && g'.conversationHistory[id] == (if id in g.conversationHistory then g.conversationHistory[id] else [])
      && rep.npc == g.npcs[id] && rep.phase == g.npcs[id].conversationPhase
      && rep.message in Greetings(g.npcs[id].info)
  {
    if id !in g.npcs then Raised(KeyError(id))
    else
      var npc := g.npcs[id];
      var history := if id in g.conversationHistory then g.conversationHistory
                     else g.conversationHistory[id := []];
      Ok((g.(currentNpc := Some(id), conversationHistory := history),
          StartReply(npc, npc.conversationPhase, Greetings(npc.info)[greeting])))
  }

  // ---------------------------------------------------------------------
  // ask_about_giovanni

  /** The reply of an NPC that knows Giovanni. */
  function KnowsGiovanniLine(relationship: string): string {
    "Sim, conheço Giovanni! " + relationship + " Por que pergunta?"
  }

  /** `ask_about_giovanni`: not gated by phase.  An NPC that knows Giovanni
      goes to the opinion phase, one that does not is safe at once; one
      "giovanni_question" entry is logged, into a history that must already
      exist. */
  function AskAboutGiovanni(g: GameState, id: string): (r: Result<(GameState, GiovanniReply)>)
    ensures r.Raised? <==> id !in g.npcs || id !in g.conversationHistory
    ensures r.Raised? ==> r.error == KeyError(id)
    ensures r.Ok? ==> r.value.0.npcs.Keys == g.npcs.Keys
    ensures r.Ok? ==>
      var g', rep := r.value.0, r.value.1;
      var npc, npc' := g.npcs[id], g'.npcs[id];
      && NpcsAgreeExcept(g.npcs, g'.npcs, id)
      && OnlyPhaseStatusChanged(npc, npc')
      && (npc.info.knowsGiovanni ==>
            && npc'.conversationPhase == AiOpinion && npc'.status == NeedsConvincing
            && rep.response == KnowsGiovanniLine(npc.info.giovanniRelationship))
      && (!npc.info.knowsGiovanni ==>
            && npc'.conversationPhase == Phase.Safe && npc'.status == Status.Safe
            && rep.response == npc.info.giovanniRelationship)
      && rep.phase == npc'.conversationPhase && rep.status == npc'.status
      && g'.conversationHistory == g.conversationHistory[id := g.conversationHistory[id] + [GiovanniQuestion(rep.response)]]
      && g'.npcOrder == g.npcOrder && g'.currentNpc == g.currentNpc && g'.gameWon == g.gameWon
  {
    if id !in g.npcs then Raised(KeyError(id))
    else
      var npc := g.npcs[id];
      var knows := npc.info.knowsGiovanni;
      var npc' := if knows then npc.(conversationPhase := AiOpinion, status := NeedsConvincing)
                  else npc.(conversationPhase := Phase.Safe, status := Status.Safe);
      var response := if knows then KnowsGiovanniLine(npc.info.giovanniRelationship)
                      else npc.info.giovanniRelationship;
      if id !in g.conversationHistory then Raised(KeyError(id))
      else
        var history := g.conversationHistory[id := g.conversationHistory[id] + [GiovanniQuestion(response)]];
        Ok((g.(npcs := g.npcs[id := npc'], conversationHistory := history),
            GiovanniReply(response, npc'.conversationPhase, npc'.status)))
  }

  // ---------------------------------------------------------------------
  // ask_ai_bubble_opinion

  /** `ask_ai_bubble_opinion`: only in the opinion phase.  The transition is
      made before any opinion text exists: a believer in the bubble must now
      be argued with, anyone else is safe.  Nothing is logged and the win is
      not rechecked. */
  function AskAiBubbleOpinion(g: GameState, id: string): (r: Result<(GameState, OpinionResult)>)
    ensures r.Raised? <==> id !in g.npcs
    ensures r.Raised? ==> r.error == KeyError(id)
    ensures r.Ok? && g.npcs[id].conversationPhase != AiOpinion ==>
      r.value == (g, OpinionPhaseError(WrongOpinionPhase))
    ensures r.Ok? ==> r.value.0.npcs.Keys == g.npcs.Keys
    ensures r.Ok? && g.npcs[id].conversationPhase == AiOpinion ==>
      var g', rep := r.value.0, r.value.1;
      var npc, npc' := g.npcs[id], g'.npcs[id];
      && g' == g.(npcs := g'.npcs)
      && NpcsAgreeExcept(g.npcs, g'.npcs, id)
      && OnlyPhaseStatusChanged(npc, npc')
      && (npc.info.aiBubbleStance == "bubble" ==>
            npc'.conversationPhase == ArgumentPhase && npc'.status == npc.status)
      && (npc.info.aiBubbleStance != "bubble" ==>
            npc'.conversationPhase == Phase.Safe && npc'.status == Status.Safe)
      && rep == NeedsAiResponse(npc'.conversationPhase, npc'.status, npc')
  {
    if id !in g.npcs then Raised(KeyError(id))
    else
      var npc := g.npcs[id];
      if npc.conversationPhase != AiOpinion then Ok((g, OpinionPhaseError(WrongOpinionPhase)))
      else
        var npc' := if npc.info.aiBubbleStance == "bubble" then npc.(conversationPhase := ArgumentPhase)
                    else npc.(conversationPhase := Phase.Safe, status := Status.Safe);
        Ok((g.(npcs := g.npcs[id := npc']), NeedsAiResponse(npc'.conversationPhase, npc'.status, npc')))
  }

  // ---------------------------------------------------------------------
  // make_argument and the win check

  /** The special argument is recognised by `argument_text.lower() == "chicoteia"`. */
  predicate IsChicoteia(text: string) {
    Lower(text) == "chicoteia"
  }

  /** Every NPC is safe. */
  predicate AllSafe(npcs: map<string, Npc>) {
    forall k :: k in npcs ==> npcs[k].status == Status.Safe
  }

  /** The ids whose NPC is safe. */
  function SafeIds(npcs: map<string, Npc>): set<string> {
    set k | k in npcs && npcs[k].status == Status.Safe
  }

  /** `_check_win_condition`: the game is won when the number of safe NPCs
      equals the number of NPCs. */
  function CheckWinCondition(g: GameState): (r: GameState)
    ensures r == g.(gameWon := r.gameWon)
    ensures r.gameWon <==> AllSafe(g.npcs)
  {
    var won := |SafeIds(g.npcs)| == |g.npcs|;
    SafeIdsFull(g.npcs);
    g.(gameWon := won)
  }

  /** Counting safe NPCs decides "all safe": the safe ids are a subset of
      all ids, so the counts agree exactly when the sets do. */
  lemma SafeIdsFull(npcs: map<string, Npc>)
    ensures |SafeIds(npcs)| == |npcs| <==> AllSafe(npcs)
  {
    var s := SafeIds(npcs);
    assert s <= npcs.Keys;
    if |s| == |npcs| {
      assert |npcs.Keys - s| == |npcs.Keys| - |s|;
      assert npcs.Keys - s == {};
      forall k | k in npcs ensures npcs[k].status == Status.Safe {
        assert k in s;
      }
    }
    if AllSafe(npcs) {
      assert s == npcs.Keys;
    }
  }

  /** Logs one "argument" entry into the NPC's existing history and reruns
      the win check; the shared tail of both argument kinds. */
  function RecordArgument(g: GameState, id: string, npc': Npc, text: string, response: string, success: bool)
    : (r: Result<(GameState, ArgumentResult)>)
    requires id in g.npcs
    ensures r.Raised? <==> id !in g.conversationHistory
    ensures r.Raised? ==> r.error == KeyError(id)
    ensures r.Ok? ==>
      var g', rep := r.value.0, r.value.1;
      && g'.npcs == g.npcs[id := npc']
      && g'.conversationHistory == g.conversationHistory[id := g.conversationHistory[id] + [ArgumentAttempt(text, response, success)]]
      && g'.npcOrder == g.npcOrder && g'.currentNpc == g.currentNpc
      && (g'.gameWon <==> AllSafe(g'.npcs))
      && rep == ArgumentReply(response, success, npc'.conversationPhase, Some(npc'.status))
  {
    if id !in g.conversationHistory then Raised(KeyError(id))
    else
      var history := g.conversationHistory[id := g.conversationHistory[id] + [ArgumentAttempt(text, response, success)]];
      var g' := CheckWinCondition(g.(npcs := g.npcs[id := npc'], conversationHistory := history));
      Ok((g', ArgumentReply(response, success, npc'.conversationPhase, Some(npc'.status))))
  }

  /** `make_argument`, with `coin` the outcome of the 50% draw
      (`random.random() < 0.5`), read only for the first chicoteia. */
  function MakeArgument(g: GameState, id: string, text: string, coin: bool): (r: Result<(GameState, ArgumentResult)>)
    // Unknown id or missing history: KeyError.
    ensures r.Raised? <==>
      id !in g.npcs
      || (&& g.npcs[id].conversationPhase == ArgumentPhase
          && !(IsChicoteia(text) && g.npcs[id].chicoteiaUsed)
          && id !in g.conversationHistory)
    ensures r.Raised? ==> r.error == KeyError(id)
    // Out of phase: refused, nothing changes.
    ensures r.Ok? && g.npcs[id].conversationPhase != ArgumentPhase ==>
      r.value == (g, ArgumentPhaseError(WrongArgumentPhase))
    // Chicoteia a second time: refused, nothing changes, no status in the reply.
    ensures r.Ok? && g.npcs[id].conversationPhase == ArgumentPhase && IsChicoteia(text) && g.npcs[id].chicoteiaUsed ==>
      r.value == (g, ArgumentReply(ChicoteiaRepeated, false, ArgumentPhase, None))
    ensures r.Ok? ==> r.value.0.npcs.Keys == g.npcs.Keys
    // Every other accepted argument: only this NPC and its history change,
    // by one "argument" entry, and the win flag is recomputed.
    ensures r.Ok? && g.npcs[id].conversationPhase == ArgumentPhase && !(IsChicoteia(text) && g.npcs[id].chicoteiaUsed) ==>
      r.value.1.ArgumentReply?
    ensures r.Ok? && g.npcs[id].conversationPhase == ArgumentPhase && !(IsChicoteia(text) && g.npcs[id].chicoteiaUsed) ==>
      var g', rep := r.value.0, r.value.1;
      var npc, npc' := g.npcs[id], g'.npcs[id];
      && NpcsAgreeExcept(g.npcs, g'.npcs, id)
      && g'.conversationHistory == g.conversationHistory[id := g.conversationHistory[id]
           + [ArgumentAttempt(text, rep.response, rep.success)]]
      && g'.npcOrder == g.npcOrder && g'.currentNpc == g.currentNpc
      && (g'.gameWon <==> AllSafe(g'.npcs))
      && rep.phase == npc'.conversationPhase && rep.status == Some(npc'.status)
      && (rep.success <==> npc'.conversationPhase == Phase.Safe)
      && (npc'.conversationPhase == Phase.Safe ==> npc'.status == Status.Safe)
      && (npc'.conversationPhase != Phase.Safe ==> npc' .status == npc.status && npc'.conversationPhase == ArgumentPhase)
      && npc'.info.(resistanceLevel := npc.info.resistanceLevel) == npc.info
      // the first chicoteia: the coin decides, nothing else is spent
      && (IsChicoteia(text) ==>
            && npc'.chicoteiaUsed
            && npc'.argumentsUsed == npc.argumentsUsed
            && npc'.info == npc.info
            && rep.success == coin
            && rep.response == (if coin then ChicoteiaWorked else ChicoteiaFailed))
      // a regular argument: recorded, and one point of resistance is worn down
      && (!IsChicoteia(text) ==>
            && npc'.chicoteiaUsed == npc.chicoteiaUsed
            && npc'.argumentsUsed == npc.argumentsUsed + [text]
            && npc'.info.resistanceLevel == (if npc.info.resistanceLevel - 1 > 0 then npc.info.resistanceLevel - 1 else 0)
            && (rep.success <==> npc'.info.resistanceLevel == 0)
            && rep.response == (if rep.success then ArgumentWon else ArgumentLost))
  {
    if id !in g.npcs then Raised(KeyError(id))
    else
      var npc := g.npcs[id];
      if npc.conversationPhase != ArgumentPhase then Ok((g, ArgumentPhaseError(WrongArgumentPhase)))
      else if IsChicoteia(text) then
        if npc.chicoteiaUsed then Ok((g, ArgumentReply(ChicoteiaRepeated, false, npc.conversationPhase, None)))
        else
          var npc' := if coin then npc.(chicoteiaUsed := true, conversationPhase := Phase.Safe, status := Status.Safe)
                      else npc.(chicoteiaUsed := true);
          RecordArgument(g, id, npc', text, if coin then ChicoteiaWorked else ChicoteiaFailed, coin)
      else
        var left := if npc.info.resistanceLevel - 1 > 0 then npc.info.resistanceLevel - 1 else 0;
        var worn := npc.(argumentsUsed := npc.argumentsUsed + [text], info := npc.info.(resistanceLevel := left));
        if left <= 0 then
          RecordArgument(g, id, worn.(conversationPhase := Phase.Safe, status := Status.Safe), text, ArgumentWon, true)
        else
          RecordArgument(g, id, worn, text, ArgumentLost, false)
  }

  // ---------------------------------------------------------------------
  // Readers

  /** The NPC records in the dictionary's iteration order. */
  function OrderedNpcs(npcs: map<string, Npc>, order: seq<string>): (r: seq<Npc>)
    ensures |r| <= |order|
    ensures forall n :: n in r ==> exists k :: k in order && k in npcs && npcs[k] == n
  {
    if order == [] then []
    else (if order[0] in npcs then [npcs[order[0]]] else []) + OrderedNpcs(npcs, order[1..])
  }

  /** The list comprehension `[npc for npc in ... if npc["status"] == status]`. */
  function WithStatus(npcs: seq<Npc>, status: Status): (r: seq<Npc>)
    ensures |r| <= |npcs|
    ensures forall n :: n in r <==> n in npcs && n.status == status
  {
    if npcs == [] then []
    else (if npcs[0].status == status then [npcs[0]] else []) + WithStatus(npcs[1..], status)
  }

  /** `get_game_status`: the NPCs split by status, in dictionary order, with
      the stored win flag as it is (not recomputed). */
  function GetGameStatus(g: GameState): (r: GameStatus)
    ensures r.gameWon == g.gameWon
    ensures r.totalNpcs == |g.npcs|
    ensures r.safeCount == |r.safeNpcs|
    ensures forall n :: n in r.safeNpcs ==> n.status == Status.Safe && n in g.npcs.Values
    ensures forall n :: n in r.needsConvincing ==> n.status == NeedsConvincing && n in g.npcs.Values
    ensures forall n :: n in r.unknown ==> n.status == Unknown && n in g.npcs.Values
  {
    var all := OrderedNpcs(g.npcs, g.npcOrder);
    var safe := WithStatus(all, Status.Safe);
    GameStatus(g.gameWon, |safe|, |g.npcs|, safe, WithStatus(all, NeedsConvincing), WithStatus(all, Unknown))
  }

  /** `get_available_arguments`: the whole catalog, the special entry included. */
  function GetAvailableArguments(): (r: seq<Argument>)
    ensures r == ARGUMENTS
    ensures |r| == 19 && r[0].special && r[0].text == "chicoteia"
  {
    OneSpecialArgument();
    ARGUMENTS
  }

  /** The catalog without the special entry, in catalog order. */
  function NonSpecial(args: seq<Argument>): seq<Argument> {
    if args == [] then []
    else (if args[0].special then [] else [args[0]]) + NonSpecial(args[1..])
  }

  /** The filter keeps exactly the regular entries, each as often as the
      catalog lists it. */
  lemma {:induction false} NonSpecialSpec(args: seq<Argument>)
    ensures forall a :: a in NonSpecial(args) <==> a in args && !a.special
    ensures multiset(NonSpecial(args)) <= multiset(args)
  {
    if args != [] {
      NonSpecialSpec(args[1..]);
      assert args == [args[0]] + args[1..];
    }
  }

  /** `random.sample(pool, k)`: `draws` are the generator's choices; each
      picks one of the entries not yet taken (a missing draw picks the first). */
  function Sample<T(==)>(pool: seq<T>, k: nat, draws: seq<nat>): (r: seq<T>)
    requires k <= |pool|
    ensures |r| == k
    ensures multiset(r) <= multiset(pool)
    ensures Distinct(pool) ==> Distinct(r)
    decreases k
  {
    if k == 0 then []
    else
      var i := if draws == [] then 0 else draws[0] % |pool|;
      var rest := RemoveAt(pool, i);
      var tail := Sample(rest, k - 1, if draws == [] then [] else draws[1..]);
      SampleHead(pool, i, tail);
      [pool[i]] + tail
  }

  /** Taking one entry in front of a sample of the others keeps the result
      within the pool, and without repetitions when the pool has none. */
  lemma SampleHead<T>(pool: seq<T>, i: nat, tail: seq<T>)
    requires i < |pool|
    requires multiset(tail) <= multiset(RemoveAt(pool, i))
    requires Distinct(RemoveAt(pool, i)) ==> Distinct(tail)
    ensures multiset([pool[i]] + tail) <= multiset(pool)
    ensures Distinct(pool) ==> Distinct([pool[i]] + tail)
  {
    if Distinct(pool) {
      RemoveAtDistinct(pool, i);
      assert pool[i] !in multiset(tail);
      DistinctCons(pool[i], tail);
    }
  }

  /** `get_random_arguments` over a given catalog: `count` distinct
      suggestions, never a special entry, at most every regular one; a
      negative count makes `random.sample` raise. */
  function SuggestFrom(catalog: seq<Argument>, count: int, draws: seq<nat>): (r: Result<seq<Argument>>)
    ensures r.Raised? <==> count < 0
    ensures r.Ok? ==>
      && |r.value| == (if count < |NonSpecial(catalog)| then count else |NonSpecial(catalog)|)
      && (Distinct(catalog) ==> Distinct(r.value))
      && forall a :: a in r.value ==> a in catalog && !a.special
  {
    var pool := NonSpecial(catalog);
    NonSpecialSpec(catalog);
    var k := if count < |pool| then count else |pool|;
    if k < 0 then Raised(ValueError("Sample larger than population or is negative"))
    else
      var picked := Sample(pool, k, draws);
      assert forall a :: a in picked ==> a in multiset(pool);
      if Distinct(catalog) then
        NonSpecialDistinct(catalog);
        Ok(picked)
      else
        Ok(picked)
  }

  lemma {:induction false} NonSpecialDistinct(args: seq<Argument>)
    requires Distinct(args)
    ensures Distinct(NonSpecial(args))
  {
    if args != [] {
      DistinctTail(args);
      NonSpecialDistinct(args[1..]);
      NonSpecialSpec(args[1..]);
      assert args[0] !in args[1..];
    }
  }

  lemma {:induction false} NonSpecialOfRegular(args: seq<Argument>)
    requires forall i :: 0 <= i < |args| ==> !args[i].special
    ensures NonSpecial(args) == args
  {
    if args != [] {
      NonSpecialOfRegular(args[1..]);
      assert args == [args[0]] + args[1..];
    }
  }

  /** A catalog whose only special entry comes first suggests the rest. */
  lemma SpecialFirstPool(args: seq<Argument>)
    requires |args| > 0 && args[0].special
    requires forall i :: 1 <= i < |args| ==> !args[i].special
    ensures NonSpecial(args) == args[1..]
  {
    var rest := args[1..];
    assert forall i :: 0 <= i < |rest| ==> !rest[i].special;
    NonSpecialOfRegular(rest);
  }

  /** The suggestion pool of the game's catalog holds eighteen regular
      arguments. */
  lemma SuggestionPool()
    ensures |NonSpecial(ARGUMENTS)| == 18
  {
    OneSpecialArgument();
    SpecialFirstPool(ARGUMENTS);
  }

  /** `get_random_arguments(count)` on the game's catalog: `min(count, 18)`
      distinct regular arguments. */
  function GetRandomArguments(count: int, draws: seq<nat>): (r: Result<seq<Argument>>)
    ensures r.Raised? <==> count < 0
    ensures r.Ok? ==>
      && |r.value| == (if count < 18 then count else 18)
      && Distinct(r.value)
      && forall a :: a in r.value ==> a in ARGUMENTS && !a.special
  {
    SuggestionPool();
    CatalogDistinct();
    SuggestFrom(ARGUMENTS, count, draws)
  }
}

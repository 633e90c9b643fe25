/** What holds of every game a player can reach: the fresh game's shape, the
    per-NPC invariant every operation keeps (status follows phase, resistance
    counts the arguments spent), and the status report's accounting. */
module Invariants {
  import opened Wrappers
  import opened Seqs
  import opened Text
  import opened NpcData
  import opened GameLogic
  import opened AiEngine
  import opened App

  // ---------------------------------------------------------------------
  // The fresh game

  /** Building the dictionary never lists a key twice in its order, and each
      NPC is the initial record of a roster entry with that id. */
  lemma {:induction false} BuildNpcsSpec(defs: seq<NpcInfo>)
    ensures Distinct(BuildNpcs(defs).1)
    ensures forall k :: k in BuildNpcs(defs).0 ==>
      exists i :: 0 <= i < |defs| && defs[i].id == k && BuildNpcs(defs).0[k] == InitNpc(defs[i])
    decreases |defs|
  {
    if defs != [] {
      var init := defs[..|defs| - 1];
      var d := defs[|defs| - 1];
      BuildNpcsSpec(init);
      var prev := BuildNpcs(init);
      var r := BuildNpcs(defs);
      assert r == (prev.0[d.id := InitNpc(d)], if d.id in prev.0 then prev.1 else prev.1 + [d.id]);
      if d.id !in prev.0 {
        assert d.id !in prev.1;
        forall a, b | 0 <= a < b < |r.1| ensures r.1[a] != r.1[b] {
          if b == |prev.1| {
            assert r.1[a] == prev.1[a];
          } else {
            assert r.1[a] == prev.1[a] && r.1[b] == prev.1[b];
          }
        }
      }
      forall k | k in r.0
        ensures exists i :: 0 <= i < |defs| && defs[i].id == k && r.0[k] == InitNpc(defs[i])
      {
        if k == d.id {
          assert defs[|defs| - 1].id == k && r.0[k] == InitNpc(defs[|defs| - 1]);
        } else {
          var i :| 0 <= i < |init| && init[i].id == k && prev.0[k] == InitNpc(init[i]);
          assert defs[i] == init[i];
        }
      }
    }
  }

  /** Dropping the last entry of a list with distinct ids keeps them
      distinct, and the dropped id is not among the others. */
  lemma DistinctIdsInit(defs: seq<NpcInfo>)
    requires defs != [] && Distinct(Ids(defs))
    ensures Ids(defs) == Ids(defs[..|defs| - 1]) + [defs[|defs| - 1].id]
    ensures Distinct(Ids(defs[..|defs| - 1]))
    ensures forall i :: 0 <= i < |defs| - 1 ==> defs[i].id != defs[|defs| - 1].id
  {
    var init := defs[..|defs| - 1];
    assert Ids(defs) == Ids(init) + [defs[|defs| - 1].id];
    forall a, b | 0 <= a < b < |init| ensures Ids(init)[a] != Ids(init)[b] {
      assert Ids(defs)[a] != Ids(defs)[b];
    }
    forall i | 0 <= i < |defs| - 1 ensures defs[i].id != defs[|defs| - 1].id {
      assert Ids(defs)[i] != Ids(defs)[|defs| - 1];
    }
  }

  /** Adding the last entry's record to a map that holds the others keeps
      them and adds it. */
  lemma SnocEntries(defs: seq<NpcInfo>, init: seq<NpcInfo>, prev: map<string, Npc>, r: map<string, Npc>)
    requires defs != [] && init == defs[..|defs| - 1]
    requires r == prev[defs[|defs| - 1].id := InitNpc(defs[|defs| - 1])]
    requires forall i :: 0 <= i < |defs| - 1 ==> defs[i].id != defs[|defs| - 1].id
    requires forall i :: 0 <= i < |init| ==> init[i].id in prev && prev[init[i].id] == InitNpc(init[i])
    ensures forall i :: 0 <= i < |defs| ==> defs[i].id in r && r[defs[i].id] == InitNpc(defs[i])
  {
    forall i | 0 <= i < |defs| ensures defs[i].id in r && r[defs[i].id] == InitNpc(defs[i]) {
      if i < |init| {
        assert defs[i] == init[i];
      }
    }
  }

  /** With distinct ids nothing is replaced: the order is the roster's id
      order and every entry keeps its own initial record. */
  lemma {:induction false} BuildNpcsOfDistinct(defs: seq<NpcInfo>)
    requires Distinct(Ids(defs))
    ensures BuildNpcs(defs).1 == Ids(defs)
    ensures forall i :: 0 <= i < |defs| ==>
      defs[i].id in BuildNpcs(defs).0 && BuildNpcs(defs).0[defs[i].id] == InitNpc(defs[i])
    decreases |defs|
  {
    if defs != [] {
      var init := defs[..|defs| - 1];
      var d := defs[|defs| - 1];
      DistinctIdsInit(defs);
      BuildNpcsOfDistinct(init);
      var prev := BuildNpcs(init);
      assert d.id !in prev.0 by {
        forall i | 0 <= i < |init| ensures init[i].id != d.id {
          assert init[i] == defs[i];
        }
      }
      assert BuildNpcs(defs) == (prev.0[d.id := InitNpc(d)], prev.1 + [d.id]);
      SnocEntries(defs, init, prev.0, BuildNpcs(defs).0);
    }
  }

  /** `GameState()` holds the ten roster NPCs, each not yet met, keyed and
      ordered by id, with no current NPC, no history and the game not won. */
  lemma NewGameRoster()
    ensures NewGame().npcOrder == Ids(NPCS)
    ensures |NewGame().npcs| == |NPCS| == 10
    ensures forall i :: 0 <= i < |NPCS| ==>
      NPCS[i].id in NewGame().npcs && NewGame().npcs[NPCS[i].id] == InitNpc(NPCS[i])
    ensures NewGame().currentNpc == None && NewGame().conversationHistory == map[] && !NewGame().gameWon
  {
    RosterIdsDistinct();
    BuildNpcsOfDistinct(NPCS);
    var g := NewGame();
    DistinctCardinality(g.npcOrder);
    assert g.npcs.Keys == set x | x in g.npcOrder;
  }

  // ---------------------------------------------------------------------
  // The invariant

  /** The status each phase implies; the transient "giovanni_check" phase is
      never stored. */
  predicate StatusMatchesPhase(npc: Npc) {
    match npc.conversationPhase
    case Initial => npc.status == Unknown
    case GiovanniCheck => false
    case AiOpinion => npc.status == NeedsConvincing
    case ArgumentPhase => npc.status == NeedsConvincing
    case Safe => npc.status == Status.Safe
  }

  function Max0(x: int): int {
    if x > 0 then x else 0
  }

  /** One NPC of a reachable game, against the roster entry `origin` it was
      created from. */
  predicate NpcInv(id: string, npc: Npc, origin: NpcInfo, history: map<string, seq<Entry>>) {
    && npc.info.id == id
    // only the resistance ever changes, and it counts the regular arguments spent
    && npc.info == origin.(resistanceLevel := npc.info.resistanceLevel)
    && npc.info.resistanceLevel == Max0(origin.resistanceLevel - |npc.argumentsUsed|)
    && StatusMatchesPhase(npc)
    // a phase past the first was entered through a conversation
    && (npc.conversationPhase != Initial ==> id in history)
    && (npc.conversationPhase == AiOpinion || npc.conversationPhase == ArgumentPhase ==> npc.info.knowsGiovanni)
    && (npc.conversationPhase == ArgumentPhase ==> npc.info.aiBubbleStance == "bubble")
  }

  /** The dictionary's key order lists each NPC once. */
  predicate OrderWf(g: GameState) {
    && Distinct(g.npcOrder)
    && (forall k :: k in g.npcOrder ==> k in g.npcs)
    && (forall k :: k in g.npcs ==> k in g.npcOrder)
  }

  predicate Inv(g: GameState, origin: map<string, NpcInfo>) {
    && OrderWf(g)
    && g.npcs.Keys == origin.Keys
    && (forall k :: k in origin ==> origin[k].resistanceLevel >= 0)
    && (forall k :: k in g.npcs ==> NpcInv(k, g.npcs[k], origin[k], g.conversationHistory))
    && g.conversationHistory.Keys <= g.npcs.Keys
    && (g.currentNpc.Some? ==> g.currentNpc.value in g.npcs)
  }

  /** The roster entry each NPC of a game was created from. */
  function Origin(g: GameState): map<string, NpcInfo> {
    map k | k in g.npcs :: g.npcs[k].info
  }

  function RosterOrigin(): map<string, NpcInfo> {
    Origin(NewGame())
  }

  /** Every NPC of the fresh game is a roster entry. */
  lemma RosterOriginEntries()
    ensures forall k :: k in RosterOrigin() ==>
      exists i :: 0 <= i < |NPCS| && NPCS[i] == RosterOrigin()[k] && NPCS[i].id == k
  {
    BuildNpcsSpec(NPCS);
  }

  lemma NewGameInv()
    ensures Inv(NewGame(), RosterOrigin())
  {
    var g, o := NewGame(), RosterOrigin();
    BuildNpcsSpec(NPCS);
    RosterOriginEntries();
    RosterResistanceNonNegative();
    forall k | k in o ensures o[k].resistanceLevel >= 0 {
      var i :| 0 <= i < |NPCS| && NPCS[i] == o[k] && NPCS[i].id == k;
    }
    forall k | k in g.npcs ensures NpcInv(k, g.npcs[k], o[k], g.conversationHistory) {
      var i :| 0 <= i < |NPCS| && NPCS[i].id == k && g.npcs[k] == InitNpc(NPCS[i]);
    }
  }

  // ---------------------------------------------------------------------
  // Every operation keeps the invariant

  lemma StartConversationKeepsInv(g: GameState, o: map<string, NpcInfo>, id: string, greeting: Choice4)
    requires Inv(g, o)
    ensures StartConversation(g, id, greeting).Ok? ==> Inv(StartConversation(g, id, greeting).value.0, o)
  {
  }

  lemma AskAboutGiovanniKeepsInv(g: GameState, o: map<string, NpcInfo>, id: string)
    requires Inv(g, o)
    ensures AskAboutGiovanni(g, id).Ok? ==> Inv(AskAboutGiovanni(g, id).value.0, o)
  {
    if AskAboutGiovanni(g, id).Ok? {
      var g' := AskAboutGiovanni(g, id).value.0;
      forall k | k in g'.npcs ensures NpcInv(k, g'.npcs[k], o[k], g'.conversationHistory) {
        if k != id {
          assert NpcInv(k, g.npcs[k], o[k], g.conversationHistory);
        }
      }
    }
  }

  lemma AskAiBubbleOpinionKeepsInv(g: GameState, o: map<string, NpcInfo>, id: string)
    requires Inv(g, o)
    ensures AskAiBubbleOpinion(g, id).Ok? ==> Inv(AskAiBubbleOpinion(g, id).value.0, o)
  {
    if AskAiBubbleOpinion(g, id).Ok? && g.npcs[id].conversationPhase == AiOpinion {
      var g' := AskAiBubbleOpinion(g, id).value.0;
      assert NpcInv(id, g.npcs[id], o[id], g.conversationHistory);
      forall k | k in g'.npcs ensures NpcInv(k, g'.npcs[k], o[k], g'.conversationHistory) {
        if k != id {
          assert NpcInv(k, g.npcs[k], o[k], g.conversationHistory);
        }
      }
    }
  }

  /** Wearing one more point off a worn-down resistance is the same as
      counting one more argument against the original. */
  lemma WearDown(r0: int, n: nat)
    requires r0 >= 0
    ensures (if Max0(r0 - n) - 1 > 0 then Max0(r0 - n) - 1 else 0) == Max0(r0 - (n + 1))
  {
  }

  /** The NPC a `make_argument` call argued with still satisfies its part of
      the invariant. */
  lemma ArguedNpcInv(id: string, npc: Npc, npc': Npc, origin: NpcInfo, h: map<string, seq<Entry>>,
                     h': map<string, seq<Entry>>, text: string)
    requires NpcInv(id, npc, origin, h) && origin.resistanceLevel >= 0
    requires npc.conversationPhase == ArgumentPhase && id in h'
    requires ArgumentChange(npc, npc', text)
    ensures NpcInv(id, npc', origin, h')
  {
    if !IsChicoteia(text) {
      WearDown(origin.resistanceLevel, |npc.argumentsUsed|);
    }
  }

  /** A step that changes at most one NPC, keeps it within the invariant
      and only adds histories of known NPCs keeps the invariant. */
  lemma OneNpcChangedKeepsInv(g: GameState, g': GameState, o: map<string, NpcInfo>, id: string)
    requires Inv(g, o) && id in g.npcs
    requires NpcsAgreeExcept(g.npcs, g'.npcs, id)
    requires g'.npcOrder == g.npcOrder && g'.currentNpc == g.currentNpc
    requires g.conversationHistory.Keys <= g'.conversationHistory.Keys <= g.npcs.Keys
    requires NpcInv(id, g'.npcs[id], o[id], g'.conversationHistory)
    ensures Inv(g', o)
  {
    forall k | k in g'.npcs ensures NpcInv(k, g'.npcs[k], o[k], g'.conversationHistory) {
      if k != id {
        assert NpcInv(k, g.npcs[k], o[k], g.conversationHistory);
      }
    }
  }

  /** What an accepted argument does to the NPC argued with: the phase and
      status move together, and only a regular argument is counted against
      the resistance. */
  predicate ArgumentChange(npc: Npc, npc': Npc, text: string) {
    && (npc'.conversationPhase == Phase.Safe ==> npc'.status == Status.Safe)
    && (npc'.conversationPhase != Phase.Safe ==> npc'.status == npc.status && npc'.conversationPhase == ArgumentPhase)
    && npc'.info.(resistanceLevel := npc.info.resistanceLevel) == npc.info
    && (IsChicoteia(text) ==> npc'.argumentsUsed == npc.argumentsUsed && npc'.info == npc.info)
    && (!IsChicoteia(text) ==>
          && npc'.argumentsUsed == npc.argumentsUsed + [text]
          && npc'.info.resistanceLevel == (if npc.info.resistanceLevel - 1 > 0 then npc.info.resistanceLevel - 1 else 0))
  }

  /** The frame and NPC change of an accepted argument, read off its
      contract. */
  lemma AcceptedArgument(g: GameState, id: string, text: string, coin: bool)
    requires id in g.npcs && g.npcs[id].conversationPhase == ArgumentPhase
    requires !(IsChicoteia(text) && g.npcs[id].chicoteiaUsed) && id in g.conversationHistory
    ensures MakeArgument(g, id, text, coin).Ok?
    ensures var g' := MakeArgument(g, id, text, coin).value.0;
      && NpcsAgreeExcept(g.npcs, g'.npcs, id)
      && g'.npcOrder == g.npcOrder && g'.currentNpc == g.currentNpc
      && g'.conversationHistory.Keys == g.conversationHistory.Keys
      && ArgumentChange(g.npcs[id], g'.npcs[id], text)
  {
  }

  /** An accepted argument, described by what it changes, keeps the
      invariant. */
  lemma ArgumentOutcomeKeepsInv(g: GameState, g': GameState, o: map<string, NpcInfo>, id: string, text: string)
    requires Inv(g, o) && id in g.npcs && g.npcs[id].conversationPhase == ArgumentPhase
    requires NpcsAgreeExcept(g.npcs, g'.npcs, id)
    requires g'.npcOrder == g.npcOrder && g'.currentNpc == g.currentNpc
    requires g'.conversationHistory.Keys == g.conversationHistory.Keys && id in g.conversationHistory
    requires ArgumentChange(g.npcs[id], g'.npcs[id], text)
    ensures Inv(g', o)
  {
    assert NpcInv(id, g.npcs[id], o[id], g.conversationHistory);
    ArguedNpcInv(id, g.npcs[id], g'.npcs[id], o[id], g.conversationHistory, g'.conversationHistory, text);
    OneNpcChangedKeepsInv(g, g', o, id);
  }

  lemma MakeArgumentKeepsInv(g: GameState, o: map<string, NpcInfo>, id: string, text: string, coin: bool)
    requires Inv(g, o)
    ensures MakeArgument(g, id, text, coin).Ok? ==> Inv(MakeArgument(g, id, text, coin).value.0, o)
  {
    if id in g.npcs && g.npcs[id].conversationPhase == ArgumentPhase
       && !(IsChicoteia(text) && g.npcs[id].chicoteiaUsed) && id in g.conversationHistory {
      AcceptedArgument(g, id, text, coin);
      ArgumentOutcomeKeepsInv(g, MakeArgument(g, id, text, coin).value.0, o, id, text);
    }
  }

  /** The invariant of a session: no game yet, or a game descended from the
      roster. */
  predicate SessionInv(s: Session) {
    s.None? || (Inv(s.value, RosterOrigin()) && s.value.npcOrder == Ids(NPCS))
  }

  /** No request other than `start_game` reorders the NPCs. */
  lemma NextKeepsOrder(s: Session, req: Request)
    requires s.Some? && !req.StartGameRequest?
    ensures Next(s, req).Some? && Next(s, req).value.npcOrder == s.value.npcOrder
  {
  }

  /** Logging into one history of an NPC the game has keeps the invariant. */
  lemma LogKeepsInv(g: GameState, o: map<string, NpcInfo>, id: string, h: seq<Entry>)
    requires Inv(g, o) && id in g.npcs
    ensures Inv(g.(conversationHistory := g.conversationHistory[id := h]), o)
  {
    var g' := g.(conversationHistory := g.conversationHistory[id := h]);
    forall k | k in g'.npcs ensures NpcInv(k, g'.npcs[k], o[k], g'.conversationHistory) {
      assert NpcInv(k, g.npcs[k], o[k], g.conversationHistory);
    }
  }

  /** Every request, whatever the draws and the generated texts, keeps the
      invariant of the session. */
  lemma NextKeepsInv(s: Session, req: Request)
    requires SessionInv(s)
    ensures SessionInv(Next(s, req))
  {
    var o := RosterOrigin();
    match req
    case StartGameRequest =>
      NewGameInv();
      NewGameRoster();
    case _ =>
      if s.Some? {
        NextKeepsOrder(s, req);
        NextKeepsRosterInv(s.value, o, req);
      }
  }

  lemma OpinionRouteKeepsInv(g: GameState, o: map<string, NpcInfo>, id: string, completion: Option<string>)
    requires Inv(g, o)
    ensures AskAiOpinionRoute(Some(g), id, completion).0.Some?
    ensures Inv(AskAiOpinionRoute(Some(g), id, completion).0.value, o)
  {
    if id in g.npcs && g.npcs[id].conversationPhase == AiOpinion {
      AskAiBubbleOpinionKeepsInv(g, o, id);
      var moved := AskAiBubbleOpinion(g, id).value.0;
      var text := GenerateAiBubbleResponse(moved.npcs[id], completion);
      LogKeepsInv(moved, o, id, HistoryOf(g, id) + [OpinionStated(text)]);
    }
  }

  lemma ChatRouteKeepsInv(g: GameState, o: map<string, NpcInfo>, id: string, message: string,
                          complete: seq<Message> -> Option<string>, fallback: Choice4)
    requires Inv(g, o)
    ensures ChatRoute(Some(g), id, message, complete, fallback).0.Some?
    ensures Inv(ChatRoute(Some(g), id, message, complete, fallback).0.value, o)
  {
    if id in g.npcs {
      var reply := GenerateNpcResponse(ViewOf(g.npcs[id]), HistoryOf(g, id), message, complete, fallback);
      LogKeepsInv(g, o, id, HistoryOf(g, id) + [UserMessage(message), AiResponse(reply)]);
    }
  }

  lemma NextKeepsRosterInv(g: GameState, o: map<string, NpcInfo>, req: Request)
    requires Inv(g, o) && !req.StartGameRequest?
    ensures Next(Some(g), req).Some? && Inv(Next(Some(g), req).value, o)
  {
    match req
    case StartGameRequest =>
      assert false;
    case StartConversationRequest(id, greeting) =>
      StartConversationKeepsInv(g, o, id, greeting);
    case AskGiovanniRequest(id) =>
      AskAboutGiovanniKeepsInv(g, o, id);
    case AskAiOpinionRequest(id, completion) =>
      OpinionRouteKeepsInv(g, o, id, completion);
    case MakeArgumentRequest(id, text, coin) =>
      MakeArgumentKeepsInv(g, o, id, text, coin);
    case ChatRequest(id, message, complete, fallback) =>
      ChatRouteKeepsInv(g, o, id, message, complete, fallback);
    case GameStatusRequest =>
    case AvailableArgumentsRequest =>
    case RandomArgumentsRequest(draws) =>
  }

  lemma {:induction false} RunKeepsInv(s: Session, reqs: seq<Request>)
    requires SessionInv(s)
    ensures SessionInv(Run(s, reqs))
    decreases |reqs|
  {
    if reqs != [] {
      NextKeepsInv(s, reqs[0]);
      RunKeepsInv(Next(s, reqs[0]), reqs[1..]);
    }
  }

  /** Every session a player can reach from an empty one satisfies the
      invariant. */
  lemma ReachableInv(reqs: seq<Request>)
    ensures SessionInv(Run(None, reqs))
  {
    RunKeepsInv(None, reqs);
  }

  // ---------------------------------------------------------------------
  // Consequences for every reachable game

  /** In every reachable game an NPC's status is determined by its phase:
      not met while initial, to be convinced in the opinion and argument
      phases, safe exactly in the safe phase; "giovanni_check" never
      persists. */
  lemma StatusFollowsPhase(reqs: seq<Request>, id: string)
    ensures var s := Run(None, reqs);
      s.Some? && id in s.value.npcs ==>
        var npc := s.value.npcs[id];
        && npc.conversationPhase != GiovanniCheck
        && (npc.status == Unknown <==> npc.conversationPhase == Initial)
        && (npc.status == NeedsConvincing <==> npc.conversationPhase == AiOpinion || npc.conversationPhase == ArgumentPhase)
        && (npc.status == Status.Safe <==> npc.conversationPhase == Phase.Safe)
  {
    ReachableInv(reqs);
    var s := Run(None, reqs);
    if s.Some? && id in s.value.npcs {
      InvStatus(s.value, RosterOrigin(), id);
    }
  }

  lemma InvStatus(g: GameState, o: map<string, NpcInfo>, id: string)
    requires Inv(g, o) && id in g.npcs
    ensures var npc := g.npcs[id];
      && npc.conversationPhase != GiovanniCheck
      && (npc.status == Unknown <==> npc.conversationPhase == Initial)
      && (npc.status == NeedsConvincing <==> npc.conversationPhase == AiOpinion || npc.conversationPhase == ArgumentPhase)
      && (npc.status == Status.Safe <==> npc.conversationPhase == Phase.Safe)
  {
    assert NpcInv(id, g.npcs[id], o[id], g.conversationHistory);
  }

  /** Each NPC of a game satisfying the invariant is a roster entry worn
      down by the regular arguments spent on it. */
  lemma NpcIsRosterEntry(g: GameState, id: string)
    requires Inv(g, RosterOrigin()) && id in g.npcs
    ensures exists i ::
      && 0 <= i < |NPCS| && NPCS[i].id == id
      && g.npcs[id].info == NPCS[i].(resistanceLevel := g.npcs[id].info.resistanceLevel)
      && g.npcs[id].info.resistanceLevel == Max0(NPCS[i].resistanceLevel - |g.npcs[id].argumentsUsed|)
  {
    var o := RosterOrigin();
    RosterOriginEntries();
    assert NpcInv(id, g.npcs[id], o[id], g.conversationHistory);
    var i :| 0 <= i < |NPCS| && NPCS[i] == o[id] && NPCS[i].id == id;
  }

  /** A game within the invariant holds the ten roster NPCs in roster
      order, each unchanged but for its resistance, which is its roster
      resistance less the regular arguments spent on it (never below zero). */
  lemma RosterIsKept(g: GameState, id: string)
    requires SessionInv(Some(g))
    ensures g.npcOrder == Ids(NPCS)
    ensures g.npcs.Keys == NewGame().npcs.Keys
    ensures id in g.npcs ==>
      exists i :: 0 <= i < |NPCS| && NPCS[i].id == id
        && g.npcs[id].info == NPCS[i].(resistanceLevel := g.npcs[id].info.resistanceLevel)
        && g.npcs[id].info.resistanceLevel == Max0(NPCS[i].resistanceLevel - |g.npcs[id].argumentsUsed|)
  {
    assert g.npcs.Keys == RosterOrigin().Keys;
    if id in g.npcs {
      NpcIsRosterEntry(g, id);
    }
  }

  /** In a reachable game `make_argument` raises only for an unknown NPC: an
      NPC in the argument phase always has a history to log into. */
  lemma ArgumentRaisesOnlyForUnknownNpc(reqs: seq<Request>, id: string, text: string, coin: bool)
    ensures var s := Run(None, reqs);
      s.Some? ==> (MakeArgument(s.value, id, text, coin).Raised? <==> id !in s.value.npcs)
  {
    ReachableInv(reqs);
    var s := Run(None, reqs);
    if s.Some? && id in s.value.npcs {
      InvHistory(s.value, RosterOrigin(), id);
    }
  }

  /** Under the invariant an NPC that has left the first phase has a
      history. */
  lemma InvHistory(g: GameState, o: map<string, NpcInfo>, id: string)
    requires Inv(g, o) && id in g.npcs
    ensures g.npcs[id].conversationPhase != Initial ==> id in g.conversationHistory
  {
    assert NpcInv(id, g.npcs[id], o[id], g.conversationHistory);
  }

  /** A regular argument against a resistance of two or more is lost. */
  lemma ArgumentAgainstResistance(g: GameState, id: string, text: string, coin: bool)
    requires id in g.npcs && id in g.conversationHistory && !IsChicoteia(text)
    requires g.npcs[id].conversationPhase == ArgumentPhase && g.npcs[id].status == NeedsConvincing
    requires g.npcs[id].info.resistanceLevel >= 2
    ensures var r := MakeArgument(g, id, text, coin);
      && r.Ok? && r.value.1 == ArgumentReply(ArgumentLost, false, ArgumentPhase, Some(NeedsConvincing))
      && r.value.0.npcs[id].status == NeedsConvincing
  {
  }

  /** Only NPCs that know Giovanni and believe in the bubble are argued with,
      and each needs two regular arguments: the first regular argument never
      convinces, and the NPC stays to be convinced. */
  lemma FirstRegularArgumentFails(g: GameState, id: string, text: string, coin: bool)
    requires SessionInv(Some(g))
    requires id in g.npcs && g.npcs[id].conversationPhase == ArgumentPhase
    requires g.npcs[id].argumentsUsed == [] && !IsChicoteia(text)
    ensures var r := MakeArgument(g, id, text, coin);
      && r.Ok? && r.value.1 == ArgumentReply(ArgumentLost, false, ArgumentPhase, Some(NeedsConvincing))
      && r.value.0.npcs[id].status == NeedsConvincing
  {
    assert NpcInv(id, g.npcs[id], RosterOrigin()[id], g.conversationHistory);
    NpcIsRosterEntry(g, id);
    var i :| 0 <= i < |NPCS| && NPCS[i].id == id
      && g.npcs[id].info == NPCS[i].(resistanceLevel := g.npcs[id].info.resistanceLevel)
      && g.npcs[id].info.resistanceLevel == Max0(NPCS[i].resistanceLevel - |g.npcs[id].argumentsUsed|);
    AwareSkepticsResistTwice();
    ArgumentAgainstResistance(g, id, text, coin);
  }

  // ---------------------------------------------------------------------
  // The status report

  lemma {:induction false} WithStatusPartition(s: seq<Npc>)
    ensures |WithStatus(s, Status.Safe)| + |WithStatus(s, NeedsConvincing)| + |WithStatus(s, Unknown)| == |s|
  {
    if s != [] {
      WithStatusPartition(s[1..]);
    }
  }

  /** The filter keeps every element exactly when they all have the status. */
  lemma {:induction false} WithStatusKeepsAll(s: seq<Npc>, st: Status)
    ensures |WithStatus(s, st)| == |s| <==> forall n :: n in s ==> n.status == st
  {
    if s != [] {
      WithStatusKeepsAll(s[1..], st);
      assert forall n :: n in s[1..] ==> n in s;
      assert forall n :: n in s ==> n == s[0] || n in s[1..];
    }
  }

  /** With a well-formed key order, the ordered NPC list holds each NPC once. */
  lemma {:induction false} OrderedNpcsComplete(npcs: map<string, Npc>, order: seq<string>)
    requires Distinct(order) && forall k :: k in order ==> k in npcs
    ensures |OrderedNpcs(npcs, order)| == |order|
    ensures forall k :: k in order ==> npcs[k] in OrderedNpcs(npcs, order)
  {
    if order != [] {
      DistinctTail(order);
      OrderedNpcsComplete(npcs, order[1..]);
      assert forall k :: k in order ==> k == order[0] || k in order[1..];
    }
  }

  /** `get_game_status` accounts for every NPC once: the three lists hold
      every NPC under its status, their sizes add up to the total, and the
      safe count reaches the total exactly when every NPC is safe. */
  lemma GameStatusPartition(g: GameState)
    requires OrderWf(g)
    ensures var r := GetGameStatus(g);
      && |r.safeNpcs| + |r.needsConvincing| + |r.unknown| == r.totalNpcs
      && (r.safeCount == r.totalNpcs <==> AllSafe(g.npcs))
      && forall k :: k in g.npcs ==>
           && (g.npcs[k].status == Status.Safe ==> g.npcs[k] in r.safeNpcs)
           && (g.npcs[k].status == NeedsConvincing ==> g.npcs[k] in r.needsConvincing)
           && (g.npcs[k].status == Unknown ==> g.npcs[k] in r.unknown)
  {
    var all := OrderedNpcs(g.npcs, g.npcOrder);
    OrderedNpcsComplete(g.npcs, g.npcOrder);
    DistinctCardinality(g.npcOrder);
    assert (set x | x in g.npcOrder) == g.npcs.Keys;
    assert |all| == |g.npcs|;
    WithStatusPartition(all);
    WithStatusKeepsAll(all, Status.Safe);
    if forall n :: n in all ==> n.status == Status.Safe {
      forall k | k in g.npcs ensures g.npcs[k].status == Status.Safe {
        assert g.npcs[k] in all;
      }
    }
  }

  /** The report of any reachable game adds up. */
  lemma ReachableStatusAddsUp(reqs: seq<Request>)
    ensures var s := Run(None, reqs);
      s.Some? ==>
        var r := GetGameStatus(s.value);
        && r.totalNpcs == 10
        && |r.safeNpcs| + |r.needsConvincing| + |r.unknown| == 10
        && (r.safeCount == 10 <==> AllSafe(s.value.npcs))
  {
    ReachableInv(reqs);
    var s := Run(None, reqs);
    if s.Some? {
      GameStatusPartition(s.value);
      NewGameRoster();
      RosterIsKept(s.value, "");
      assert |s.value.npcs.Keys| == |NewGame().npcs.Keys|;
    }
  }
}

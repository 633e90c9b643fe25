/** Whole games against the real roster.  The five NPCs that know Giovanni
    and believe in the bubble must be argued with; the other five are
    persuaded by questions alone.  Because only `make_argument` recomputes
    the win flag, the order in which they are persuaded decides whether the
    game ends won, and a later question can undo a win without clearing
    the flag. */
module Playthroughs {
  import opened Wrappers
  import opened Seqs
  import opened NpcData
  import opened GameLogic
  import opened App
  import opened Invariants
  import opened Scenarios

  /** The roster entries that must be argued with, in roster order. */
  const ARGUED: seq<NpcInfo> := [ALEX_FRONTEND, MARIA_BACKEND, SARAH_PM, LISA_DATA, ROBERT_LEAD]

  /** The roster entries that questions alone make safe, in roster order. */
  const UNARGUED: seq<NpcInfo> := [DAVID_DEVOPS, TOM_UX, MIKE_SECURITY, JEN_FOUNDER, ANNA_QA]

  lemma RosterSplit()
    ensures Ids(ARGUED) == ["alex_frontend", "maria_backend", "sarah_pm", "lisa_data", "robert_lead"]
    ensures Ids(UNARGUED) == ["david_devops", "tom_ux", "mike_security", "jen_founder", "anna_qa"]
    ensures forall i :: 0 <= i < |ARGUED| ==> Arguer(ARGUED[i])
    ensures forall i :: 0 <= i < |UNARGUED| ==> !Arguer(UNARGUED[i])
  {
  }

  /** Every NPC of a fresh game is one of the two groups. */
  lemma FreshKeysSplit()
    ensures forall k :: k in NewGame().npcs ==> k in Ids(ARGUED) || k in Ids(UNARGUED)
  {
    NewGameRoster();
    RosterIds();
    RosterSplit();
  }

  /** A fresh game holds every roster entry as not yet met. */
  lemma FreshMatches(infos: seq<NpcInfo>)
    requires forall i :: 0 <= i < |infos| ==> infos[i] in NPCS
    ensures forall i :: 0 <= i < |infos| ==> Matches(NewGame(), infos[i])
  {
    NewGameRoster();
    forall i | 0 <= i < |infos| ensures Matches(NewGame(), infos[i]) {
      var j :| 0 <= j < |NPCS| && NPCS[j] == infos[i];
    }
  }

  /** The index form of `AllConvinced`, by id. */
  lemma ConvincedIds(infos: seq<NpcInfo>, npcs: map<string, Npc>)
    requires AllConvinced(infos, npcs)
    ensures forall k :: k in Ids(infos) ==> k in npcs && npcs[k].status == Status.Safe
  {
    forall k | k in Ids(infos) ensures k in npcs && npcs[k].status == Status.Safe {
      var j :| 0 <= j < |infos| && Ids(infos)[j] == k;
    }
  }

  /** In any game reached by requests, an NPC keeps its roster entry's
      acquaintance with Giovanni. */
  lemma ReachedKnows(reqs: seq<Request>, j: int)
    requires 0 <= j < |NPCS|
    requires Run(None, reqs).Some? && NPCS[j].id in Run(None, reqs).value.npcs
    ensures Run(None, reqs).value.npcs[NPCS[j].id].info.knowsGiovanni == NPCS[j].knowsGiovanni
  {
    var g := Run(None, reqs).value;
    ReachableInv(reqs);
    RosterIsKept(g, NPCS[j].id);
    var i :| 0 <= i < |NPCS| && NPCS[i].id == NPCS[j].id
      && g.npcs[NPCS[j].id].info == NPCS[i].(resistanceLevel := g.npcs[NPCS[j].id].info.resistanceLevel);
    RosterIdsDistinct();
    assert Ids(NPCS)[i] == Ids(NPCS)[j];
  }

  lemma StartsFresh()
    ensures Run(None, [StartGameRequest]) == Some(NewGame())
  {
    RunCons(None, StartGameRequest, []);
  }

  /** Running `first` and then `second` after `start_game`. */
  lemma RunTwoScripts(first: seq<NpcInfo>, second: seq<NpcInfo>)
    ensures Run(None, [StartGameRequest] + Script(first) + Script(second))
         == Run(Run(Some(NewGame()), Script(first)), Script(second))
  {
    StartsFresh();
    RunAppend(None, [StartGameRequest] + Script(first), Script(second));
    RunAppend(None, [StartGameRequest], Script(first));
  }

  /** After one group is convinced from a fresh game, the other group is
      still to be convinced. */
  lemma SecondGroupMatches(first: seq<NpcInfo>, second: seq<NpcInfo>, s: Session)
    requires forall i :: 0 <= i < |second| ==> second[i] in NPCS && second[i].id !in Ids(first)
    requires ListConvinced(NewGame(), first, s)
    ensures forall i :: 0 <= i < |second| ==> Matches(s.value, second[i])
  {
    FreshMatches(second);
  }

  /** The two groups, each convinced in one go, leave every NPC safe. */
  lemma BothGroupsSafe(g: GameState, first: seq<NpcInfo>, second: seq<NpcInfo>, s1: Session, s: Session)
    requires forall k :: k in g.npcs ==> k in Ids(first) || k in Ids(second)
    requires ListConvinced(g, first, s1) && AllConvinced(first, s1.value.npcs)
    requires ListConvinced(s1.value, second, s)
    ensures AllSafe(s.value.npcs)
  {
    ConvincedIds(first, s1.value.npcs);
    ConvincedIds(second, s.value.npcs);
  }

  /** Two groups of roster entries that together cover the roster, with no
      id in both and none twice. */
  predicate Partition(first: seq<NpcInfo>, second: seq<NpcInfo>) {
    && Distinct(Ids(first)) && Distinct(Ids(second))
    && (forall i :: 0 <= i < |first| ==> first[i] in NPCS)
    && (forall i :: 0 <= i < |second| ==> second[i] in NPCS && second[i].id !in Ids(first))
    && (forall k :: k in NewGame().npcs ==> k in Ids(first) || k in Ids(second))
  }

  /** Convincing `first` from a fresh game, then `second`. */
  lemma TwoGroups(first: seq<NpcInfo>, second: seq<NpcInfo>)
    requires Partition(first, second)
    ensures var s1 := Run(Some(NewGame()), Script(first));
      && ListConvinced(NewGame(), first, s1)
      && ListConvinced(s1.value, second, Run(s1, Script(second)))
    ensures var s := Run(None, [StartGameRequest] + Script(first) + Script(second));
      s.Some? && AllSafe(s.value.npcs)
  {
    var g0 := NewGame();
    FreshMatches(first);
    ConvinceList(g0, first);
    var s1 := Run(Some(g0), Script(first));
    SecondGroupMatches(first, second, s1);
    ConvinceList(s1.value, second);
    BothGroupsSafe(g0, first, second, s1, Run(s1, Script(second)));
    RunTwoScripts(first, second);
  }

  /** A fresh game has met nobody, so nobody is safe yet. */
  lemma FreshUnconvinced(d: NpcInfo)
    requires d in NPCS
    ensures d.id in NewGame().npcs && NewGame().npcs[d.id].status == Unknown
  {
    NewGameRoster();
    var j :| 0 <= j < |NPCS| && NPCS[j] == d;
  }

  /** The win flag the last argument left behind is false while some NPC
      outside the convinced list is not yet safe. */
  lemma LastArgumentSeesUnconvinced(g: GameState, infos: seq<NpcInfo>, s: Session, k: string)
    requires ListConvinced(g, infos, s)
    requires infos != [] && Arguer(infos[|infos| - 1])
    requires k in g.npcs && k !in Ids(infos) && g.npcs[k].status != Status.Safe
    ensures !s.value.gameWon
  {
  }

  /** When the last argument comes before the other group is persuaded,
      every NPC ends safe and the game is not won. */
  lemma ArguedFirstNeverWins(first: seq<NpcInfo>, second: seq<NpcInfo>)
    requires Partition(first, second)
    requires first != [] && Arguer(first[|first| - 1])
    requires second != [] && forall i :: 0 <= i < |second| ==> !Arguer(second[i])
    ensures var s := Run(None, [StartGameRequest] + Script(first) + Script(second));
      && s.Some? && AllSafe(s.value.npcs) && !s.value.gameWon
  {
    TwoGroups(first, second);
    RunTwoScripts(first, second);
    var s1 := Run(Some(NewGame()), Script(first));
    FreshUnconvinced(second[0]);
    LastArgumentSeesUnconvinced(NewGame(), first, s1, second[0].id);
  }

  /** When the other group is persuaded first and an argument comes last,
      the game is won. */
  lemma ArguedLastWins(first: seq<NpcInfo>, second: seq<NpcInfo>)
    requires Partition(first, second)
    requires forall i :: 0 <= i < |first| ==> !Arguer(first[i])
    requires second != [] && Arguer(second[|second| - 1])
    ensures var s := Run(None, [StartGameRequest] + Script(first) + Script(second));
      && s.Some? && AllSafe(s.value.npcs) && s.value.gameWon
      && second[|second| - 1].id in s.value.npcs
      && second[|second| - 1].id in s.value.conversationHistory
  {
    TwoGroups(first, second);
    RunTwoScripts(first, second);
  }

  lemma RosterPartition()
    ensures Partition(ARGUED, UNARGUED) && Partition(UNARGUED, ARGUED)
  {
    RosterSplit();
    FreshKeysSplit();
    RosterIds();
  }

  /** Arguing with the believers first and persuading the others afterwards
      makes every NPC safe, yet the game is never won: the last
      `make_argument` saw five NPCs unconvinced, and no later request
      recomputes the flag. */
  lemma WinFlagLags()
    ensures var s := Run(None, [StartGameRequest] + Script(ARGUED) + Script(UNARGUED));
      && s.Some? && AllSafe(s.value.npcs) && !s.value.gameWon
  {
    RosterPartition();
    RosterSplit();
    ArguedFirstNeverWins(ARGUED, UNARGUED);
  }

  /** Persuading the non-believers first and arguing with the believers
      last wins the game. */
  lemma GameCanBeWon()
    ensures var s := Run(None, [StartGameRequest] + Script(UNARGUED) + Script(ARGUED));
      && s.Some? && AllSafe(s.value.npcs) && s.value.gameWon
  {
    RosterPartition();
    RosterSplit();
    ArguedLastWins(UNARGUED, ARGUED);
  }

  /** Asking an NPC that knows Giovanni about him again, in any game
      reached by requests, puts it back in the opinion phase, unconvinced,
      and leaves the win flag alone. */
  lemma AskAgain(reqs: seq<Request>, j: int)
    requires 0 <= j < |NPCS| && NPCS[j].knowsGiovanni
    requires var s := Run(None, reqs);
      && s.Some? && NPCS[j].id in s.value.npcs && NPCS[j].id in s.value.conversationHistory
    ensures var s, s' := Run(None, reqs), Run(None, reqs + [AskGiovanniRequest(NPCS[j].id)]);
      && s'.Some? && s'.value.gameWon == s.value.gameWon
      && NPCS[j].id in s'.value.npcs
      && s'.value.npcs[NPCS[j].id].conversationPhase == AiOpinion
      && s'.value.npcs[NPCS[j].id].status == NeedsConvincing
  {
    var g := Run(None, reqs).value;
    ReachedKnows(reqs, j);
    StepGiovanni(g, NPCS[j].id);
    RunAppend(None, reqs, [AskGiovanniRequest(NPCS[j].id)]);
    RunCons(Some(g), AskGiovanniRequest(NPCS[j].id), []);
  }

  /** Asking a convinced NPC about Giovanni again after the win sends it back
      to the opinion phase, unconvinced, while the game still reads won. */
  lemma WinFlagOutlivesWin()
    ensures var s := Run(None, [StartGameRequest] + Script(UNARGUED) + Script(ARGUED) + [AskGiovanniRequest(ROBERT_LEAD.id)]);
      && s.Some? && s.value.gameWon && !AllSafe(s.value.npcs)
      && ROBERT_LEAD.id in s.value.npcs
      && s.value.npcs[ROBERT_LEAD.id].conversationPhase == AiOpinion
      && s.value.npcs[ROBERT_LEAD.id].status == NeedsConvincing
  {
    RosterPartition();
    RosterSplit();
    ArguedLastWins(UNARGUED, ARGUED);
    assert ARGUED[|ARGUED| - 1] == ROBERT_LEAD == NPCS[8];
    AskAgain([StartGameRequest] + Script(UNARGUED) + Script(ARGUED), 8);
  }

  /** Greeting a roster entry of a fresh game and asking what it takes
      makes it safe. */
  lemma FreshConvince(d: NpcInfo)
    requires d in NPCS
    ensures var s := Run(None, [StartGameRequest] + ConvinceRequests(d));
      && s.Some? && d.id in s.value.npcs && d.id in s.value.conversationHistory
      && s.value.npcs[d.id].status == Status.Safe
  {
    FreshMatches([d]);
    assert Matches(NewGame(), [d][0]);
    ConvinceOne(NewGame(), d);
    StartsFresh();
    RunAppend(None, [StartGameRequest], ConvinceRequests(d));
  }

  /** A convinced NPC that does not believe in the bubble can be sent back
      to the opinion phase by asking about Giovanni again. */
  lemma SafeNpcRegresses()
    ensures var s := Run(None, [StartGameRequest] + ConvinceRequests(TOM_UX));
      && s.Some? && TOM_UX.id in s.value.npcs && s.value.npcs[TOM_UX.id].status == Status.Safe
    ensures var s := Run(None, [StartGameRequest] + ConvinceRequests(TOM_UX) + [AskGiovanniRequest(TOM_UX.id)]);
      && s.Some? && TOM_UX.id in s.value.npcs
      && s.value.npcs[TOM_UX.id].conversationPhase == AiOpinion
      && s.value.npcs[TOM_UX.id].status == NeedsConvincing
  {
    assert NPCS[4] == TOM_UX;
    FreshConvince(TOM_UX);
    AskAgain([StartGameRequest] + ConvinceRequests(TOM_UX), 4);
  }
}

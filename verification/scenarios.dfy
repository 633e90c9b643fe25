/** Sequences of requests a player can send, and what they lead to: every
    NPC can be made safe, the game can be won, a safe NPC can be sent back to
    the opinion phase, and the stored win flag can disagree with the NPCs
    both ways, since only `make_argument` recomputes it. */
module Scenarios {
  import opened Wrappers
  import opened Seqs
  import opened Text
  import opened NpcData
  import opened GameLogic
  import opened App
  import opened Invariants

  lemma RunCons(s: Session, r: Request, rest: seq<Request>)
    ensures Run(s, [r] + rest) == Run(Next(s, r), rest)
  {
    assert ([r] + rest)[0] == r;
    assert ([r] + rest)[1..] == rest;
  }

  /** An NPC that knows Giovanni and believes in the bubble: the only kind
      that has to be argued with. */
  predicate Arguer(d: NpcInfo) {
    d.knowsGiovanni && d.aiBubbleStance == "bubble"
  }

  /** The shortest way to make the NPC of roster entry `d` safe: greet it,
      ask about Giovanni, ask its opinion if it knows him, and say
      "chicoteia" with a winning coin if it believes in the bubble. */
  function ConvinceRequests(d: NpcInfo): seq<Request> {
    [StartConversationRequest(d.id, 0), AskGiovanniRequest(d.id)]
    + (if d.knowsGiovanni then [AskAiOpinionRequest(d.id, None)] else [])
    + (if Arguer(d) then [MakeArgumentRequest(d.id, "chicoteia", true)] else [])
  }

  /** The NPC `d.id` of `g` behaves as roster entry `d` and has not heard
      "chicoteia" yet. */
  predicate Matches(g: GameState, d: NpcInfo) {
    && d.id in g.npcs
    && g.npcs[d.id].info.knowsGiovanni == d.knowsGiovanni
    && g.npcs[d.id].info.aiBubbleStance == d.aiBubbleStance
    && !g.npcs[d.id].chicoteiaUsed
  }

  lemma ChicoteiaIsRecognised()
    ensures IsChicoteia("chicoteia")
  {
    assert Lower("chicoteia") == "chicoteia";
  }

  /** Greeting an NPC opens its history and changes no NPC. */
  lemma StepStart(g: GameState, id: string)
    requires id in g.npcs
    ensures var s := Next(Some(g), StartConversationRequest(id, 0));
      && s.Some? && s.value.npcs == g.npcs && s.value.npcOrder == g.npcOrder
      && s.value.gameWon == g.gameWon && id in s.value.conversationHistory
  {
  }

  /** Asking about Giovanni moves the NPC to the opinion phase, or makes it
      safe when it does not know him. */
  lemma StepGiovanni(g: GameState, id: string)
    requires id in g.npcs && id in g.conversationHistory
    ensures var s := Next(Some(g), AskGiovanniRequest(id));
      && s.Some? && NpcsAgreeExcept(g.npcs, s.value.npcs, id)
      && OnlyPhaseStatusChanged(g.npcs[id], s.value.npcs[id])
      && s.value.npcs[id].conversationPhase == (if g.npcs[id].info.knowsGiovanni then AiOpinion else Phase.Safe)
      && s.value.npcs[id].status == (if g.npcs[id].info.knowsGiovanni then NeedsConvincing else Status.Safe)
      && s.value.npcOrder == g.npcOrder && s.value.gameWon == g.gameWon && id in s.value.conversationHistory
  {
    assert Next(Some(g), AskGiovanniRequest(id)) == Some(AskAboutGiovanni(g, id).value.0);
  }

  /** Asking the opinion moves a bubble believer to the argument phase and
      makes anyone else safe. */
  lemma StepOpinion(g: GameState, id: string)
    requires id in g.npcs && id in g.conversationHistory && g.npcs[id].conversationPhase == AiOpinion
    ensures var s := Next(Some(g), AskAiOpinionRequest(id, None));
      && s.Some? && NpcsAgreeExcept(g.npcs, s.value.npcs, id)
      && OnlyPhaseStatusChanged(g.npcs[id], s.value.npcs[id])
      && s.value.npcs[id].conversationPhase == (if g.npcs[id].info.aiBubbleStance == "bubble" then ArgumentPhase else Phase.Safe)
      && (g.npcs[id].info.aiBubbleStance != "bubble" ==> s.value.npcs[id].status == Status.Safe)
      && s.value.npcOrder == g.npcOrder && s.value.gameWon == g.gameWon && id in s.value.conversationHistory
  {
    var moved := AskAiBubbleOpinion(g, id).value.0;
    assert Next(Some(g), AskAiOpinionRequest(id, None)).value.npcs == moved.npcs;
  }

  /** A first "chicoteia" with a winning coin makes the NPC safe and
      recomputes the win flag. */
  lemma StepChicoteia(g: GameState, id: string)
    requires id in g.npcs && id in g.conversationHistory
    requires g.npcs[id].conversationPhase == ArgumentPhase && !g.npcs[id].chicoteiaUsed
    ensures var s := Next(Some(g), MakeArgumentRequest(id, "chicoteia", true));
      && s.Some? && NpcsAgreeExcept(g.npcs, s.value.npcs, id)
      && s.value.npcs[id].status == Status.Safe
      && s.value.npcOrder == g.npcOrder && id in s.value.conversationHistory
      && (s.value.gameWon <==> AllSafe(s.value.npcs))
  {
    ChicoteiaIsRecognised();
    assert Next(Some(g), MakeArgumentRequest(id, "chicoteia", true)) == Some(MakeArgument(g, id, "chicoteia", true).value.0);
  }

  lemma Run2(s: Session, a: Request, b: Request)
    ensures Run(s, [a, b]) == Next(Next(s, a), b)
  {
    RunCons(s, a, [b]);
    RunCons(Next(s, a), b, []);
  }

  lemma Run3(s: Session, a: Request, b: Request, c: Request)
    ensures Run(s, [a, b, c]) == Next(Next(Next(s, a), b), c)
  {
    assert [a, b, c] == [a] + [b, c];
    RunCons(s, a, [b, c]);
    Run2(Next(s, a), b, c);
  }

  lemma Run4(s: Session, a: Request, b: Request, c: Request, e: Request)
    ensures Run(s, [a, b, c, e]) == Next(Next(Next(Next(s, a), b), c), e)
  {
    assert [a, b, c, e] == [a] + [b, c, e];
    RunCons(s, a, [b, c, e]);
    Run3(Next(s, a), b, c, e);
  }

  /** What convincing one NPC leaves behind. */
  predicate Convinced(g: GameState, d: NpcInfo, s: Session) {
    && s.Some?
    && NpcsAgreeExcept(g.npcs, s.value.npcs, d.id)
    && d.id in s.value.npcs
    && s.value.npcs[d.id].status == Status.Safe
    && s.value.npcOrder == g.npcOrder
    && d.id in s.value.conversationHistory
    && (Arguer(d) ==> (s.value.gameWon <==> AllSafe(s.value.npcs)))
    && (!Arguer(d) ==> s.value.gameWon == g.gameWon)
  }

  lemma ConvinceUnaware(g: GameState, d: NpcInfo)
    requires Matches(g, d) && !d.knowsGiovanni
    ensures Convinced(g, d, Run(Some(g), ConvinceRequests(d)))
  {
    var id := d.id;
    var r1, r2 := StartConversationRequest(id, 0), AskGiovanniRequest(id);
    assert ConvinceRequests(d) == [r1, r2];
    Run2(Some(g), r1, r2);
    StepStart(g, id);
    var g1 := Next(Some(g), r1).value;
    StepGiovanni(g1, id);
  }

  lemma ConvinceByOpinion(g: GameState, d: NpcInfo)
    requires Matches(g, d) && d.knowsGiovanni && !Arguer(d)
    ensures Convinced(g, d, Run(Some(g), ConvinceRequests(d)))
  {
    var id := d.id;
    var r1, r2, r3 := StartConversationRequest(id, 0), AskGiovanniRequest(id), AskAiOpinionRequest(id, None);
    assert ConvinceRequests(d) == [r1, r2, r3];
    Run3(Some(g), r1, r2, r3);
    StepStart(g, id);
    var g1 := Next(Some(g), r1).value;
    StepGiovanni(g1, id);
    var g2 := Next(Some(g1), r2).value;
    StepOpinion(g2, id);
  }

  lemma ConvinceByArgument(g: GameState, d: NpcInfo)
    requires Matches(g, d) && Arguer(d)
    ensures Convinced(g, d, Run(Some(g), ConvinceRequests(d)))
  {
    var id := d.id;
    var r1, r2 := StartConversationRequest(id, 0), AskGiovanniRequest(id);
    var r3, r4 := AskAiOpinionRequest(id, None), MakeArgumentRequest(id, "chicoteia", true);
    assert ConvinceRequests(d) == [r1, r2, r3, r4];
    Run4(Some(g), r1, r2, r3, r4);
    StepStart(g, id);
    var g1 := Next(Some(g), r1).value;
    StepGiovanni(g1, id);
    var g2 := Next(Some(g1), r2).value;
    StepOpinion(g2, id);
    var g3 := Next(Some(g2), r3).value;
    StepChicoteia(g3, id);
  }

  /** The requests make that NPC safe and touch no other NPC; the win flag
      is recomputed only when an argument was needed. */
  lemma ConvinceOne(g: GameState, d: NpcInfo)
    requires Matches(g, d)
    ensures Convinced(g, d, Run(Some(g), ConvinceRequests(d)))
  {
    if !d.knowsGiovanni {
      ConvinceUnaware(g, d);
    } else if !Arguer(d) {
      ConvinceByOpinion(g, d);
    } else {
      ConvinceByArgument(g, d);
    }
  }

  /** The requests that convince each entry of `infos` in turn. */
  function Script(infos: seq<NpcInfo>): seq<Request> {
    if infos == [] then [] else ConvinceRequests(infos[0]) + Script(infos[1..])
  }

  /** Every NPC of `infos` is present and safe. */
  predicate AllConvinced(infos: seq<NpcInfo>, npcs: map<string, Npc>) {
    forall i :: 0 <= i < |infos| ==> infos[i].id in npcs && npcs[infos[i].id].status == Status.Safe
  }

  /** What convincing the NPCs of `infos` in turn leaves behind: each of
      them safe, every other NPC as it was, the win flag unchanged when
      nobody had to be argued with and exact when the last one was. */
  predicate ListConvinced(g: GameState, infos: seq<NpcInfo>, s: Session) {
    && s.Some?
    && (infos == [] ==> s == Some(g))
    && (infos != [] ==> infos[|infos| - 1].id in s.value.conversationHistory)
    && s.value.npcs.Keys == g.npcs.Keys && s.value.npcOrder == g.npcOrder
    && AllConvinced(infos, s.value.npcs)
    && (forall k :: k in g.npcs && k !in Ids(infos) ==> s.value.npcs[k] == g.npcs[k])
    && ((forall i :: 0 <= i < |infos| ==> !Arguer(infos[i])) ==> s.value.gameWon == g.gameWon)
    && (infos != [] && Arguer(infos[|infos| - 1]) ==> (s.value.gameWon <==> AllSafe(s.value.npcs)))
  }

  lemma IdsCons(infos: seq<NpcInfo>)
    requires infos != [] && Distinct(Ids(infos))
    ensures Ids(infos) == [infos[0].id] + Ids(infos[1..])
    ensures Distinct(Ids(infos[1..])) && infos[0].id !in Ids(infos[1..])
  {
    assert Ids(infos) == [infos[0].id] + Ids(infos[1..]);
    DistinctTail(Ids(infos));
    assert Ids(infos)[1..] == Ids(infos[1..]);
    forall j | 0 <= j < |infos| - 1 ensures Ids(infos[1..])[j] != infos[0].id {
      assert Ids(infos)[j + 1] != Ids(infos)[0];
    }
  }

  /** Convincing the head leaves the rest of the list still to be convinced. */
  lemma RestStillMatches(g: GameState, infos: seq<NpcInfo>, s1: Session)
    requires infos != [] && Distinct(Ids(infos))
    requires forall i :: 0 <= i < |infos| ==> Matches(g, infos[i])
    requires Convinced(g, infos[0], s1)
    ensures forall i :: 0 <= i < |infos| - 1 ==> Matches(s1.value, infos[1..][i])
  {
    IdsCons(infos);
    var rest := infos[1..];
    forall i | 0 <= i < |rest| ensures Matches(s1.value, rest[i]) {
      assert rest[i] == infos[i + 1];
      assert Ids(rest)[i] == rest[i].id;
      assert Matches(g, infos[i + 1]);
    }
  }

  lemma ChainSafe(infos: seq<NpcInfo>, g1: map<string, Npc>, npcs: map<string, Npc>)
    requires infos != [] && infos[0].id !in Ids(infos[1..])
    requires infos[0].id in g1 && g1[infos[0].id].status == Status.Safe
    requires AllConvinced(infos[1..], npcs) && npcs.Keys == g1.Keys
    requires forall k :: k in g1 && k !in Ids(infos[1..]) ==> npcs[k] == g1[k]
    ensures AllConvinced(infos, npcs)
  {
    var rest := infos[1..];
    forall i | 0 <= i < |infos| ensures infos[i].id in npcs && npcs[infos[i].id].status == Status.Safe {
      if i == 0 {
        assert npcs[infos[0].id] == g1[infos[0].id];
      } else {
        assert infos[i] == rest[i - 1];
      }
    }
  }

  lemma ChainOthers(infos: seq<NpcInfo>, g: map<string, Npc>, g1: map<string, Npc>, npcs: map<string, Npc>)
    requires infos != [] && Ids(infos) == [infos[0].id] + Ids(infos[1..])
    requires NpcsAgreeExcept(g, g1, infos[0].id) && npcs.Keys == g1.Keys
    requires forall k :: k in g1 && k !in Ids(infos[1..]) ==> npcs[k] == g1[k]
    ensures forall k :: k in g && k !in Ids(infos) ==> npcs[k] == g[k]
  {
    forall k | k in g && k !in Ids(infos) ensures npcs[k] == g[k] {
      assert k != infos[0].id && k !in Ids(infos[1..]);
    }
  }

  lemma ChainNoArguer(infos: seq<NpcInfo>)
    requires infos != []
    requires forall i :: 0 <= i < |infos| ==> !Arguer(infos[i])
    ensures !Arguer(infos[0]) && forall i :: 0 <= i < |infos| - 1 ==> !Arguer(infos[1..][i])
  {
    forall i | 0 <= i < |infos| - 1 ensures !Arguer(infos[1..][i]) {
      assert infos[1..][i] == infos[i + 1];
    }
  }

  /** Convincing the head, then the rest, convinces the whole list. */
  lemma ChainConvinced(g: GameState, infos: seq<NpcInfo>, s1: Session, s: Session)
    requires infos != [] && Distinct(Ids(infos))
    requires Convinced(g, infos[0], s1)
    requires s1.Some? && ListConvinced(s1.value, infos[1..], s)
    ensures ListConvinced(g, infos, s)
  {
    IdsCons(infos);
    ChainSafe(infos, s1.value.npcs, s.value.npcs);
    ChainOthers(infos, g.npcs, s1.value.npcs, s.value.npcs);
    if forall i :: 0 <= i < |infos| ==> !Arguer(infos[i]) {
      ChainNoArguer(infos);
    }
    if infos[1..] != [] {
      assert infos[|infos| - 1] == infos[1..][|infos[1..]| - 1];
    }
  }

  /** Convincing a list of distinct NPCs, none of which has heard
      "chicoteia", makes each of them safe and touches nobody else. */
  lemma {:induction false} ConvinceList(g: GameState, infos: seq<NpcInfo>)
    requires Distinct(Ids(infos))
    requires forall i :: 0 <= i < |infos| ==> Matches(g, infos[i])
    ensures ListConvinced(g, infos, Run(Some(g), Script(infos)))
    decreases |infos|
  {
    if infos == [] {
      assert Run(Some(g), Script(infos)) == Some(g);
    } else {
      var d, rest := infos[0], infos[1..];
      IdsCons(infos);
      ConvinceOne(g, d);
      var s1 := Run(Some(g), ConvinceRequests(d));
      RestStillMatches(g, infos, s1);
      ConvinceList(s1.value, rest);
      assert Script(infos) == ConvinceRequests(d) + Script(rest);
      RunAppend(Some(g), ConvinceRequests(d), Script(rest));
      ChainConvinced(g, infos, s1, Run(s1, Script(rest)));
    }
  }
}

/** The pure parts of the dialogue generator (`AIEngine`): the instruction
    preamble built from an NPC and its phase, the message list sent for a
    chat reply, and what is returned when the completion service answers or
    fails.  The completion service itself is an oracle: a function from the
    message list to `Some(text)`, or `None` when the call raises. */
module AiEngine {
  import opened Wrappers
  import opened Text
  import opened NpcData
  import opened GameLogic

  datatype ChatRole = System | User | Assistant

  /** One element of the `messages` list: `{"role": ..., "content": ...}`. */
  datatype Message = Message(role: ChatRole, content: string)

  /** The keys of the NPC dictionary that the prompt builder reads.  The ones
      it reads with `.get` and a default may be missing. */
  datatype PromptView = PromptView(
    name: string,
    role: string,
    personality: string,
    bio: string,
    knowsGiovanni: bool,
    aiBubbleStance: string,
    conversationPhase: Option<string>,
    giovanniRelationship: Option<string>,
    resistanceLevel: Option<int>)

  /** The string the game stores for each phase. */
  function PhaseName(p: Phase): string {
    match p
    case Initial => "initial"
    case GiovanniCheck => "giovanni_check"
    case AiOpinion => "ai_opinion"
    case ArgumentPhase => "argument_phase"
    case Safe => "safe"
  }

  /** The dictionary of a game NPC, as the prompt builder sees it: every key
      is present. */
  function ViewOf(npc: Npc): PromptView {
    PromptView(npc.info.name, npc.info.role, npc.info.personality, npc.info.bio,
               npc.info.knowsGiovanni, npc.info.aiBubbleStance,
               Some(PhaseName(npc.conversationPhase)), Some(npc.info.giovanniRelationship),
               Some(npc.info.resistanceLevel))
  }

  // ---------------------------------------------------------------------
  // _build_system_prompt

  function BasePrompt(v: PromptView): string {
    "Você é " + v.name + ", um(a) " + v.role + " numa conferência de tecnologia. \n\n"
    + "PERSONALIDADE: " + v.personality + "\n"
    + "BACKGROUND: " + v.bio + "\n\n"
    + "REGRAS IMPORTANTES DO JOGO:\n"
    + "- Você está numa conferência de tecnologia para desenvolvedores backend e frontend\n"
    + "- Mantenha-se no personagem " + v.name + " o tempo todo\n"
    + "- Mantenha respostas com no máximo 40 palavras - seja conciso!\n"
    + "- Não quebre a quarta parede ou mencione que isso é um jogo\n"
    + "- RESPONDA SEMPRE EM PORTUGUÊS BRASILEIRO\n"
  }

  const InitialDirective := "\n- Esta é sua primeira interação com esta pessoa\n- Seja amigável e profissional"
  const KnowsGiovanniDirective := "\n- Você conhece Giovanni e já trabalhou com ele antes\n- Você deve ficar curioso sobre por que estão perguntando sobre Giovanni"
  const StrangerDirective := "\n- Você não conhece ninguém chamado Giovanni\n- Você deve expressar que não reconhece o nome"
  const RelationshipHead := "\n- Seu relacionamento com Giovanni: "
  const DefaultRelationship := "Você conhece Giovanni."
  const BubbleDirective := "\n- Você acredita que o mercado de IA está numa bolha\n- Expresse ceticismo sobre as avaliações e hype da IA\n- Referencie sua experiência com Giovanni se relevante\n- Seja específico sobre por que acha que é uma bolha"
  const NotBubbleDirective := "\n- Você acredita que IA não é bolha mas está criando valor real\n- Seja otimista sobre o potencial da IA\n- Referencie sua experiência positiva com Giovanni se relevante\n- Dê exemplos específicos de valor real da IA"
  const ArgumentDirectiveHead := "\n- Você atualmente acha que IA é uma bolha\n- Você está aberto a ouvir argumentos mas um pouco cético\n- Você precisa de "
  const ArgumentDirectiveTail := " argumentos bons a mais para mudar de opinião"
  const SafeDirective := "\n- Você foi convencido de que IA não é uma bolha\n- Seja positivo sobre a conversa e o futuro da IA"

  /** `npc.get('conversation_phase', 'initial')`. */
  function PhaseKey(v: PromptView): string {
    v.conversationPhase.GetOr("initial")
  }

  /** The behavioural lines appended for the NPC's phase; none for a phase
      the builder does not recognise. */
  function PhaseDirective(v: PromptView): string {
    var phase := PhaseKey(v);
    if phase == "initial" then InitialDirective
    else if phase == "giovanni_check" then
      (if v.knowsGiovanni then KnowsGiovanniDirective else StrangerDirective)
    else if phase == "ai_opinion" then
      RelationshipHead + v.giovanniRelationship.GetOr(DefaultRelationship)
      + (if v.aiBubbleStance == "bubble" then BubbleDirective else NotBubbleDirective)
    else if phase == "argument_phase" then
      ArgumentDirectiveHead + IntToDecimal(v.resistanceLevel.GetOr(1)) + ArgumentDirectiveTail
    else if phase == "safe" then SafeDirective
    else ""
  }

  /** `_build_system_prompt`.  The game-status argument it receives is never
      read, so it is not a parameter here. */
  function BuildSystemPrompt(v: PromptView): string {
    BasePrompt(v) + PhaseDirective(v)
  }

  // ---------------------------------------------------------------------
  // generate_npc_response

  /** `conversation_history[-5:]`: the last five entries, or all of them. */
  function HistoryWindow(h: seq<Entry>): (w: seq<Entry>)
    ensures |w| == (if |h| < 5 then |h| else 5)
    ensures w == h[|h| - |w|..]
  {
    if |h| <= 5 then h else h[|h| - 5..]
  }

  /** Whether an entry is a chat turn, which becomes a message. */
  predicate IsChatTurn(e: Entry) {
    e.UserMessage? || e.AiResponse?
  }

  /** The loop over the window: user messages and NPC replies become user and
      assistant turns, in order; every other kind of entry is skipped. */
  function ToMessages(entries: seq<Entry>): (r: seq<Message>)
    ensures |r| <= |entries|
    ensures forall i :: 0 <= i < |r| ==> r[i].role != System
    ensures (forall i :: 0 <= i < |entries| ==> !IsChatTurn(entries[i])) ==> r == []
  {
    if entries == [] then []
    else
      var e := entries[0];
      var head := if e.UserMessage? then [Message(User, e.message)]
                  else if e.AiResponse? then [Message(Assistant, e.response)]
                  else [];
      head + ToMessages(entries[1..])
  }

  /** Converting a history piecewise is converting it whole. */
  lemma {:induction false} ToMessagesAppend(a: seq<Entry>, b: seq<Entry>)
    ensures ToMessages(a + b) == ToMessages(a) + ToMessages(b)
  {
    if a == [] {
      assert a + b == b;
    } else {
      assert (a + b)[1..] == a[1..] + b;
      ToMessagesAppend(a[1..], b);
    }
  }

  /** The `messages` list of one chat completion: the system prompt, the
      chat turns of the history window, then the player's message. */
  function ChatMessages(v: PromptView, h: seq<Entry>, userMessage: string): (r: seq<Message>)
    ensures 2 <= |r| <= 7
    ensures r[0] == Message(System, BuildSystemPrompt(v))
    ensures r[|r| - 1] == Message(User, userMessage)
    ensures forall i :: 0 < i < |r| ==> r[i].role != System
    ensures r[1..|r| - 1] == ToMessages(HistoryWindow(h))
  {
    [Message(System, BuildSystemPrompt(v))] + ToMessages(HistoryWindow(h)) + [Message(User, userMessage)]
  }

  /** The four canned chat replies of `_get_fallback_response`. */
  function ChatFallbacks(role: string): seq<string> {
    [ "Interessante! Como " + role + ", adoraria ouvir mais sobre sua perspectiva.",
      "Hmm, deixe-me pensar sobre isso. Qual sua opinião?",
      "Bom ponto! Não havia considerado por esse ângulo antes.",
      "Forma fascinante de ver isso. Me conte mais!" ]
  }

  /** `generate_npc_response`: the completion, stripped, or a canned reply
      (`fallback` is `random.choice`'s draw) when the call fails. */
  function GenerateNpcResponse(v: PromptView, h: seq<Entry>, userMessage: string,
                               complete: seq<Message> -> Option<string>, fallback: Choice4): (r: string)
    ensures var answer := complete(ChatMessages(v, h, userMessage));
      && (answer.Some? ==> r == Strip(answer.value))
      && (answer.None? ==> r in ChatFallbacks(v.role))
  {
    ChatReplyOrFallback(complete(ChatMessages(v, h, userMessage)), v.role, fallback)
  }

  /** The `try`/`except` around the chat completion. */
  function ChatReplyOrFallback(answer: Option<string>, role: string, fallback: Choice4): (r: string)
    ensures answer.Some? ==> r == Strip(answer.value)
    ensures answer.None? ==> r in ChatFallbacks(role)
  {
    match answer
    case Some(text) => Strip(text)
    case None => ChatFallbacks(role)[fallback]
  }

  // ---------------------------------------------------------------------
  // generate_ai_bubble_response and generate_custom_response

  const BubbleOpinionFallback := "Acho que estamos numa bolha de IA. As avaliações estão loucas e todo mundo só coloca 'IA' em tudo."
  const NotBubbleOpinionFallback := "Não é bolha. IA está criando valor real na saúde, automação e acessibilidade."
  const CustomFallback := "Isso é muito interessante! Adoraria continuar essa conversa."

  /** `generate_ai_bubble_response`: the completion, stripped, or, when the
      call fails, the canned line for the NPC's stance. */
  function GenerateAiBubbleResponse(npc: Npc, completion: Option<string>): (r: string)
    ensures completion.Some? ==> r == Strip(completion.value)
    ensures completion.None? ==> (r == BubbleOpinionFallback <==> npc.info.aiBubbleStance == "bubble")
    ensures completion.None? ==> r in {BubbleOpinionFallback, NotBubbleOpinionFallback}
  {
    match completion
    case Some(text) => Strip(text)
    case None => if npc.info.aiBubbleStance == "bubble" then BubbleOpinionFallback else NotBubbleOpinionFallback
  }

  /** `generate_custom_response`: the completion, stripped, or one fixed line. */
  function GenerateCustomResponse(completion: Option<string>): (r: string)
    ensures completion.Some? ==> r == Strip(completion.value)
    ensures completion.None? ==> r == CustomFallback
  {
    match completion
    case Some(text) => Strip(text)
    case None => CustomFallback
  }

  // ---------------------------------------------------------------------
  // Properties

  /** A missing phase is read as "initial". */
  lemma MissingPhaseIsInitial(v: PromptView)
    requires v.conversationPhase.None?
    ensures PhaseDirective(v) == PhaseDirective(v.(conversationPhase := Some("initial")))
    ensures PhaseDirective(v) == InitialDirective
  {
  }

  /** A phase the builder does not know leaves only the base prompt. */
  lemma UnknownPhaseNoDirective(v: PromptView)
    requires PhaseKey(v) !in ["initial", "giovanni_check", "ai_opinion", "argument_phase", "safe"]
    ensures BuildSystemPrompt(v) == BasePrompt(v)
  {
  }

  /** In the opinion phase the preamble quotes the NPC's relationship with
      Giovanni (or the default line), then takes the NPC's side of the bubble
      question. */
  lemma OpinionDirectiveQuotesRelationship(v: PromptView)
    requires PhaseKey(v) == "ai_opinion"
    ensures IsInfix(v.giovanniRelationship.GetOr(DefaultRelationship), BuildSystemPrompt(v))
    ensures v.aiBubbleStance == "bubble" ==> IsInfix(BubbleDirective, BuildSystemPrompt(v))
    ensures v.aiBubbleStance != "bubble" ==> IsInfix(NotBubbleDirective, BuildSystemPrompt(v))
  {
    var rel := v.giovanniRelationship.GetOr(DefaultRelationship);
    var side := if v.aiBubbleStance == "bubble" then BubbleDirective else NotBubbleDirective;
    var pre := BasePrompt(v) + RelationshipHead;
    OpinionDirectiveParts(v);
    assert BuildSystemPrompt(v) == pre + rel + side;
    InfixOfConcat(pre, rel, side);
    InfixOfSuffix(pre + rel, side);
  }

  lemma OpinionDirectiveParts(v: PromptView)
    requires PhaseKey(v) == "ai_opinion"
    ensures PhaseDirective(v) == RelationshipHead + v.giovanniRelationship.GetOr(DefaultRelationship)
      + (if v.aiBubbleStance == "bubble" then BubbleDirective else NotBubbleDirective)
  {
  }

  /** In the argument phase the preamble tells the NPC how many arguments it
      still needs, in decimal: the resistance level, or 1 when it is missing. */
  lemma ArgumentDirectiveStatesResistance(v: PromptView)
    requires PhaseKey(v) == "argument_phase"
    requires v.resistanceLevel.GetOr(1) >= 0
    ensures exists digits ::
      && IsInfix(ArgumentDirectiveHead + digits + ArgumentDirectiveTail, BuildSystemPrompt(v))
      && DecimalValue(digits) == v.resistanceLevel.GetOr(1)
  {
    var n: nat := v.resistanceLevel.GetOr(1);
    var digits := NatToDecimal(n);
    DecimalRoundTrip(n);
    assert PhaseDirective(v) == ArgumentDirectiveHead + digits + ArgumentDirectiveTail;
    InfixOfSuffix(BasePrompt(v), PhaseDirective(v));
  }

  /** The giovanni_check preamble is decided by whether the NPC knows him. */
  lemma GiovanniCheckDirective(v: PromptView)
    requires PhaseKey(v) == "giovanni_check"
    ensures BuildSystemPrompt(v) == BasePrompt(v) + (if v.knowsGiovanni then KnowsGiovanniDirective else StrangerDirective)
  {
  }

  /** Once a chat exchange is logged, the next window ends with it, as a user
      turn followed by an assistant turn. */
  lemma WindowEndsWithLastExchange(h: seq<Entry>, message: string, reply: string)
    ensures var turns := ToMessages(HistoryWindow(h + [UserMessage(message), AiResponse(reply)]));
      |turns| >= 2 && turns[|turns| - 2..] == [Message(User, message), Message(Assistant, reply)]
  {
    var pair := [UserMessage(message), AiResponse(reply)];
    var h' := h + pair;
    var w := HistoryWindow(h');
    assert |w| >= 2;
    var pre := w[..|w| - 2];
    assert w[|w| - 2..] == pair;
    assert w == pre + pair;
    ToMessagesAppend(pre, pair);
    var turns := ToMessages(pre) + ToMessages(pair);
    assert ToMessages(pair) == [Message(User, message), Message(Assistant, reply)];
    assert turns[|turns| - 2..] == ToMessages(pair);
  }

  /** Entries of other kinds still take window slots: a chat turn followed by
      five other entries no longer reaches the model. */
  lemma OtherEntriesCrowdOutTurns(h: seq<Entry>, turn: Entry)
    requires |h| == 5 && forall i :: 0 <= i < 5 ==> !IsChatTurn(h[i])
    requires IsChatTurn(turn)
    ensures ToMessages(HistoryWindow([turn] + h)) == []
  {
    assert HistoryWindow([turn] + h) == h;
  }

  /** Only the first canned chat reply depends on the NPC: it names its role. */
  lemma ChatFallbackNamesRole(role: string, other: string)
    ensures IsInfix(role, ChatFallbacks(role)[0])
    ensures forall i :: 1 <= i < 4 ==> ChatFallbacks(role)[i] == ChatFallbacks(other)[i]
  {
    InfixOfConcat("Interessante! Como ", role, ", adoraria ouvir mais sobre sua perspectiva.");
  }

  /** Whatever the completion service returns, what reaches the player has
      no surrounding whitespace. */
  lemma GeneratedTextIsTrimmed(completion: Option<string>, npc: Npc)
    requires completion.Some?
    ensures forall fallback: Choice4 :: var r := ChatReplyOrFallback(completion, npc.info.role, fallback);
      r == [] || (!IsSpace(r[0]) && !IsSpace(r[|r| - 1]))
    ensures var r := GenerateAiBubbleResponse(npc, completion);
      r == [] || (!IsSpace(r[0]) && !IsSpace(r[|r| - 1]))
    ensures var r := GenerateCustomResponse(completion);
      r == [] || (!IsSpace(r[0]) && !IsSpace(r[|r| - 1]))
  {
    StripSpec(completion.value);
  }
}

/** The static game data: the ten conference NPCs and the catalog of
    persuasion arguments, exactly as bundled with the game, with the
    well-formedness facts the game logic relies on. */
module NpcData {
  import opened Seqs

  /** One roster entry.  `giovanniRelationship` doubles as the NPC's whole
      reply when it does not know Giovanni; `resistanceLevel` is the number
      of regular arguments needed to convince it.  The stance is kept as the
      roster's string (`"bubble"` or `"not_bubble"`), as the game compares it
      against the literal `"bubble"`. */
  datatype NpcInfo = NpcInfo(
    id: string,
    name: string,
    role: string,
    personality: string,
    knowsGiovanni: bool,
    giovanniRelationship: string,
    aiBubbleStance: string,
    resistanceLevel: int,
    avatarColor: string,
    bio: string)

  /** One catalog argument.  The catalog's informational success rate is not
      kept: no game rule reads it. */
  datatype Argument = Argument(text: string, description: string, special: bool)

  /** The roster, in the order the game iterates over it. */
  const NPCS: seq<NpcInfo> := [
      ALEX_FRONTEND, MARIA_BACKEND, DAVID_DEVOPS, SARAH_PM, TOM_UX, LISA_DATA, MIKE_SECURITY,
      JEN_FOUNDER, ROBERT_LEAD, ANNA_QA]

  const ALEX_FRONTEND: NpcInfo :=
      NpcInfo(
        id := "alex_frontend",
        name := "Alexandre Silva",
        role := "Desenvolvedor Frontend",
        personality := "Desenvolvedor React entusiasmado que ama frameworks modernos. Sempre animado com as últimas tendências do JavaScript. Fala com energia e usa jargões técnicos.",
        knowsGiovanni := true,
        giovanniRelationship := "Giovanni me orientou numa startup há 3 anos. Me ensinou padrões React mas sempre alertou sobre o hype da IA.",
        aiBubbleStance := "bubble",
        resistanceLevel := 2,
        avatarColor := "#FF6B6B",
        bio := "5 anos construindo SPAs, atualmente obcecado por Next.js")

  const MARIA_BACKEND: NpcInfo :=
      NpcInfo(
        id := "maria_backend",
        name := "Maria Santos",
        role := "Desenvolvedora Backend",
        personality := "Desenvolvedora Python pragmática focada em arquitetura escalável. Cautelosa com novas tecnologias, prefere soluções comprovadas. Fala metodicamente.",
        knowsGiovanni := true,
        giovanniRelationship := "Giovanni foi meu colega de quarto na faculdade. Sempre sonhava com tecnologia futura enquanto eu focava no básico. Perdemos contato quando ele entrou num lab de IA.",
        aiBubbleStance := "bubble",
        resistanceLevel := 3,
        avatarColor := "#4ECDC4",
        bio := "10 anos em backend, especialista Django, defensor de microsserviços")

  const DAVID_DEVOPS: NpcInfo :=
      NpcInfo(
        id := "david_devops",
        name := "David Oliveira",
        role := "Engenheiro DevOps",
        personality := "Entusiasta de infraestrutura em nuvem que acha que tudo deve ser containerizado. Ama automação e eficiência. Comunicador direto.",
        knowsGiovanni := false,
        giovanniRelationship := "Nunca ouvi falar de Giovanni. Foco em infraestrutura, não em pessoal de IA.",
        aiBubbleStance := "not_bubble",
        resistanceLevel := 0,
        avatarColor := "#45B7D1",
        bio := "Mago do Kubernetes, certificado AWS, obcecado por automação")

  const SARAH_PM: NpcInfo :=
      NpcInfo(
        id := "sarah_pm",
        name := "Sarah Costa",
        role := "Gerente de Produto",
        personality := "Focada em negócios, sempre pensando nas necessidades dos usuários e tendências de mercado. Diplomática e estratégica nas conversas. Usa terminologia empresarial.",
        knowsGiovanni := true,
        giovanniRelationship := "Giovanni apresentou sua startup de IA para nós ano passado. Cara inteligente, mas otimista demais. Recusamos suas projeções tipo bolha.",
        aiBubbleStance := "bubble",
        resistanceLevel := 2,
        avatarColor := "#96CEB4",
        bio := "Ex-consultora, agora liderando estratégia de produto para B2B SaaS")

  const TOM_UX: NpcInfo :=
      NpcInfo(
        id := "tom_ux",
        name := "Tom Pereira",
        role := "Designer UX",
        personality := "Designer centrado no usuário que se preocupa profundamente com acessibilidade e experiência do usuário. Criativo e empático. Fala sobre psicologia humana.",
        knowsGiovanni := true,
        giovanniRelationship := "Giovanni me contratou para sua ferramenta de IA para acessibilidade há 2 anos. Visão brilhante para ajudar usuários com deficiência. Realmente entende IA centrada no humano.",
        aiBubbleStance := "not_bubble",
        resistanceLevel := 0,
        avatarColor := "#FFEAA7",
        bio := "Especialista em design systems, defensor da acessibilidade, nerd de pesquisa com usuários")

  const LISA_DATA: NpcInfo :=
      NpcInfo(
        id := "lisa_data",
        name := "Lisa Ferreira",
        role := "Cientista de Dados",
        personality := "Entusiasta de ML que vê padrões em tudo. Analítica e baseada em evidências. Adora discutir algoritmos e modelos estatísticos.",
        knowsGiovanni := true,
        giovanniRelationship := "Giovanni foi meu parceiro de pesquisa no doutorado. Co-autor de 3 artigos sobre redes neurais. Brilhante, mas deixou a academia pelo venture capital. Perdeu o foco da ciência pelo hype.",
        aiBubbleStance := "bubble",
        resistanceLevel := 3,
        avatarColor := "#DDA0DD",
        bio := "PhD em ML, construindo sistemas de recomendação e modelos NLP")

  const MIKE_SECURITY: NpcInfo :=
      NpcInfo(
        id := "mike_security",
        name := "Miguel Almeida",
        role := "Engenheiro de Segurança",
        personality := "Paranoico com ameaças de segurança, mas de forma positiva. Sempre pensando no que pode dar errado. Comunicador cauteloso e minucioso.",
        knowsGiovanni := false,
        giovanniRelationship := "Giovanni? Não me lembra ninguém. Foco em ameaças de segurança, não em personalidades da IA.",
        aiBubbleStance := "bubble",
        resistanceLevel := 4,
        avatarColor := "#FF7675",
        bio := "Especialista em testes de invasão, defensor de arquitetura zero-trust")

  const JEN_FOUNDER: NpcInfo :=
      NpcInfo(
        id := "jen_founder",
        name := "Jennifer Rodrigues",
        role := "Fundadora de Startup",
        personality := "Empreendedora otimista que acredita que a tecnologia pode mudar o mundo. Alta energia, pensamento visionário. Fala sobre disrupção e inovação.",
        knowsGiovanni := true,
        giovanniRelationship := "Giovanni é meu co-investidor em duas startups de IA! Nos conhecemos no TechCrunch Disrupt 2022. Visão incrível para aplicações revolucionárias de IA. Planejando nosso terceiro investimento.",
        aiBubbleStance := "not_bubble",
        resistanceLevel := 0,
        avatarColor := "#74B9FF",
        bio := "Empreendedora serial, 2 exits, atualmente construindo startup fintech")

  const ROBERT_LEAD: NpcInfo :=
      NpcInfo(
        id := "robert_lead",
        name := "Roberto Souza",
        role := "Tech Lead",
        personality := "Desenvolvedor experiente que viu muitos ciclos de tecnologia. Perspectiva equilibrada sobre novas tecnologias. Focado em mentoria, fala sabiamente.",
        knowsGiovanni := true,
        giovanniRelationship := "Giovanni foi meu desenvolvedor júnior há 8 anos. Garoto ansioso, sempre perguntando sobre tecnologia futura. Ensinei design de sistemas, mas ele se envolveu na corrida do ouro da IA.",
        aiBubbleStance := "bubble",
        resistanceLevel := 2,
        avatarColor := "#A29BFE",
        bio := "15 anos em tech, liderou equipes em 3 unicornios, especialista em arquitetura")

  const ANNA_QA: NpcInfo :=
      NpcInfo(
        id := "anna_qa",
        name := "Ana Carvalho",
        role := "Engenheira QA",
        personality := "Testadora orientada a detalhes que encontra bugs que outros perdem. Metódica e minuciosa. Faz perguntas investigativas e pensa em casos extremos.",
        knowsGiovanni := false,
        giovanniRelationship := "Giovanni? Não conheço ninguém com esse nome. Interajo principalmente com desenvolvedores e equipes de produto, não pessoal de IA.",
        aiBubbleStance := "bubble",
        resistanceLevel := 3,
        avatarColor := "#FD79A8",
        bio := "Especialista em testes de automação, caçadora de bugs, obcecada por qualidade")

  /** The argument catalog; only the first entry is special. */
  const ARGUMENTS: seq<Argument> := [
      ARGUMENT_00, ARGUMENT_01, ARGUMENT_02, ARGUMENT_03, ARGUMENT_04, ARGUMENT_05,
      ARGUMENT_06, ARGUMENT_07, ARGUMENT_08, ARGUMENT_09, ARGUMENT_10, ARGUMENT_11,
      ARGUMENT_12, ARGUMENT_13, ARGUMENT_14, ARGUMENT_15, ARGUMENT_16, ARGUMENT_17, ARGUMENT_18]

  const ARGUMENT_00: Argument :=
      Argument(
        text := "chicoteia",
        description := "A palavra mágica que tem 50% de chance de funcionar",
        special := true)

  const ARGUMENT_01: Argument :=
      Argument(
        text := "IA está salvando vidas na medicina com diagnósticos mais precisos",
        description := "Argumento da saúde",
        special := false)

  const ARGUMENT_02: Argument :=
      Argument(
        text := "Grandes empresas estão integrando IA nas operações principais, não experimentando",
        description := "Argumento empresarial",
        special := false)

  const ARGUMENT_03: Argument :=
      Argument(
        text := "IA está automatizando tarefas repetitivas, liberando humanos para trabalho criativo",
        description := "Argumento de automação",
        special := false)

  const ARGUMENT_04: Argument :=
      Argument(
        text := "Assistentes de IA estão ajudando pessoas com deficiência a navegar no mundo",
        description := "Argumento de acessibilidade",
        special := false)

  const ARGUMENT_05: Argument :=
      Argument(
        text := "IA está otimizando energia e reduzindo desperdício em data centers globais",
        description := "Argumento ambiental",
        special := false)

  const ARGUMENT_06: Argument :=
      Argument(
        text := "Carros autônomos estão reduzindo acidentes de trânsito significativamente",
        description := "Argumento de segurança no trânsito",
        special := false)

  const ARGUMENT_07: Argument :=
      Argument(
        text := "IA está democratizando educação com tutores personalizados para todos",
        description := "Argumento educacional",
        special := false)

  const ARGUMENT_08: Argument :=
      Argument(
        text := "Sistemas de IA estão detectando fraudes financeiras em tempo real",
        description := "Argumento de segurança financeira",
        special := false)

  const ARGUMENT_09: Argument :=
      Argument(
        text := "IA está acelerando descobertas científicas em anos, não décadas",
        description := "Argumento científico",
        special := false)

  const ARGUMENT_10: Argument :=
      Argument(
        text := "Tradução instantânea de IA está conectando culturas globalmente",
        description := "Argumento cultural",
        special := false)

  const ARGUMENT_11: Argument :=
      Argument(
        text := "IA está otimizando cadeias de suprimentos, reduzindo custos para consumidores",
        description := "Argumento econômico",
        special := false)

  const ARGUMENT_12: Argument :=
      Argument(
        text := "Modelos de IA estão prevendo desastres naturais com mais precisão",
        description := "Argumento de prevenção",
        special := false)

  const ARGUMENT_13: Argument :=
      Argument(
        text := "IA está personalizando tratamentos médicos para cada paciente individual",
        description := "Argumento de medicina personalizada",
        special := false)

  const ARGUMENT_14: Argument :=
      Argument(
        text := "Robôs com IA estão cuidando de idosos, resolvendo crise demográfica",
        description := "Argumento demográfico",
        special := false)

  const ARGUMENT_15: Argument :=
      Argument(
        text := "IA está criando novos empregos em áreas que nem existiam antes",
        description := "Argumento de criação de empregos",
        special := false)

  const ARGUMENT_16: Argument :=
      Argument(
        text := "Sistemas de IA estão melhorando segurança cibernética contra ataques",
        description := "Argumento de cibersegurança",
        special := false)

  const ARGUMENT_17: Argument :=
      Argument(
        text := "IA está ajudando agricultores a produzir mais comida com menos recursos",
        description := "Argumento agrícola",
        special := false)

  const ARGUMENT_18: Argument :=
      Argument(
        text := "Assistentes de código IA estão acelerando desenvolvimento de software",
        description := "Argumento de produtividade",
        special := false)

  /** The ids of a list of roster entries, in order. */
  function Ids(defs: seq<NpcInfo>): (r: seq<string>)
    ensures |r| == |defs|
    ensures forall i :: 0 <= i < |defs| ==> r[i] == defs[i].id
  {
    seq(|defs|, i requires 0 <= i < |defs| => defs[i].id)
  }

  /** Number of catalog entries flagged special. */
  function CountSpecial(args: seq<Argument>): nat {
    if args == [] then 0 else (if args[0].special then 1 else 0) + CountSpecial(args[1..])
  }

  /** The roster's ids, in order. */
  lemma RosterIds()
    ensures Ids(NPCS) == ["alex_frontend", "maria_backend", "david_devops", "sarah_pm", "tom_ux",
                          "lisa_data", "mike_security", "jen_founder", "robert_lead", "anna_qa"]
  {
  }

  /** There are ten NPCs and no two share an id, so a dictionary keyed by id
      keeps all of them. */
  lemma RosterIdsDistinct()
    ensures |NPCS| == 10
    ensures Distinct(Ids(NPCS))
  {
    RosterIds();
  }

  /** Every resistance level is a non-negative count of arguments. */
  lemma RosterResistanceNonNegative()
    ensures forall i :: 0 <= i < |NPCS| ==> NPCS[i].resistanceLevel >= 0
  {
  }

  /** Every stance is one of the two values the game distinguishes. */
  lemma RosterStancesClosed()
    ensures forall i :: 0 <= i < |NPCS| ==> NPCS[i].aiBubbleStance == "bubble" || NPCS[i].aiBubbleStance == "not_bubble"
  {
  }

  /** An NPC that knows Giovanni and believes in the bubble needs at least two
      regular arguments, so the first one never convinces it. */
  lemma AwareSkepticsResistTwice()
    ensures forall i :: 0 <= i < |NPCS| && NPCS[i].knowsGiovanni && NPCS[i].aiBubbleStance == "bubble" ==>
      NPCS[i].resistanceLevel >= 2
  {
  }

  /** Exactly one catalog entry is special: the first, whose text is
      `"chicoteia"`. */
  lemma OneSpecialArgument()
    ensures |ARGUMENTS| == 19 && CountSpecial(ARGUMENTS) == 1
    ensures ARGUMENTS[0].special && ARGUMENTS[0].text == "chicoteia"
    ensures forall i :: 1 <= i < |ARGUMENTS| ==> !ARGUMENTS[i].special
  {
    var rest := ARGUMENTS[1..];
    assert forall i :: 0 <= i < |rest| ==> !rest[i].special;
    NoneSpecial(rest);
    assert ARGUMENTS == [ARGUMENTS[0]] + rest;
  }

  lemma {:induction false} NoneSpecial(args: seq<Argument>)
    requires forall i :: 0 <= i < |args| ==> !args[i].special
    ensures CountSpecial(args) == 0
  {
    if args != [] {
      NoneSpecial(args[1..]);
    }
  }

  /** No catalog entry is listed twice. */
  lemma CatalogDistinct()
    ensures |ARGUMENTS| == 19
    ensures Distinct(ARGUMENTS)
  {
  }
}

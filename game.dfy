/**
 * One play-through (script.js:138-231): `iniciarJogo` shuffles the chosen
 * tier's catalog array in place and keeps its first five questions,
 * `proximaQuestao` moves the 1-based question counter on, `verificarResposta`
 * scores an answer and moves on, and `mostrarTelaFinal` picks a message from
 * the share of right answers.
 *
 * `Session` is the game state as a value and `Advance` and `Answer` are the two
 * transitions on it; the class `Game` holds the same state in fields, as the
 * source's module-level variables, and its methods are proved to perform those
 * transitions.
 */
module Game {
  import opened Wrappers
  import opened Sequences
  import opened Questions
  import opened Catalog
  import opened Shuffle

  /** Questions per game, `totalQuestoes`. */
  const TotalQuestoes: nat := 5

  /** The three final messages, from best to worst. */
  datatype Feedback = Mestre | VaiBem | PrecisaEstudar

  /** The text `mostrarTelaFinal` writes for each message. */
  function Mensagem(f: Feedback): string {
    match f
    case Mestre => "Você é o mestre da lógica!"
    case VaiBem => "Você vai bem em lógica!"
    case PrecisaEstudar => "Você precisa estudar lógica!"
  }

  /** The three messages are different, so the text on the final screen tells which one was chosen. */
  lemma MensagemInjective(a: Feedback, b: Feedback)
    ensures Mensagem(a) == Mensagem(b) <==> a == b
  {
  }

  /**
   * The message for a score: the ratio `pontuacao / totalQuestoes` is compared
   * with 0.9 and then 0.6, here on integers (10 * pontuacao against 9 * 5 and
   * 6 * 5); `FeedbackRatio` shows this agrees with the exact ratio.
   */
  function FeedbackFor(pontuacao: nat): Feedback {
    if 10 * pontuacao >= 9 * TotalQuestoes then Mestre
    else if 10 * pontuacao >= 6 * TotalQuestoes then VaiBem
    else PrecisaEstudar
  }

  /** The integer comparisons pick the message the ratio thresholds 0.9 and 0.6 pick. */
  lemma FeedbackRatio(pontuacao: nat)
    ensures FeedbackFor(pontuacao) == Mestre <==> pontuacao as real / TotalQuestoes as real >= 0.9
    ensures FeedbackFor(pontuacao) == VaiBem <==> 0.6 <= pontuacao as real / TotalQuestoes as real < 0.9
    ensures FeedbackFor(pontuacao) == PrecisaEstudar <==> pontuacao as real / TotalQuestoes as real < 0.6
  {
  }

  /** On the scores a game can end with: 5 is "mestre", 3 or 4 "vai bem", 0 to 2 "precisa estudar". */
  lemma FeedbackByScore(pontuacao: nat)
    requires pontuacao <= TotalQuestoes
    ensures FeedbackFor(pontuacao) == Mestre <==> pontuacao == 5
    ensures FeedbackFor(pontuacao) == VaiBem <==> pontuacao == 3 || pontuacao == 4
    ensures FeedbackFor(pontuacao) == PrecisaEstudar <==> pontuacao <= 2
  {
  }

  function Rank(f: Feedback): nat {
    match f
    case PrecisaEstudar => 0
    case VaiBem => 1
    case Mestre => 2
  }

  /** More right answers never earn a worse message. */
  lemma FeedbackMonotonic(a: nat, b: nat)
    requires a <= b
    ensures Rank(FeedbackFor(a)) <= Rank(FeedbackFor(b))
  {
  }

  // ---------------------------------------------------------------------------
  // The session as a value.

  /** What the player sees after a transition. */
  datatype Screen =
    | QuestionScreen(numero: nat, texto: string)
    | FinalScreen(pontuacao: nat, total: nat, mensagem: string)

  /** `listaDeQuestoes`, `questaoAtual` (None before the first game), `pontuacao`, `numeroDaQuestao`. */
  datatype Session = Session(
    listaDeQuestoes: seq<Question>,
    questaoAtual: Option<Question>,
    pontuacao: nat,
    numeroDaQuestao: nat)

  /** A game is under way: five questions drawn, the counter on one of them. */
  predicate Playing(s: Session) {
    && |s.listaDeQuestoes| == TotalQuestoes
    && 1 <= s.numeroDaQuestao <= TotalQuestoes
    && s.questaoAtual == Some(s.listaDeQuestoes[s.numeroDaQuestao - 1])
  }

  /** `proximaQuestao` reads `listaDeQuestoes[numeroDaQuestao]` only when the counter is below five. */
  predicate CanAdvance(s: Session) {
    s.numeroDaQuestao >= TotalQuestoes || s.numeroDaQuestao < |s.listaDeQuestoes|
  }

  /** `proximaQuestao`: the final screen once five questions were shown, else the next question. */
  function Advance(s: Session): (Session, Screen)
    requires CanAdvance(s)
  {
    if s.numeroDaQuestao >= TotalQuestoes then
      (s, FinalScreen(s.pontuacao, TotalQuestoes, Mensagem(FeedbackFor(s.pontuacao))))
    else
      var n := s.numeroDaQuestao + 1;
      var q := s.listaDeQuestoes[n - 1];
      (s.(numeroDaQuestao := n, questaoAtual := Some(q)), QuestionScreen(n, q.questao))
  }

  /**
   * Below five the counter moves on by exactly one onto the next drawn
   * question; at five nothing changes and the final screen is shown; the
   * drawn questions and the score are never touched, and the counter never
   * passes five.
   */
  lemma AdvanceSteps(s: Session)
    requires CanAdvance(s)
    ensures Advance(s).0.listaDeQuestoes == s.listaDeQuestoes && Advance(s).0.pontuacao == s.pontuacao
    ensures s.numeroDaQuestao <= TotalQuestoes ==> Advance(s).0.numeroDaQuestao <= TotalQuestoes
    ensures s.numeroDaQuestao < TotalQuestoes ==>
              && Advance(s).0.numeroDaQuestao == s.numeroDaQuestao + 1
              && Advance(s).0.questaoAtual == Some(s.listaDeQuestoes[s.numeroDaQuestao])
              && Advance(s).1 == QuestionScreen(s.numeroDaQuestao + 1, s.listaDeQuestoes[s.numeroDaQuestao].questao)
    ensures s.numeroDaQuestao >= TotalQuestoes ==>
              && Advance(s).0 == s
              && Advance(s).1 == FinalScreen(s.pontuacao, TotalQuestoes, Mensagem(FeedbackFor(s.pontuacao)))
  {
  }

  /** The scoring half of `verificarResposta`. */
  function Score(s: Session, resposta: bool): Session {
    if s.questaoAtual.Some? && resposta == s.questaoAtual.value.resposta
    then s.(pontuacao := s.pontuacao + 1)
    else s
  }

  /** `verificarResposta`: score the answer against the current question, then advance. */
  function Answer(s: Session, resposta: bool): (r: (Session, Screen))
    requires Playing(s)
    ensures Playing(r.0)
    ensures r.0.listaDeQuestoes == s.listaDeQuestoes
    ensures r.0.pontuacao == s.pontuacao + (if resposta == s.listaDeQuestoes[s.numeroDaQuestao - 1].resposta then 1 else 0)
    ensures s.numeroDaQuestao < TotalQuestoes ==>
              && r.0.numeroDaQuestao == s.numeroDaQuestao + 1
              && r.1 == QuestionScreen(r.0.numeroDaQuestao, s.listaDeQuestoes[s.numeroDaQuestao].questao)
    ensures s.numeroDaQuestao == TotalQuestoes ==>
              && r.0.numeroDaQuestao == TotalQuestoes
              && r.1 == FinalScreen(r.0.pontuacao, TotalQuestoes, Mensagem(FeedbackFor(r.0.pontuacao)))
  {
    Advance(Score(s, resposta))
  }

  /** The state `iniciarJogo` sets up before its first call to `proximaQuestao`. */
  function Begin(lista: seq<Question>, atual: Option<Question>): Session {
    Session(lista, atual, 0, 0)
  }

  /** Starting shows question 1 with nothing scored yet. */
  lemma BeginShowsFirst(lista: seq<Question>, atual: Option<Question>)
    requires |lista| == TotalQuestoes
    ensures CanAdvance(Begin(lista, atual))
    ensures Playing(Advance(Begin(lista, atual)).0)
    ensures Advance(Begin(lista, atual)).0 == Session(lista, Some(lista[0]), 0, 1)
    ensures Advance(Begin(lista, atual)).1 == QuestionScreen(1, lista[0].questao)
  {
  }

  /** The answers in `respostas`, given one after the other. */
  function Run(s: Session, respostas: seq<bool>): (r: Session)
    requires Playing(s)
    ensures Playing(r)
    decreases |respostas|
  {
    if respostas == [] then s else Run(Answer(s, respostas[0]).0, respostas[1..])
  }

  /** How many of `respostas` match the questions from index `from` on. */
  function Acertos(lista: seq<Question>, from: nat, respostas: seq<bool>): nat
    requires from + |respostas| <= |lista|
    decreases |respostas|
  {
    if respostas == [] then 0
    else (if respostas[0] == lista[from].resposta then 1 else 0) + Acertos(lista, from + 1, respostas[1..])
  }

  lemma {:induction false} AcertosBounds(lista: seq<Question>, from: nat, respostas: seq<bool>)
    requires from + |respostas| <= |lista|
    ensures Acertos(lista, from, respostas) <= |respostas|
    ensures (forall j :: 0 <= j < |respostas| ==> respostas[j] == lista[from + j].resposta)
            ==> Acertos(lista, from, respostas) == |respostas|
    ensures (forall j :: 0 <= j < |respostas| ==> respostas[j] != lista[from + j].resposta)
            ==> Acertos(lista, from, respostas) == 0
    decreases |respostas|
  {
    if respostas != [] {
      AcertosBounds(lista, from + 1, respostas[1..]);
      var rest := respostas[1..];
      if forall j :: 0 <= j < |respostas| ==> respostas[j] == lista[from + j].resposta {
        assert forall j :: 0 <= j < |rest| ==> rest[j] == lista[from + 1 + j].resposta by {
          forall j | 0 <= j < |rest| ensures rest[j] == lista[from + 1 + j].resposta {
            assert rest[j] == respostas[j + 1];
          }
        }
      }
      if forall j :: 0 <= j < |respostas| ==> respostas[j] != lista[from + j].resposta {
        assert forall j :: 0 <= j < |rest| ==> rest[j] != lista[from + 1 + j].resposta by {
          forall j | 0 <= j < |rest| ensures rest[j] != lista[from + 1 + j].resposta {
            assert rest[j] == respostas[j + 1];
          }
        }
      }
    }
  }

  /**
   * Within one game, each answer is scored against the question on display:
   * the score grows by the number of right answers and the counter by the
   * number of answers, capped at five.
   */
  lemma {:induction false} RunScores(s: Session, respostas: seq<bool>)
    requires Playing(s)
    requires s.numeroDaQuestao - 1 + |respostas| <= TotalQuestoes
    ensures Run(s, respostas).listaDeQuestoes == s.listaDeQuestoes
    ensures Run(s, respostas).pontuacao == s.pontuacao + Acertos(s.listaDeQuestoes, s.numeroDaQuestao - 1, respostas)
    ensures Run(s, respostas).numeroDaQuestao
         == if s.numeroDaQuestao + |respostas| < TotalQuestoes then s.numeroDaQuestao + |respostas| else TotalQuestoes
    decreases |respostas|
  {
    if respostas != [] {
      var next := Answer(s, respostas[0]).0;
      if s.numeroDaQuestao < TotalQuestoes {
        RunScores(next, respostas[1..]);
      } else {
        assert respostas[1..] == [];
      }
    }
  }

  /**
   * A whole game: after `iniciarJogo` and five answers the final screen shows
   * the number of right answers out of five and the message for it.
   */
  lemma GameOfFive(lista: seq<Question>, atual: Option<Question>, respostas: seq<bool>)
    requires |lista| == TotalQuestoes && |respostas| == TotalQuestoes
    ensures Playing(Advance(Begin(lista, atual)).0)
    ensures var last := Run(Advance(Begin(lista, atual)).0, respostas[..4]);
            var fim := Answer(last, respostas[4]);
            && fim.0.numeroDaQuestao == TotalQuestoes
            && fim.0.pontuacao == Acertos(lista, 0, respostas) <= TotalQuestoes
            && fim.1 == FinalScreen(Acertos(lista, 0, respostas), TotalQuestoes, Mensagem(FeedbackFor(Acertos(lista, 0, respostas))))
  {
    var first := Advance(Begin(lista, atual)).0;
    BeginShowsFirst(lista, atual);
    RunScores(first, respostas[..4]);
    var last := Run(first, respostas[..4]);
    assert last.numeroDaQuestao == TotalQuestoes;
    assert respostas == respostas[..4] + [respostas[4]];
    AcertosSnoc(lista, 0, respostas[..4], respostas[4]);
    AcertosBounds(lista, 0, respostas);
  }

  /** One more answer adds one exactly when it matches the next question. */
  lemma {:induction false} AcertosSnoc(lista: seq<Question>, from: nat, respostas: seq<bool>, x: bool)
    requires from + |respostas| < |lista|
    ensures Acertos(lista, from, respostas + [x])
         == Acertos(lista, from, respostas) + (if x == lista[from + |respostas|].resposta then 1 else 0)
    decreases |respostas|
  {
    if respostas != [] {
      assert (respostas + [x])[1..] == respostas[1..] + [x];
      AcertosSnoc(lista, from + 1, respostas[1..], x);
    }
  }

  /** All answers right gives 5 / 5 and "mestre"; all wrong gives 0 / 5 and "precisa estudar". */
  lemma PerfectAndWorstGames(lista: seq<Question>, respostas: seq<bool>)
    requires |lista| == TotalQuestoes && |respostas| == TotalQuestoes
    ensures (forall j :: 0 <= j < TotalQuestoes ==> respostas[j] == lista[j].resposta)
            ==> Acertos(lista, 0, respostas) == TotalQuestoes && FeedbackFor(Acertos(lista, 0, respostas)) == Mestre
    ensures (forall j :: 0 <= j < TotalQuestoes ==> respostas[j] != lista[j].resposta)
            ==> Acertos(lista, 0, respostas) == 0 && FeedbackFor(Acertos(lista, 0, respostas)) == PrecisaEstudar
  {
    AcertosBounds(lista, 0, respostas);
  }

  /** A prefix of a reordered catalog holds different questions of that catalog. */
  lemma DrawnFromCatalog(tier: Tier, pool: seq<Question>, n: nat)
    requires multiset(pool) == multiset(CatalogOf(tier))
    requires n <= |pool|
    ensures Distinct(pool[..n])
    ensures forall q :: q in pool[..n] ==> q in CatalogOf(tier)
  {
    CatalogDistinct(tier);
    PermutationKeepsDistinct(pool, CatalogOf(tier));
    PrefixKeepsDistinct(pool, n);
    forall q | q in pool[..n] ensures q in CatalogOf(tier) {
      assert q in multiset(pool);
    }
  }

  /** `slice(0, n)` keeps at most `n` elements. */
  function Min(a: nat, b: nat): nat {
    if a <= b then a else b
  }

  // ---------------------------------------------------------------------------
  // The game state as the source keeps it.

  /** `todasAsQuestoes`: one array per tier, generated once and shuffled in place by each new game. */
  class TodasAsQuestoes {
    const facil: array<Question>
    const medio: array<Question>
    const dificil: array<Question>

    /** `todasAsQuestoes[nivel]`. */
    function Nivel(nivel: Tier): array<Question> {
      match nivel
      case Facil => facil
      case Medio => medio
      case Dificil => dificil
    }

    /** Each tier's array is a reordering of that tier's catalog. */
    ghost predicate Valid()
      reads facil, medio, dificil
    {
      && facil != medio && medio != dificil && facil != dificil
      && multiset(facil[..]) == multiset(CatalogOf(Facil))
      && multiset(medio[..]) == multiset(CatalogOf(Medio))
      && multiset(dificil[..]) == multiset(CatalogOf(Dificil))
    }

    /** `gerarTodasAsQuestoes()`, run once when the page loads. */
    constructor ()
      ensures Valid()
      ensures fresh(facil) && fresh(medio) && fresh(dificil)
      ensures facil[..] == CatalogOf(Facil) && medio[..] == CatalogOf(Medio) && dificil[..] == CatalogOf(Dificil)
    {
      var f, m, d := GerarTodasAsQuestoes();
      facil := new Question[|f|](k requires 0 <= k < |f| => f[k]);
      medio := new Question[|m|](k requires 0 <= k < |m| => m[k]);
      dificil := new Question[|d|](k requires 0 <= k < |d| => d[k]);
      new;
      assert facil[..] == f;
      assert medio[..] == m;
      assert dificil[..] == d;
    }

    /** A tier's array holds the tier's questions, at least eight of them. */
    lemma NivelFacts(nivel: Tier)
      requires Valid()
      ensures multiset(Nivel(nivel)[..]) == multiset(CatalogOf(nivel))
      ensures Nivel(nivel).Length >= 8
    {
      TierSizes();
      assert |multiset(Nivel(nivel)[..])| == |CatalogOf(nivel)|;
    }

    /** `shuffleArray(todasAsQuestoes[nivel])`, with the given draws. */
    method Embaralhar(nivel: Tier, draws: seq<nat>)
      requires Valid()
      requires ValidDraws(draws, Nivel(nivel).Length)
      modifies Nivel(nivel)
      ensures Valid()
      ensures Nivel(nivel)[..] == Shuffled(old(Nivel(nivel)[..]), draws)
    {
      ShuffleArray(Nivel(nivel), draws);
    }
  }

  class Game {
    /** The question arrays, shared by every game. */
    const todasAsQuestoes: TodasAsQuestoes

    var listaDeQuestoes: seq<Question>
    var questaoAtual: Option<Question>
    var pontuacao: nat
    var numeroDaQuestao: nat

    /** The tier of the game under way. */
    ghost var nivelDaPartida: Tier

    ghost function State(): Session
      reads this
    {
      Session(listaDeQuestoes, questaoAtual, pontuacao, numeroDaQuestao)
    }

    /** The drawn questions are different questions of the tier played. */
    ghost predicate DrawValid()
      reads this`listaDeQuestoes, this`nivelDaPartida
    {
      && Distinct(listaDeQuestoes)
      && forall q :: q in listaDeQuestoes ==> q in CatalogOf(nivelDaPartida)
    }

    /**
     * Before the first game nothing is drawn; during a game five different
     * questions of the tier played are drawn and the counter is on one of
     * them. (That the arrays are reorderings of the catalogs is
     * `todasAsQuestoes.Valid()`.)
     */
    ghost predicate Valid()
      reads this
    {
      && DrawValid()
      && (numeroDaQuestao == 0 ==> listaDeQuestoes == [] && questaoAtual == None && pontuacao == 0)
      && (numeroDaQuestao != 0 ==> Playing(State()))
    }

    /** Page load: the catalog is generated and no game is under way. */
    constructor ()
      ensures todasAsQuestoes.Valid() && Valid()
      ensures State() == Session([], None, 0, 0)
      ensures fresh(todasAsQuestoes)
      ensures fresh(todasAsQuestoes.facil) && fresh(todasAsQuestoes.medio) && fresh(todasAsQuestoes.dificil)
      ensures todasAsQuestoes.facil[..] == CatalogOf(Facil)
      ensures todasAsQuestoes.medio[..] == CatalogOf(Medio)
      ensures todasAsQuestoes.dificil[..] == CatalogOf(Dificil)
    {
      todasAsQuestoes := new TodasAsQuestoes();
      listaDeQuestoes := [];
      questaoAtual := None;
      pontuacao := 0;
      numeroDaQuestao := 0;
      nivelDaPartida := Facil;
    }

    /**
     * `iniciarJogo(nivel)`: reset the score and counter, shuffle the tier's
     * array in place with the given draws, keep its first five questions and
     * show the first of them.
     */
    method IniciarJogo(nivel: Tier, draws: seq<nat>) returns (tela: Screen)
      requires todasAsQuestoes.Valid()
      requires ValidDraws(draws, todasAsQuestoes.Nivel(nivel).Length)
      modifies this, todasAsQuestoes.Nivel(nivel)
      ensures todasAsQuestoes.Nivel(nivel).Length >= TotalQuestoes
      ensures listaDeQuestoes == todasAsQuestoes.Nivel(nivel)[..TotalQuestoes]
      ensures State() == Session(listaDeQuestoes, Some(listaDeQuestoes[0]), 0, 1)
      ensures tela == QuestionScreen(1, listaDeQuestoes[0].questao)
      ensures todasAsQuestoes.Valid() && Valid()
    {
      pontuacao := 0;
      numeroDaQuestao := 0;
      SortearQuestoes(nivel, draws);
      BeginShowsFirst(listaDeQuestoes, questaoAtual);
      tela := ProximaQuestao();
    }

    /**
     * The drawing part of `iniciarJogo`: shuffle `todasAsQuestoes[nivel]` in
     * place and keep `slice(0, totalQuestoes)` of it.
     */
    method SortearQuestoes(nivel: Tier, draws: seq<nat>)
      requires todasAsQuestoes.Valid()
      requires ValidDraws(draws, todasAsQuestoes.Nivel(nivel).Length)
      modifies this`listaDeQuestoes, this`nivelDaPartida, todasAsQuestoes.Nivel(nivel)
      ensures todasAsQuestoes.Valid() && DrawValid()
      ensures todasAsQuestoes.Nivel(nivel)[..] == Shuffled(old(todasAsQuestoes.Nivel(nivel)[..]), draws)
      ensures todasAsQuestoes.Nivel(nivel).Length >= TotalQuestoes
      ensures listaDeQuestoes == todasAsQuestoes.Nivel(nivel)[..TotalQuestoes]
      ensures nivelDaPartida == nivel
    {
      var questoesDoNivel := todasAsQuestoes.Nivel(nivel);
      todasAsQuestoes.Embaralhar(nivel, draws);
      todasAsQuestoes.NivelFacts(nivel);
      var fim := Min(TotalQuestoes, questoesDoNivel.Length);
      listaDeQuestoes := questoesDoNivel[..fim];
      nivelDaPartida := nivel;
      DrawnFromCatalog(nivel, questoesDoNivel[..], fim);
    }

    /** `proximaQuestao`. */
    method ProximaQuestao() returns (tela: Screen)
      requires CanAdvance(State())
      modifies this`numeroDaQuestao, this`questaoAtual
      ensures (State(), tela) == Advance(old(State()))
    {
      if numeroDaQuestao >= TotalQuestoes {
        tela := FinalScreen(pontuacao, TotalQuestoes, Mensagem(FeedbackFor(pontuacao)));
        return;
      }
      numeroDaQuestao := numeroDaQuestao + 1;
      questaoAtual := Some(listaDeQuestoes[numeroDaQuestao - 1]);
      tela := QuestionScreen(numeroDaQuestao, questaoAtual.value.questao);
    }

    /** `verificarResposta(respostaUsuario)`, with the advance taking effect at once. */
    method VerificarResposta(respostaUsuario: bool) returns (tela: Screen)
      requires Valid() && numeroDaQuestao != 0
      modifies this`pontuacao, this`numeroDaQuestao, this`questaoAtual
      ensures (State(), tela) == Answer(old(State()), respostaUsuario)
      ensures Valid() && numeroDaQuestao != 0
    {
      var correta := questaoAtual.value.resposta;
      if respostaUsuario == correta {
        pontuacao := pontuacao + 1;
      }
      tela := ProximaQuestao();
    }
  }
}

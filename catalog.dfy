/**
 * The question catalog built once at start-up by `gerarTodasAsQuestoes`
 * (script.js:19-105): for each tier, P and then Q range over `[true, false]`
 * and every template of the tier is instantiated for that assignment, the
 * three-variable template once more for each value of R.
 *
 * `CatalogOf` is the catalog as a value; `GerarTodasAsQuestoes` is the
 * source's nested loops, proved to build exactly that value.
 */
module Catalog {
  import opened Wrappers
  import opened Sequences
  import opened Questions

  /** The values P, Q and R range over, in iteration order (script.js:21). */
  const Valores: seq<bool> := [true, false]

  /** The instances one (P, Q) iteration of a tier's loop pushes, in push order. */
  function Block(tier: Tier, p: bool, q: bool): seq<Instance> {
    match tier
    case Facil =>
      [Instance(And, p, q, None), Instance(Or, p, q, None)]
    case Medio =>
      [Instance(NotPOrQ, p, q, None), Instance(PAndNotQ, p, q, None), Instance(Xor, p, q, None)]
    case Dificil =>
      [Instance(Implies, p, q, None), Instance(Iff, p, q, None),
       Instance(AndOrR, p, q, Some(true)), Instance(AndOrR, p, q, Some(false))]
  }

  /** The instances pushed by the first `n` (P, Q) iterations, P in the outer loop. */
  function BlocksUpTo(tier: Tier, n: nat): seq<Instance>
    requires n <= |Valores| * |Valores|
  {
    if n == 0 then []
    else BlocksUpTo(tier, n - 1) + Block(tier, Valores[(n - 1) / 2], Valores[(n - 1) % 2])
  }

  /** Every instance of a tier, in generation order. */
  function TierInstances(tier: Tier): seq<Instance> {
    BlocksUpTo(tier, |Valores| * |Valores|)
  }

  function AsQuestions(xs: seq<Instance>): seq<Question> {
    seq(|xs|, k requires 0 <= k < |xs| => ToQuestion(xs[k]))
  }

  /** The catalog entries of a tier, `todasAsQuestoes[nivel]` as generated. */
  function CatalogOf(tier: Tier): seq<Question> {
    AsQuestions(TierInstances(tier))
  }

  lemma QuestionsAppend(a: seq<Instance>, b: seq<Instance>)
    ensures AsQuestions(a + b) == AsQuestions(a) + AsQuestions(b)
  {
  }

  /** The questions pushed by the first `n` (P, Q) iterations. */
  function QuestionsUpTo(tier: Tier, n: nat): seq<Question>
    requires n <= |Valores| * |Valores|
  {
    if n == 0 then []
    else QuestionsUpTo(tier, n - 1) + AsQuestions(Block(tier, Valores[(n - 1) / 2], Valores[(n - 1) % 2]))
  }

  lemma {:induction false} QuestionsUpToIsCatalogPrefix(tier: Tier, n: nat)
    requires n <= |Valores| * |Valores|
    ensures QuestionsUpTo(tier, n) == AsQuestions(BlocksUpTo(tier, n))
  {
    if n > 0 {
      QuestionsUpToIsCatalogPrefix(tier, n - 1);
      QuestionsAppend(BlocksUpTo(tier, n - 1), Block(tier, Valores[(n - 1) / 2], Valores[(n - 1) % 2]));
    }
  }

  /** Iteration (a, b) of the nested loops appends the questions of (Valores[a], Valores[b]). */
  lemma BlockStep(tier: Tier, a: nat, b: nat, n: nat)
    requires a < |Valores| && b < |Valores| && n == 2 * a + b
    ensures QuestionsUpTo(tier, n + 1) == QuestionsUpTo(tier, n) + AsQuestions(Block(tier, Valores[a], Valores[b]))
  {
    assert n / 2 == a && n % 2 == b;
  }

  /** The loops end with the whole catalog of the tier. */
  lemma AllBlocks(tier: Tier)
    ensures QuestionsUpTo(tier, 2 * |Valores|) == CatalogOf(tier)
  {
    QuestionsUpToIsCatalogPrefix(tier, 4);
  }

  lemma TierInstancesUnfold(tier: Tier)
    ensures TierInstances(tier)
         == Block(tier, true, true) + Block(tier, true, false) + Block(tier, false, true) + Block(tier, false, false)
  {
    assert BlocksUpTo(tier, 1) == Block(tier, true, true);
    assert BlocksUpTo(tier, 2) == BlocksUpTo(tier, 1) + Block(tier, true, false);
    assert BlocksUpTo(tier, 3) == BlocksUpTo(tier, 2) + Block(tier, false, true);
    assert BlocksUpTo(tier, 4) == BlocksUpTo(tier, 3) + Block(tier, false, false);
  }

  // ---------------------------------------------------------------------------
  // Properties of the catalog.

  /** 2 templates x 4 assignments, 3 x 4, and 2 x 4 + 1 x 8 questions. */
  lemma TierSizes()
    ensures |CatalogOf(Facil)| == 8
    ensures |CatalogOf(Medio)| == 12
    ensures |CatalogOf(Dificil)| == 16
  {
    TierInstancesUnfold(Facil);
    TierInstancesUnfold(Medio);
    TierInstancesUnfold(Dificil);
  }

  /**
   * A tier holds exactly the well-formed instances of its own templates:
   * no (template, assignment) pair is left out and none belongs to another tier.
   */
  lemma TierExhaustive(tier: Tier, i: Instance)
    ensures i in TierInstances(tier) <==> WellFormed(i) && TierOf(i.template) == tier
  {
    TierInstancesUnfold(tier);
    BlockOffsets(tier, true, true);
    BlockOffsets(tier, true, false);
    BlockOffsets(tier, false, true);
    BlockOffsets(tier, false, false);
    if WellFormed(i) && TierOf(i.template) == tier {
      BlockHolds(tier, i);
      assert i in Block(tier, i.p, i.q);
    }
  }

  /** A well-formed instance of the tier's templates sits at its offset in the block of its assignment. */
  lemma BlockHolds(tier: Tier, i: Instance)
    requires WellFormed(i) && TierOf(i.template) == tier
    ensures Offset(i) < |Block(tier, i.p, i.q)| && Block(tier, i.p, i.q)[Offset(i)] == i
  {
    if i.template == AndOrR {
      var r := i.r.value;
      assert i == Instance(AndOrR, i.p, i.q, Some(r));
      assert Offset(i) == if r then 2 else 3;
    } else {
      assert i == Instance(i.template, i.p, i.q, None);
    }
  }

  /** Where an instance sits within its (P, Q) block. */
  function Offset(i: Instance): nat {
    match i.template
    case And | NotPOrQ | Implies => 0
    case Or | PAndNotQ | Iff => 1
    case Xor => 2
    case AndOrR => if i.r == Some(true) then 2 else 3
  }

  /** How many instances one (P, Q) iteration of the tier pushes. */
  function BlockSize(tier: Tier): nat {
    |Block(tier, true, true)|
  }

  /** Where an instance sits within its tier: P in the outer loop, Q in the inner one. */
  function Position(tier: Tier, i: Instance): nat {
    (if i.p then 0 else 2 * BlockSize(tier)) + (if i.q then 0 else BlockSize(tier)) + Offset(i)
  }

  /** A block holds its own assignment, one template at each offset. */
  lemma BlockOffsets(tier: Tier, p: bool, q: bool)
    ensures |Block(tier, p, q)| == BlockSize(tier)
    ensures forall j :: 0 <= j < |Block(tier, p, q)| ==>
              Block(tier, p, q)[j].p == p && Block(tier, p, q)[j].q == q && Offset(Block(tier, p, q)[j]) == j
    ensures forall j :: 0 <= j < |Block(tier, p, q)| ==>
              WellFormed(Block(tier, p, q)[j]) && TierOf(Block(tier, p, q)[j].template) == tier
  {
  }

  /** Each entry of a tier sits at the position its template and assignment determine. */
  lemma TierPositions(tier: Tier)
    ensures forall k :: 0 <= k < |TierInstances(tier)| ==> Position(tier, TierInstances(tier)[k]) == k
  {
    TierInstancesUnfold(tier);
    var b0, b1, b2, b3 := Block(tier, true, true), Block(tier, true, false), Block(tier, false, true), Block(tier, false, false);
    BlockOffsets(tier, true, true);
    BlockOffsets(tier, true, false);
    BlockOffsets(tier, false, true);
    BlockOffsets(tier, false, false);
    var n := BlockSize(tier);
    var xs := TierInstances(tier);
    forall k | 0 <= k < |xs| ensures Position(tier, xs[k]) == k {
      if k < n { assert xs[k] == b0[k]; }
      else if k < 2 * n { assert xs[k] == b1[k - n]; }
      else if k < 3 * n { assert xs[k] == b2[k - 2 * n]; }
      else { assert xs[k] == b3[k - 3 * n]; }
    }
  }

  /** No (template, assignment) pair is generated twice within a tier. */
  lemma TierInstancesDistinct(tier: Tier)
    ensures Distinct(TierInstances(tier))
  {
    TierPositions(tier);
  }

  /** Each entry's answer is the truth value of the proposition its text states. */
  lemma CatalogAnswersMatchText(tier: Tier, k: nat)
    requires k < |CatalogOf(tier)|
    ensures ParseQuestion(CatalogOf(tier)[k].questao).Some?
    ensures Eval(ParseQuestion(CatalogOf(tier)[k].questao).value.template,
                 ParseQuestion(CatalogOf(tier)[k].questao).value.p,
                 ParseQuestion(CatalogOf(tier)[k].questao).value.q,
                 ParseQuestion(CatalogOf(tier)[k].questao).value.r == Some(true))
         == CatalogOf(tier)[k].resposta
    ensures TierOf(ParseQuestion(CatalogOf(tier)[k].questao).value.template) == tier
  {
    var i := TierInstances(tier)[k];
    TierExhaustive(tier, i);
    ParseRender(i);
  }

  /** Question texts within a tier are pairwise different. */
  lemma CatalogTextsDistinct(tier: Tier)
    ensures forall a, b :: 0 <= a < b < |CatalogOf(tier)| ==> CatalogOf(tier)[a].questao != CatalogOf(tier)[b].questao
  {
    var xs := TierInstances(tier);
    TierInstancesDistinct(tier);
    forall a, b | 0 <= a < b < |xs| ensures CatalogOf(tier)[a].questao != CatalogOf(tier)[b].questao {
      TierExhaustive(tier, xs[a]);
      TierExhaustive(tier, xs[b]);
      if Render(xs[a]) == Render(xs[b]) {
        RenderInjective(xs[a], xs[b]);
      }
    }
  }

  /** Hence the entries of a tier are pairwise different questions. */
  lemma CatalogDistinct(tier: Tier)
    ensures Distinct(CatalogOf(tier))
  {
    CatalogTextsDistinct(tier);
  }

  /** The text the source writes for a two-variable template is its rendering. */
  lemma TwoVariableText(t: Template, p: bool, q: bool, tail: string)
    requires tail == Pergunta(t)
    ensures Render(Instance(t, p, q, None)) == "P=" + BoolParaTexto(p) + ", Q=" + BoolParaTexto(q) + tail
  {
  }

  /** The text the source writes for `(P AND Q) OR R` is its rendering. */
  lemma ThreeVariableText(p: bool, q: bool, r: bool, tail: string)
    requires tail == Pergunta(AndOrR)
    ensures Render(Instance(AndOrR, p, q, Some(r)))
         == "P=" + BoolParaTexto(p) + ", Q=" + BoolParaTexto(q) + ", R=" + BoolParaTexto(r) + tail
  {
  }

  // ---------------------------------------------------------------------------
  // The generator as the source writes it.

  /** The two questions the 'Fácil' loop body pushes are the block of (P, Q). */
  lemma FacilPushes(before: seq<Question>, P: bool, Q: bool)
    ensures before
          + [Question("P=" + BoolParaTexto(P) + ", Q=" + BoolParaTexto(Q) + ", qual o resultado de P AND Q?", P && Q)]
          + [Question("P=" + BoolParaTexto(P) + ", Q=" + BoolParaTexto(Q) + ", qual o resultado de P OR Q?", P || Q)]
         == before + AsQuestions(Block(Facil, P, Q))
  {
    TwoVariableText(And, P, Q, ", qual o resultado de P AND Q?");
    TwoVariableText(Or, P, Q, ", qual o resultado de P OR Q?");
  }

  /** The three questions the 'Médio' loop body pushes are the block of (P, Q). */
  lemma MedioPushes(before: seq<Question>, P: bool, Q: bool)
    ensures before
          + [Question("P=" + BoolParaTexto(P) + ", Q=" + BoolParaTexto(Q) + ", qual o resultado de (NOT P) OR Q?", (!P) || Q)]
          + [Question("P=" + BoolParaTexto(P) + ", Q=" + BoolParaTexto(Q) + ", qual o resultado de P AND (NOT Q)?", P && (!Q))]
          + [Question("P=" + BoolParaTexto(P) + ", Q=" + BoolParaTexto(Q) + ", qual o resultado de P XOR Q?", P != Q)]
         == before + AsQuestions(Block(Medio, P, Q))
  {
    TwoVariableText(NotPOrQ, P, Q, ", qual o resultado de (NOT P) OR Q?");
    TwoVariableText(PAndNotQ, P, Q, ", qual o resultado de P AND (NOT Q)?");
    TwoVariableText(Xor, P, Q, ", qual o resultado de P XOR Q?");
  }

  /** The two questions the 'Difícil' loop body pushes before its R loop start the block of (P, Q). */
  lemma DificilPushes(before: seq<Question>, P: bool, Q: bool)
    ensures before
          + [Question("P=" + BoolParaTexto(P) + ", Q=" + BoolParaTexto(Q) + ", qual o resultado de P -> Q?", (!P) || Q)]
          + [Question("P=" + BoolParaTexto(P) + ", Q=" + BoolParaTexto(Q) + ", qual o resultado de P <-> Q?", P == Q)]
         == before + AsQuestions(Block(Dificil, P, Q)[..2])
  {
    TwoVariableText(Implies, P, Q, ", qual o resultado de P -> Q?");
    TwoVariableText(Iff, P, Q, ", qual o resultado de P <-> Q?");
  }

  /** The question the R loop pushes for `Valores[c]` is the next one of the block of (P, Q). */
  lemma DificilPushR(before: seq<Question>, P: bool, Q: bool, c: nat)
    requires c < |Valores|
    ensures before + AsQuestions(Block(Dificil, P, Q)[..2 + c])
          + [Question("P=" + BoolParaTexto(P) + ", Q=" + BoolParaTexto(Q) + ", R=" + BoolParaTexto(Valores[c]) + ", qual o resultado de (P AND Q) OR R?", (P && Q) || Valores[c])]
         == before + AsQuestions(Block(Dificil, P, Q)[..2 + c + 1])
  {
    ThreeVariableText(P, Q, Valores[c], ", qual o resultado de (P AND Q) OR R?");
    assert Block(Dificil, P, Q)[..2 + c + 1] == Block(Dificil, P, Q)[..2 + c] + [Block(Dificil, P, Q)[2 + c]];
  }

  /** Builds the three tiers, as `gerarTodasAsQuestoes` does, one section per tier. */
  method GerarTodasAsQuestoes() returns (facil: seq<Question>, medio: seq<Question>, dificil: seq<Question>)
    ensures facil == CatalogOf(Facil)
    ensures medio == CatalogOf(Medio)
    ensures dificil == CatalogOf(Dificil)
  {
    facil := GerarFacil();
    medio := GerarMedio();
    dificil := GerarDificil();
  }

  /** The 'Fácil' section: AND and OR for every (P, Q). */
  method GerarFacil() returns (facil: seq<Question>)
    ensures facil == CatalogOf(Facil)
  {
    var valores := Valores;
    facil := [];
    ghost var n := 0;
    for a := 0 to |valores|
      invariant n == 2 * a && facil == QuestionsUpTo(Facil, n)
    {
      for b := 0 to |valores|
        invariant n == 2 * a + b && facil == QuestionsUpTo(Facil, n)
      {
        facil := PushFacil(facil, valores[a], valores[b]);
        BlockStep(Facil, a, b, n);
        n := n + 1;
      }
    }
    AllBlocks(Facil);
  }

  /** The body of the 'Fácil' loop for one (P, Q). */
  method PushFacil(before: seq<Question>, P: bool, Q: bool) returns (facil: seq<Question>)
    ensures facil == before + AsQuestions(Block(Facil, P, Q))
  {
    facil := before;
    facil := facil + [Question("P=" + BoolParaTexto(P) + ", Q=" + BoolParaTexto(Q) + ", qual o resultado de P AND Q?", P && Q)];
    facil := facil + [Question("P=" + BoolParaTexto(P) + ", Q=" + BoolParaTexto(Q) + ", qual o resultado de P OR Q?", P || Q)];
    FacilPushes(before, P, Q);
  }

  /** The 'Médio' section: (NOT P) OR Q, P AND (NOT Q) and XOR for every (P, Q). */
  method GerarMedio() returns (medio: seq<Question>)
    ensures medio == CatalogOf(Medio)
  {
    var valores := Valores;
    medio := [];
    ghost var n := 0;
    for a := 0 to |valores|
      invariant n == 2 * a && medio == QuestionsUpTo(Medio, n)
    {
      for b := 0 to |valores|
        invariant n == 2 * a + b && medio == QuestionsUpTo(Medio, n)
      {
        medio := PushMedio(medio, valores[a], valores[b]);
        BlockStep(Medio, a, b, n);
        n := n + 1;
      }
    }
    AllBlocks(Medio);
  }

  /** The body of the 'Médio' loop for one (P, Q). */
  method PushMedio(before: seq<Question>, P: bool, Q: bool) returns (medio: seq<Question>)
    ensures medio == before + AsQuestions(Block(Medio, P, Q))
  {
    medio := before;
    medio := medio + [Question("P=" + BoolParaTexto(P) + ", Q=" + BoolParaTexto(Q) + ", qual o resultado de (NOT P) OR Q?", (!P) || Q)];
    medio := medio + [Question("P=" + BoolParaTexto(P) + ", Q=" + BoolParaTexto(Q) + ", qual o resultado de P AND (NOT Q)?", P && (!Q))];
    medio := medio + [Question("P=" + BoolParaTexto(P) + ", Q=" + BoolParaTexto(Q) + ", qual o resultado de P XOR Q?", P != Q)];
    MedioPushes(before, P, Q);
  }

  /** The 'Difícil' section: -> and <-> for every (P, Q), then (P AND Q) OR R for every R. */
  method GerarDificil() returns (dificil: seq<Question>)
    ensures dificil == CatalogOf(Dificil)
  {
    var valores := Valores;
    dificil := [];
    ghost var n := 0;
    for a := 0 to |valores|
      invariant n == 2 * a && dificil == QuestionsUpTo(Dificil, n)
    {
      for b := 0 to |valores|
        invariant n == 2 * a + b && dificil == QuestionsUpTo(Dificil, n)
      {
        dificil := PushDificil(dificil, valores[a], valores[b]);
        BlockStep(Dificil, a, b, n);
        n := n + 1;
      }
    }
    AllBlocks(Dificil);
  }

  /** The body of the 'Difícil' loop for one (P, Q), with its inner loop over R. */
  method PushDificil(before: seq<Question>, P: bool, Q: bool) returns (dificil: seq<Question>)
    ensures dificil == before + AsQuestions(Block(Dificil, P, Q))
  {
    var valores := Valores;
    dificil := before;
    dificil := dificil + [Question("P=" + BoolParaTexto(P) + ", Q=" + BoolParaTexto(Q) + ", qual o resultado de P -> Q?", (!P) || Q)];
    dificil := dificil + [Question("P=" + BoolParaTexto(P) + ", Q=" + BoolParaTexto(Q) + ", qual o resultado de P <-> Q?", P == Q)];
    DificilPushes(before, P, Q);
    for c := 0 to |valores|
      invariant dificil == before + AsQuestions(Block(Dificil, P, Q)[..2 + c])
    {
      var R := valores[c];
      dificil := dificil + [Question("P=" + BoolParaTexto(P) + ", Q=" + BoolParaTexto(Q) + ", R=" + BoolParaTexto(R) + ", qual o resultado de (P AND Q) OR R?", (P && Q) || R)];
      DificilPushR(before, P, Q, c);
    }
    assert Block(Dificil, P, Q)[..2 + |valores|] == Block(Dificil, P, Q);
  }

  /** The first easy question: P and Q true, the AND template, answer true. */
  lemma FirstFacil()
    ensures CatalogOf(Facil)[0] == Question("P=V, Q=V" + Pergunta(And), true)
  {
    TierInstancesUnfold(Facil);
    assert CatalogOf(Facil)[0] == ToQuestion(Instance(And, true, true, None));
    TrueTrueText(And, Pergunta(And));
  }

  lemma TrueTrueText(t: Template, tail: string)
    requires tail == Pergunta(t)
    ensures Render(Instance(t, true, true, None)) == "P=V, Q=V" + tail
  {
    TwoVariableText(t, true, true, tail);
  }
}

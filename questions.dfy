/**
 * Question texts and their truth values: the boolean-to-letter rendering of
 * `boolParaTexto` (script.js:10-13) and the operator templates whose texts and
 * answers `gerarTodasAsQuestoes` writes out (script.js:31-102).
 *
 * A question text is `P=<V|F>, Q=<V|F>[, R=<V|F>], qual o resultado de <expr>?`.
 * `Render` builds it from a template and an assignment, `ParseQuestion` reads
 * it back, and `Eval` is the truth function of each template, written with
 * Dafny's own connectives rather than the operators the source uses.
 */
module Questions {
  import opened Wrappers

  /** The difficulty levels, keys 'Fácil', 'Médio' and 'Difícil' of the catalog. */
  datatype Tier = Facil | Medio | Dificil

  /** A catalog entry: the text shown to the player and the correct answer. */
  datatype Question = Question(questao: string, resposta: bool)

  /** The operator templates, in the order the generator writes them. */
  datatype Template = And | Or | NotPOrQ | PAndNotQ | Xor | Implies | Iff | AndOrR

  /** The letter shown for a truth value: 'V' (verdadeiro) or 'F' (falso). */
  function BoolParaTexto(v: bool): (r: string)
    ensures |r| == 1
    ensures r == "V" <==> v
    ensures r == "F" <==> !v
  {
    if v then "V" else "F"
  }

  /** The closing `, qual o resultado de <expression>?` of the question text. */
  function Pergunta(t: Template): (r: string)
    ensures |r| > 3 && r[2] == 'q'
  {
    match t
    case And => ", qual o resultado de P AND Q?"
    case Or => ", qual o resultado de P OR Q?"
    case NotPOrQ => ", qual o resultado de (NOT P) OR Q?"
    case PAndNotQ => ", qual o resultado de P AND (NOT Q)?"
    case Xor => ", qual o resultado de P XOR Q?"
    case Implies => ", qual o resultado de P -> Q?"
    case Iff => ", qual o resultado de P <-> Q?"
    case AndOrR => ", qual o resultado de (P AND Q) OR R?"
  }

  /** Only `(P AND Q) OR R` binds a third variable. */
  predicate UsesR(t: Template) {
    t == AndOrR
  }

  /** The tier whose block of the generator writes the template. */
  function TierOf(t: Template): Tier {
    match t
    case And | Or => Facil
    case NotPOrQ | PAndNotQ | Xor => Medio
    case Implies | Iff | AndOrR => Dificil
  }

  /** The truth function of each template. */
  function Eval(t: Template, p: bool, q: bool, r: bool): bool {
    match t
    case And => p && q
    case Or => p || q
    case NotPOrQ => !p || q
    case PAndNotQ => p && !q
    case Xor => !(p <==> q)
    case Implies => p ==> q
    case Iff => p <==> q
    case AndOrR => (p && q) || r
  }

  /** A template together with the values substituted for its variables. */
  datatype Instance = Instance(template: Template, p: bool, q: bool, r: Option<bool>)

  /** R is bound exactly when the template mentions it. */
  predicate WellFormed(i: Instance) {
    i.r.Some? <==> UsesR(i.template)
  }

  /** The value of the instance's proposition. */
  function Truth(i: Instance): bool {
    Eval(i.template, i.p, i.q, if i.r.Some? then i.r.value else false)
  }

  /** The `Name=<V|F>` part of the text for one bound variable. */
  function Binding(name: string, v: bool): string {
    name + BoolParaTexto(v)
  }

  function OptionalR(r: Option<bool>): string {
    match r
    case Some(v) => Binding(", R=", v)
    case None => ""
  }

  /** The question text for an instance. */
  function Render(i: Instance): string {
    Binding("P=", i.p) + (Binding(", Q=", i.q) + (OptionalR(i.r) + Pergunta(i.template)))
  }

  /** The catalog entry for an instance: its text and its truth value. */
  function ToQuestion(i: Instance): Question {
    Question(Render(i), Truth(i))
  }

  // ---------------------------------------------------------------------------
  // Reading a question text back.

  function StripPrefix(prefix: string, s: string): (r: Option<string>)
    ensures r.Some? ==> s == prefix + r.value
  {
    if |prefix| <= |s| && s[..|prefix|] == prefix then Some(s[|prefix|..]) else None
  }

  lemma StripPrefixOfConcat(prefix: string, rest: string)
    ensures StripPrefix(prefix, prefix + rest) == Some(rest)
  {
    assert (prefix + rest)[..|prefix|] == prefix;
    assert (prefix + rest)[|prefix|..] == rest;
  }

  /** Reads `Name=<V|F>` and returns the value and what follows. */
  function ReadBinding(name: string, s: string): (r: Option<(bool, string)>)
    ensures r.Some? ==> s == Binding(name, r.value.0) + r.value.1
  {
    match StripPrefix(name, s)
    case None => None
    case Some(rest) =>
      if |rest| >= 1 && rest[0] == 'V' then
        assert rest == "V" + rest[1..];
        Some((true, rest[1..]))
      else if |rest| >= 1 && rest[0] == 'F' then
        assert rest == "F" + rest[1..];
        Some((false, rest[1..]))
      else None
  }

  lemma ReadBindingOfConcat(name: string, v: bool, rest: string)
    ensures ReadBinding(name, Binding(name, v) + rest) == Some((v, rest))
  {
    assert Binding(name, v) + rest == name + (BoolParaTexto(v) + rest);
    StripPrefixOfConcat(name, BoolParaTexto(v) + rest);
    assert (BoolParaTexto(v) + rest)[1..] == rest;
  }

  /** Reads the optional `, R=<V|F>` binding. */
  function ReadOptionalR(s: string): (r: (Option<bool>, string))
    ensures s == OptionalR(r.0) + r.1
  {
    match ReadBinding(", R=", s)
    case Some((v, rest)) => (Some(v), rest)
    case None => (None, s)
  }

  /** The template whose closing text is `e`, if any. */
  function TemplateOf(e: string): (r: Option<Template>)
    ensures r.Some? ==> Pergunta(r.value) == e
  {
    if e == Pergunta(And) then Some(And)
    else if e == Pergunta(Or) then Some(Or)
    else if e == Pergunta(NotPOrQ) then Some(NotPOrQ)
    else if e == Pergunta(PAndNotQ) then Some(PAndNotQ)
    else if e == Pergunta(Xor) then Some(Xor)
    else if e == Pergunta(Implies) then Some(Implies)
    else if e == Pergunta(Iff) then Some(Iff)
    else if e == Pergunta(AndOrR) then Some(AndOrR)
    else None
  }

  /** The closing texts are pairwise different. */
  lemma TemplateOfPergunta(t: Template)
    ensures TemplateOf(Pergunta(t)) == Some(t)
  {
  }

  /** Recovers the template and assignment from a question text. */
  function ParseQuestion(s: string): Option<Instance> {
    match ReadBinding("P=", s)
    case None => None
    case Some((p, s1)) =>
      match ReadBinding(", Q=", s1)
      case None => None
      case Some((q, s2)) =>
        var (r, s3) := ReadOptionalR(s2);
        match TemplateOf(s3)
        case None => None
        case Some(t) => if UsesR(t) <==> r.Some? then Some(Instance(t, p, q, r)) else None
  }

  /** Reading a rendered text gives back the instance it was rendered from. */
  lemma {:induction false} ParseRender(i: Instance)
    requires WellFormed(i)
    ensures ParseQuestion(Render(i)) == Some(i)
  {
    var tail := Pergunta(i.template);
    var s2 := OptionalR(i.r) + tail;
    var s1 := Binding(", Q=", i.q) + s2;
    ReadBindingOfConcat("P=", i.p, s1);
    ReadBindingOfConcat(", Q=", i.q, s2);
    match i.r {
      case Some(v) =>
        ReadBindingOfConcat(", R=", v, tail);
      case None =>
        assert s2 == tail;
        assert ReadBinding(", R=", s2) == None;
    }
    assert ReadOptionalR(s2) == (i.r, tail);
    TemplateOfPergunta(i.template);
  }

  /** Only rendered texts are accepted, and they name a well-formed instance. */
  lemma ParseSound(s: string, i: Instance)
    requires ParseQuestion(s) == Some(i)
    ensures WellFormed(i) && Render(i) == s
  {
  }

  /** A text names a well-formed instance exactly when it is that instance's rendering. */
  lemma ParseQuestionIff(s: string, i: Instance)
    ensures ParseQuestion(s) == Some(i) <==> WellFormed(i) && Render(i) == s
  {
    if ParseQuestion(s) == Some(i) {
      ParseSound(s, i);
    }
    if WellFormed(i) && Render(i) == s {
      ParseRender(i);
    }
  }

  /** Different well-formed instances have different texts. */
  lemma RenderInjective(a: Instance, b: Instance)
    requires WellFormed(a) && WellFormed(b)
    requires Render(a) == Render(b)
    ensures a == b
  {
    ParseRender(a);
    ParseRender(b);
  }
}

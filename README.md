# Truth-table quiz: a verified model of its core

The program is a browser quiz on propositional logic. On page load it generates one list of
true/false questions per difficulty tier: 'Fácil', 'Médio' and 'Difícil'. Each question
instantiates one operator template for one truth assignment of P, Q and, for one template, R:
"P=V, Q=F, qual o resultado de P XOR Q?". A game works in four steps:

- It shuffles the chosen tier's list in place with Fisher–Yates.
- It keeps the first five questions.
- It shows them one at a time, scoring each true/false answer.
- It ends on a screen with the score and one of three messages.

This project models that core in Dafny and proves its properties. It has six modules.

- `Questions` (questions.dfy):
  - the letter rendering `boolParaTexto`;
  - the eight operator templates, with their texts and truth functions;
  - the rendering of a (template, assignment) pair as a question text;
  - a parser that reads a text back. The parser is proved to be the exact inverse of the rendering.
- `Catalog` (catalog.dfy):
  - `CatalogOf`, the catalog as a value;
  - the source's nested generator loops as methods (`GerarTodasAsQuestoes` and one per tier). They are proved to build exactly that value.
  - The catalog's properties: sizes, exhaustiveness, order, uniqueness and correct answers.
- `Shuffle` (shuffle.dfy): `shuffleArray` as an in-place loop over an `array`, with the random indices injected. It is proved to produce `Shuffled(old contents, draws)`, a permutation.
- `Game` (game.dfy):
  - the session as a value (`Session`), with its transitions `Advance` (`proximaQuestao`) and `Answer` (`verificarResposta`), and the choice of final message `FeedbackFor` with its text `Mensagem`;
  - the class `TodasAsQuestoes`, which holds the three catalog arrays;
  - the class `Game`, which holds the source's module-level variables as fields. Its methods are proved to perform the value-level transitions.
- `Sequences` and `Wrappers` are small shared helpers.

The random source of the shuffle is a parameter. `draws[k]` is the index `j` that
`Math.floor(Math.random() * (i + 1))` picks on the k-th pass, the one with `i = n - 1 - k`. It
must lie in `[0, i]`.

Three behaviours of the code that the model keeps:

- `iniciarJogo` shuffles the shared tier array itself (script.js:156-158), not a working copy. The next game therefore starts from the previous game's order.
- There is no check that a tier holds five questions: the code just takes `slice(0, 5)` (script.js:160). The model proves that each tier has at least eight questions, so the five are always there.
- `verificarResposta` has no guard against a completed game (script.js:195-206). Called again at question 5, it re-scores question 5 and shows the final screen again. `Answer` models exactly that.

## Model

| member | source | states |
|---|---|---|
| Questions.BoolParaTexto | script.js:10-13 | The result is one letter: "V" exactly when the value is true, "F" exactly when it is false. |
| Questions.ParseRender | script.js:37-96 | Reading back the text of any well-formed (template, P, Q[, R]) instance gives that instance: the text fixes the template and every value. |
| Questions.ParseSound | script.js:37-96 | Every text the parser accepts is `P=<V\|F>, Q=<V\|F>[, R=<V\|F>], qual o resultado de <expr>?` for a well-formed instance, R present exactly for the three-variable template. |
| Questions.ParseQuestionIff | script.js:37-96 | A text parses to an instance if and only if it is that well-formed instance's rendering. |
| Questions.RenderInjective | script.js:37-96 | Two well-formed instances with the same text are the same instance. |
| Catalog.TierSizes | script.js:31-102 | The catalog has 8 'Fácil', 12 'Médio' and 16 'Difícil' questions. |
| Catalog.TierExhaustive | script.js:31-102 | A tier holds an instance if and only if the instance is well formed and its template belongs to that tier: every (template, assignment) pair of the tier is generated and nothing else. |
| Catalog.TierPositions | script.js:21-102 | Generation order: each entry sits at the index given by P (true first, outer loop), then Q (true first, inner loop), then the template's place in the loop body, then R (true first). |
| Catalog.FirstFacil | script.js:31-40 | The first 'Fácil' question is "P=V, Q=V, qual o resultado de P AND Q?" with answer true. |
| Catalog.TierInstancesDistinct | script.js:31-102 | No (template, assignment) pair is generated twice in a tier. |
| Catalog.CatalogAnswersMatchText | script.js:37-98 | Every entry's text parses. Its answer is the parsed template's truth function on the values in the text, and that template belongs to the entry's tier. |
| Catalog.CatalogTextsDistinct | script.js:37-96 | Question texts within a tier are pairwise different. |
| Catalog.CatalogDistinct | script.js:31-102 | The entries of a tier are pairwise different questions. |
| Catalog.GerarTodasAsQuestoes | script.js:19-105 | The generator returns exactly `CatalogOf` for each of the three tiers. |
| Catalog.GerarFacil | script.js:31-49 | The 'Fácil' nested loops build exactly `CatalogOf(Facil)`. |
| Catalog.PushFacil | script.js:35-47 | One (P, Q) iteration appends the AND and OR questions of that assignment, in that order. |
| Catalog.FacilPushes | script.js:35-47 | The literal texts and the `P && Q` and `P \|\| Q` answers the loop body pushes are the block of (P, Q). |
| Catalog.GerarMedio | script.js:53-74 | The 'Médio' nested loops build exactly `CatalogOf(Medio)`. |
| Catalog.PushMedio | script.js:56-72 | One (P, Q) iteration appends the (NOT P) OR Q, P AND (NOT Q) and XOR questions, in that order. |
| Catalog.MedioPushes | script.js:56-72 | The pushed texts and the `(!P) \|\| Q`, `P && (!Q)` and `P !== Q` answers are the block of (P, Q). |
| Catalog.GerarDificil | script.js:78-102 | The 'Difícil' nested loops, including the inner R loop, build exactly `CatalogOf(Dificil)`. |
| Catalog.PushDificil | script.js:81-100 | One (P, Q) iteration appends P -> Q, P <-> Q, then (P AND Q) OR R for R = true and then R = false. |
| Catalog.DificilPushes | script.js:81-91 | The pushed P -> Q and P <-> Q texts and the `(!P) \|\| Q` and `P === Q` answers start the block of (P, Q). |
| Catalog.DificilPushR | script.js:93-100 | The question pushed for R is the next one of the block, with answer `(P && Q) \|\| R`. |
| Shuffle.Shuffled | script.js:111-119 | The loop's result keeps the length, and sequences of length at most 1 are returned unchanged. |
| Shuffle.ShuffledPermutes | script.js:111-119 | For any valid index choices, the shuffle's result is a permutation (same multiset) of its input. |
| Shuffle.ShuffleStepsPermutes | script.js:113-118 | After any number of passes the contents are a permutation of the input. |
| Shuffle.SwapPermutes | script.js:117 | Exchanging two elements keeps the multiset of elements. |
| Shuffle.ShuffleArray | script.js:111-119 | Shuffling in place leaves the array holding `Shuffled(old contents, draws)`, a permutation of what it held. |
| Shuffle.Exchange | script.js:117 | The destructuring assignment exchanges `array[i]` and `array[j]` and nothing else. |
| Game.MensagemInjective | script.js:221-227 | The three final messages are different texts, so the message on the final screen determines which feedback was chosen. |
| Game.FeedbackRatio | script.js:219-228 | The integer comparisons choose "mestre" exactly when `pontuacao / 5 >= 0.9`, "vai bem" exactly when it lies in [0.6, 0.9), and "precisa estudar" exactly when it is below 0.6. |
| Game.FeedbackByScore | script.js:219-228 | Among the scores 0 to 5: "mestre" exactly for 5, "vai bem" exactly for 3 or 4, "precisa estudar" exactly for 0 to 2. |
| Game.FeedbackMonotonic | script.js:219-228 | A higher score never gets a worse message. |
| Game.AdvanceSteps | script.js:173-189 | Below 5 the counter goes up by exactly one and the next drawn question is shown. At 5 nothing changes and the final screen shows the score and message. The counter never passes 5, and the drawn list and the score are untouched. |
| Game.Answer | script.js:195-206 | The score goes up by one exactly when the answer equals the shown question's `resposta`, and otherwise stays. The game stays under way with the same questions. Before question 5 the counter advances and shows the next question; at 5 the final screen appears. |
| Game.BeginShowsFirst | script.js:151-167 | After the reset and the first `proximaQuestao`: score 0, counter 1, and the first drawn question is current and shown. |
| Game.RunScores | script.js:195-206 | Across a sequence of answers, the score grows by the number of answers that match their questions, and the counter by the number of answers, capped at 5. |
| Game.GameOfFive | script.js:151-228 | Starting and answering five times ends on the final screen. That screen shows the number of right answers (at most 5) and the message for it. |
| Game.PerfectAndWorstGames | script.js:219-228 | All answers right gives 5 / 5 and "mestre"; all wrong gives 0 / 5 and "precisa estudar". |
| Game.DrawnFromCatalog | script.js:156-160 | The first n questions of a reordered catalog are pairwise different questions of that catalog. |
| Game.TodasAsQuestoes.constructor | script.js:139 | The three tier arrays are newly allocated and hold exactly the generated catalogs, in generation order. |
| Game.TodasAsQuestoes.Embaralhar | script.js:156-158 | `shuffleArray(todasAsQuestoes[nivel])` leaves that array holding `Shuffled(old contents, draws)`. Every array stays a reordering of its catalog. |
| Game.Game.constructor | script.js:139-145 | On page load the catalog is generated into newly allocated arrays and the session is empty: no questions, no current question, score 0, counter 0. |
| Game.Game.IniciarJogo | script.js:151-168 | The tier's array is shuffled in place and the game keeps its first five questions. Score 0, counter 1, the first of them is current and shown. The arrays stay reorderings of their catalogs, and the five are different questions of the tier. |
| Game.Game.SortearQuestoes | script.js:156-160 | The tier's array becomes `Shuffled(old contents, draws)`, has at least 5 entries, and its first five become `listaDeQuestoes`, different questions of that tier. |
| Game.Game.ProximaQuestao | script.js:173-189 | The new state and screen are `Advance` of the old state. |
| Game.Game.VerificarResposta | script.js:195-206 | The new state and screen are `Answer` of the old state and the given answer, and the game stays under way. |

## Left out

- The DOM: element lookups, class toggling and `textContent` writes (script.js:126-136, 161-165, 186-188, 213-217, 230). These are presentation only, and the screen they build is returned as a `Screen` value.
- `reiniciarJogo` (script.js:236-241) only toggles two screens, so there is no state to model.
- The event listeners (script.js:244-259) and the background animation (script.js:263-317) are browser glue and styling, unrelated to the game state.
- `Math.random` (script.js:115): the indices are an injected `draws` sequence. Whether the shuffle is uniform is not modelled.
- The 200 ms `setTimeout` (script.js:205): `VerificarResposta` advances at once. Two clicks landing inside the delay are not modelled, because timing is outside the model.
- The floating-point division at script.js:219 is replaced by exact integer comparisons. `FeedbackRatio` proves they agree with the exact ratio, but IEEE rounding is not modelled.
- Unknown tier strings: `Tier` has exactly the three tiers, so `todasAsQuestoes[nivel]` for any other key cannot be expressed.
- Game.Game.VerificarResposta: requires a game under way (`numeroDaQuestao != 0`). The answer buttons only appear after `iniciarJogo`. Called before the first game, the source would fail when reading the text of an undefined question, and the model does not capture that failure.
- Game.Game.IniciarJogo: does not restate which permutation the array now holds. That relation, `Shuffled(old contents, draws)`, is stated by `Game.Game.SortearQuestoes` and `Game.TodasAsQuestoes.Embaralhar`, which `IniciarJogo` calls.

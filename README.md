# Shunt, O₂ balance and case quiz — a Dafny model

This project models the logic behind an educational web app about
pulmonary shunt and oxygen transport. The app has three pages:

- **Shunt diagram** (`App.tsx`): hovering an element highlights its group
  and dims the rest. A button starts and stops the flow animation. Other
  buttons open the two other pages.
- **O₂ balance flowchart** (`components/O2Balance.tsx`): six simulation
  phases (normal, ARDS, shock, intervention, acidosis, ECMO). Each phase has
  a heading, a subheading and a button label. Each phase gives the five
  flowchart nodes (DO₂, Q̇t, CaO₂, VO₂, CvO₂) their content and styling.
- **Case quiz** (`components/Quiz.tsx`, `quizData.ts`): a fixed list of
  narrative blocks, calculation questions, multiple-choice questions and
  explanations. The quiz does four things:
  - It grades the answers. A calculation field must be within a per-field
    tolerance of the expected value: 5 for PAO₂, 0.5 for CaO₂, 3 for the
    shunt fraction, 20 for DO₂. A choice must be the stored index.
  - It extracts example values from the narrative that precedes a question.
  - It looks back for the CaO₂ answer that a shunt question builds on.
  - It maps each narrative block's title to the flowchart phase that its
    "visualise" button opens.

Modules:

- `Wrappers`: `Option`, where `None` also stands for `undefined` and for NaN.
  It also holds a map lookup that returns an `Option`.
- `QuizData`: the item kinds, the `chem` subscript helper, and the quiz items
  copied verbatim (`QuizItems`).
- `Quiz`: grading, answer updates, the quiz view as a class with the
  source's state, value extraction, the formulas, the shunt look-back and the
  title-to-phase mapping.
- `QuizFacts`: facts about the fixed items. The expected answers agree with
  the formulas applied to the narrative's values, and the shunt questions
  find the CaO₂ question before them.
- `O2Balance`: the phase texts, the node content and node class tables, and
  the view as a class.
- `App`: the highlighting function and the page state as a class.

Modelling choices:

- The host's `parseFloat` and `parseInt` are parameters (`Quiz.Parsers`).
- The regular-expression engine is a parameter (`Quiz.Captures`). It
  returns the captured number text of every match of a symbol's pattern in
  a text.
- Numbers are mathematical reals.
- Answers and feedback are keyed by item index.

## Model

| member | source | states |
|---|---|---|
| QuizData.Chem | quizData.ts:7-13 | The output has the input's length, and each character is the replacement of the input character at the same place. |
| QuizData.SubscriptOfDigit | quizData.ts:8-11 | The table sends each ASCII digit d to the subscript digit at code point U+2080 + d. |
| QuizData.ChemMapsDigits | quizData.ts:12 | Every ASCII digit of the input becomes the subscript digit of the same value. |
| QuizData.ChemKeepsNonDigits | quizData.ts:12 | Characters that are not ASCII digits are kept unchanged. |
| QuizData.ChemHasNoAsciiDigits | quizData.ts:12 | The output contains no ASCII digit. |
| QuizData.ChemIdempotent | quizData.ts:12 | Applying the helper twice gives the same result as applying it once. |
| QuizData.McAnswersInRange | quizData.ts:179-294 | The correct index of every multiple-choice item points into that item's options. |
| QuizData.CalcItemsAskOneField | quizData.ts:60-267 | Every calculation item asks for exactly one of the four fields. |
| QuizFacts.FixtureAlveolarAgrees | quizData.ts:57-64 | An answer that parses to the alveolar gas equation applied to the first phase's values is graded correct for question 1. |
| QuizFacts.FixtureContentAgrees | quizData.ts:57-69 | An answer that parses to the O₂ content equation applied to Hb 15, SaO₂ 0.991 and PaO₂ 95 is graded correct for question 2. |
| QuizFacts.FixtureShuntAgrees | quizData.ts:65-74 | An answer that parses to the shunt equation, using Cc'O₂ 20.41, CvO₂ 15.2 and the CaO₂ of question 2, is graded correct for question 3. |
| QuizFacts.FixtureSecondAlveolarAgrees | quizData.ts:83-87 | The alveolar gas equation with FiO₂ 0.4 and PaCO₂ 45 is within the PAO₂ tolerance of question 4's expected 229. |
| QuizFacts.FixtureSecondContentAgrees | quizData.ts:88-92 | The O₂ content equation with Hb 14.5, SaO₂ 0.88 and PaO₂ 60 is within the CaO₂ tolerance of question 5's expected 17.3. |
| QuizFacts.FixtureSecondShuntAgrees | quizData.ts:88-97 | The shunt equation with Cc'O₂ 20.4, CvO₂ 12.7 and question 5's CaO₂ is within the shunt tolerance of question 6's expected 41. |
| QuizFacts.FixtureDeliveryAgrees | quizData.ts:254-267 | The DO₂ equation with the post-intervention values (HF 90, SV 61 ml, Hb 9.5, SaO₂ 0.95, PaO₂ 90) is within the DO₂ tolerance of question 14's expected 679. |
| QuizFacts.FixtureShuntLookBack | components/Quiz.tsx:199-206 | On the quiz items, the look-back from each shunt question finds the CaO₂ question just before it (20.21 and 17.3). |
| Quiz.TotalQuestionsCountsQuestions | components/Quiz.tsx:81 | The question count equals the number of item indices that hold a calculation or multiple-choice question. |
| Quiz.FeedbackStep | components/Quiz.tsx:104-145 | Grading one more item adds exactly that item's verdict if it is a question, and adds nothing otherwise. |
| Quiz.GradeAll | components/Quiz.tsx:100-149 | The loop computes the graded feedback. It holds a verdict, correct or incorrect, for exactly the question indices. The score is the number of correct verdicts and at most the number of questions. |
| Quiz.CorrectKeysAdd | components/Quiz.tsx:139-144 | Recording a correct verdict for a new index raises the correct count by one. Recording an incorrect verdict leaves it unchanged. |
| Quiz.GradedFeedbackShape | components/Quiz.tsx:104-145 | The graded feedback has keys exactly at the questions and only correct or incorrect values. Its correct count is at most the number of questions. |
| Quiz.GradingIsPerQuestion | components/Quiz.tsx:104-108 | Grading depends only on each question's own answer. Answers that agree on the questions grade the same. |
| Quiz.CalcCorrectIff | components/Quiz.tsx:110-132 | A calculation answer is correct if and only if it is present and every asked field parses to a number within that field's tolerance. |
| Quiz.CalcMissingOrUnparsable | components/Quiz.tsx:112-131 | A missing answer, or an asked field that parses to NaN, is graded incorrect. |
| Quiz.ToleranceBoundary | components/Quiz.tsx:115-130 | A value exactly at the tolerance boundary passes. Any value beyond it, on either side, fails. |
| Quiz.McCorrectIff | components/Quiz.tsx:133-137 | Each answer shape is graded as follows. A missing answer is incorrect. A typed choice is correct if and only if it is non-empty and parses to the stored index, so a non-empty choice that parses to another number is incorrect. A record is correct if and only if "[object Object]" parses to the index. |
| Quiz.WithCalcField | components/Quiz.tsx:83-91 | Typing into a field sets that field of the question's record and keeps its other fields. It adds the question's key and leaves every other question's answer as it was. |
| Quiz.WithChoice | components/Quiz.tsx:93-98 | Choosing an option replaces the question's answer by the choice and leaves every other answer as it was. |
| Quiz.CalcChangeIdempotent | components/Quiz.tsx:83-91 | Typing the same value into the same field twice has the effect of typing it once. |
| Quiz.Toggled | components/Quiz.tsx:151-161 | The index changes membership and every other index keeps its membership. |
| Quiz.ToggleTwice | components/Quiz.tsx:163-173 | Toggling the same index twice restores the set. |
| Quiz.QuizState.constructor | components/Quiz.tsx:74-79 | The quiz view starts with no answers, no feedback, score 0, and no open formula or explanation panels. |
| Quiz.QuizState.CheckAnswers | components/Quiz.tsx:100-149 | Feedback and score are replaced by the grading of the current answers, with the score bounded by the question count. Answers and panels are unchanged. |
| Quiz.QuizState.HandleCalcChange | components/Quiz.tsx:83-91 | The answers become the field update of the old answers. Feedback, score and panels are unchanged. |
| Quiz.QuizState.HandleMcChange | components/Quiz.tsx:93-98 | The answers become the choice update of the old answers. Feedback, score and panels are unchanged. |
| Quiz.QuizState.ToggleFormula | components/Quiz.tsx:151-161 | The formula panel set is toggled at the index. Nothing else changes. |
| Quiz.QuizState.ToggleExplanation | components/Quiz.tsx:163-173 | The explanation set is toggled at the index. Nothing else changes. |
| Quiz.ReplaceFirstAbsent | components/Quiz.tsx:64 | Without a decimal comma, the comma-to-point replacement leaves the captured text unchanged. |
| Quiz.ReplaceFirstAt | components/Quiz.tsx:64 | The replacement changes the first comma only and keeps every other character, later commas included. |
| Quiz.Truthy | components/Quiz.tsx:112 | An answer counts as present only when there is one. A record always counts as present. |
| Quiz.FieldPasses | components/Quiz.tsx:115-130 | A field the question does not ask for always passes. An asked field that is missing, NaN or part of a typed choice fails. |
| Quiz.CalcIsCorrect | components/Quiz.tsx:110-132 | A calculation question with no answer is incorrect. A typed choice is incorrect whenever a field is asked for. A record passes a question that asks for nothing. |
| Quiz.McIsCorrect | components/Quiz.tsx:133-137 | A correct choice is present, and a correct typed choice is not empty. |
| Quiz.IsCorrect | components/Quiz.tsx:107-137 | Each kind of question is graded by its own rule. No question is correct without an answer. |
| Quiz.TotalQuestions | components/Quiz.tsx:81 | The question count is at most the number of items, and it is zero when no item is a question. |
| Quiz.Join | components/Quiz.tsx:45 | The joined text is empty for no paragraphs. Otherwise it starts with the first paragraph, and when there are more it continues with the separator. |
| Quiz.SearchText | components/Quiz.tsx:42-50 | The searched text is the title for a question and the question for an explanation. For a narrative block, it is empty without paragraphs and otherwise starts with the first paragraph. |
| Quiz.ReplaceFirst | components/Quiz.tsx:64 | The length is kept, every character other than the comma is kept, and a text that had a comma gets a point. |
| Quiz.AlveolarPO2 | components/Quiz.tsx:189 | With a positive RQ and a non-negative PaCO₂, PAO₂ is at most the inspired O₂ pressure (PB − PH₂O) · FiO₂. Without CO₂ it equals that pressure. |
| Quiz.O2Content | components/Quiz.tsx:194 | The content is non-negative for non-negative inputs. Without haemoglobin or saturation, only the dissolved part PaO₂ · 0.003 remains. |
| Quiz.ShuntFraction | components/Quiz.tsx:215 | The fraction is 0 % when arterial content equals end-capillary content and 100 % when it equals venous content. It lies strictly between 0 % and 100 % for arterial content strictly between the two. |
| Quiz.O2Delivery | components/Quiz.tsx:218-222 | The delivery is non-negative for non-negative inputs, and zero when heart rate, stroke volume or content is zero. |
| Quiz.ContextCaO2 | components/Quiz.tsx:210 | A missing or NaN Hb, SaO₂ or PaO₂ makes the recomputed CaO₂ NaN. Otherwise it is the O₂ content of the three values. |
| Quiz.ShuntCaO2 | components/Quiz.tsx:199-211 | When an earlier question asks for CaO₂, the shunt example uses the nearest one's answer. Otherwise it uses the CaO₂ recomputed from context. |
| Quiz.TitlePhase | components/Quiz.tsx:272-279 | A phase other than normal is chosen only when the lower-cased title contains that phase's key. A title containing "phase 1" always gives the normal phase. |
| Quiz.LastHitBefore | components/Quiz.tsx:40-69 | The result is the last of the first n items whose text yields a non-empty capture for the symbol. It is none exactly when no such item exists. |
| Quiz.LastHitReadsPrefix | components/Quiz.tsx:40-41 | The result depends only on the items up to the current index. Later items never matter. |
| Quiz.SymbolIndex | components/Quiz.tsx:21-37 | Every symbol has an entry in the pattern table. |
| Quiz.SymbolIndexOfEntry | components/Quiz.tsx:21-37 | No symbol has two entries in the pattern table. |
| Quiz.GetContextValues | components/Quiz.tsx:19-71 | After the scan, a symbol has a value if and only if some item up to the current index mentions it. That value is the parse, with the first comma turned into a point, of the last capture in the last item that mentions it. |
| Quiz.O2ContentMonotone | components/Quiz.tsx:192-195 | For non-negative Hb and saturation, the O₂ content does not decrease when Hb, saturation or PaO₂ rises. |
| Quiz.NearestCaO2Before | components/Quiz.tsx:199-206 | The result is the expected CaO₂ of the nearest earlier calculation question that has one. It is none exactly when no earlier question has one. |
| Quiz.FindShuntCaO2 | components/Quiz.tsx:199-206 | The backward loop returns the nearest earlier expected CaO₂, and undefined exactly when there is none. |
| Quiz.ShuntPrefersPrecedingCaO2 | components/Quiz.tsx:199-211 | When an earlier question asks for CaO₂, the shunt example uses the nearest such answer whatever the context holds. It does not recompute CaO₂ from context. |
| Quiz.ToLowerAscii | components/Quiz.tsx:273 | The length is kept, upper-case ASCII letters become lower-case, and every other character is kept. |
| Quiz.TitlePhaseFirstMatch | components/Quiz.tsx:272-279 | The first key found in the lower-cased title, in the order phase 1, 2, 3, intervention, 5, 6, decides the phase. With none found, the phase is normal. |
| Quiz.CalcAcceptsOneField | components/Quiz.tsx:110-132 | A question asking for one field accepts a record holding only that field, when its value parses within tolerance. |
| O2Balance.PhaseHasTitle | components/O2Balance.tsx:7-39 | Every phase has a non-empty heading. |
| O2Balance.PhaseHasDescription | components/O2Balance.tsx:7-39 | Every phase has a non-empty subheading. |
| O2Balance.PhaseButtonNumbered | components/O2Balance.tsx:7-39 | Every button label reads "Phase n…". The phase sits at position n of the button order, which is the order of the phase table. |
| O2Balance.PhaseButtonsDistinct | components/O2Balance.tsx:7-39 | No two phases share a button label. |
| O2Balance.GetNodeContent | components/O2Balance.tsx:138-265 | A node shows its own phase's entry when there is one and the normal phase's entry otherwise. It shows nothing exactly when neither phase has an entry. |
| O2Balance.PhaseNodeIds | components/O2Balance.tsx:143-262 | Every phase's content table defines exactly the five node ids. |
| O2Balance.NodeContentNeverFallsBack | components/O2Balance.tsx:143-264 | The fallback to the normal phase never applies. A known node shows its own phase's content, and an unknown id shows nothing. |
| O2Balance.GetNodeClass | components/O2Balance.tsx:267-307 | The normal phase and an id missing from the phase's table get no class. Any other node gets the table's class. |
| O2Balance.NodeClassFacts | components/O2Balance.tsx:284-304 | Every node is "node-improving" in the intervention and ECMO phases. An unknown id is never styled. |
| O2Balance.O2BalanceView.constructor | components/O2Balance.tsx:118-121 | The view starts at the given phase, or at the normal phase when none is given, with the animation stopped. |
| O2Balance.O2BalanceView.HandlePhaseChange | components/O2Balance.tsx:129-135 | A phase button selects its phase from any phase and stops the animation. |
| App.GetHighlightClasses | App.tsx:34-59 | The result starts with the base class. It is the base class alone, the base class plus the highlight class of the element's kind, or the base class plus "dimmed". The kind is optional, as in the source's default argument. |
| App.DefaultKindIsLabel | App.tsx:37 | An element that gives no kind is styled exactly as a label: it gets "highlight-label" when it is highlighted. |
| App.HighlightCases | App.tsx:40-58 | Each of the three outcomes happens exactly when its condition holds. The base class alone means nothing is hovered, or the hovered name is empty. The highlight means the hovered group is among the element's groups, or the hover is on the main shunt and the element is a partial or full shunt. "dimmed" covers everything else. |
| App.ShuntHighlightsItsPaths | App.tsx:48-56 | Hovering the main shunt highlights every element of the partial-shunt or full-shunt group. |
| App.SingleIsOneElementList | App.tsx:39 | A single group name behaves like the list that holds only that name. |
| App.AppState.constructor | App.tsx:13-18 | The app starts on the shunt page, with the animation off, nothing hovered and no phase handed over. |
| App.AppState.ToggleAnimation | App.tsx:20-22 | The animation flag flips. Nothing else changes. |
| App.AppState.HoverEnter | App.tsx:29-30 | Entering an element records its group as hovered. Nothing else changes. |
| App.AppState.HoverLeave | App.tsx:31 | Leaving an element clears the hover. Nothing else changes. |
| App.AppState.HandleNavigateToBalance | App.tsx:24-27 | A quiz case block opens the balance page with its phase handed over. |
| App.AppState.BackFromBalance | App.tsx:64-67 | "Back" on the balance page clears the phase and shows the shunt page. |
| App.AppState.VisualizeBalance | App.tsx:585-588 | The "Visualize O₂ Balance" button opens the balance page without a phase. |
| App.AppState.TakeQuiz | App.tsx:594 | The "Take a Quiz" button shows the quiz page. No phase is pending. |
| App.AppState.BackFromQuiz | App.tsx:76 | "Back" on the quiz page shows the shunt page. No phase is pending. |
| App.AppState.MountBalanceView | App.tsx:61-69 | Showing the balance page mounts its view at the handed-over phase, or at the normal phase when none was handed over. |

## Left out

- Rendering is not modelled:
  - JSX and SVG markup, CSS animations, and the `dangerouslySetInnerHTML` arrows.
  - `components/CheatSheetModal.tsx` and the quiz's `isCheatSheetOpen` flag.
  - `index.tsx` and `api/generate.js`.
- Timers are not modelled: the balance view starts its animation on a timer
  after mounting, and restarts it on a timer after a phase change.
  `O2BalanceView.HandlePhaseChange` states only the synchronous part.
- Floating point is not modelled. Numbers are reals, and NaN is `None`
  where a parse produces it. `toFixed` rounding and the texts of the
  formula panel (`getFormulaDetails`) are not modelled.
  - Of `getFormulaDetails`, the model keeps the four formulas, the CaO₂
    look-back and its fallback to context.
  - It leaves out the DO₂ branch's `HF && SV` check and its Q̇t fallback.
- Quiz.AlveolarPO2 and Quiz.ShuntFraction require a non-zero denominator.
  - The source does not guard these divisions; in JavaScript they give
    Infinity or NaN.
  - The model follows the code: it adds no sentinel and leaves the zero case
    out.
- The regular-expression patterns of the symbol table are not modelled.
  Matching is the `Captures` parameter, so the model does not check which
  texts each pattern accepts.
- `parseFloat` and `parseInt` are the `Parsers` parameter; their behaviour on
  particular strings is not modelled.
- Quiz.ToLowerAscii: lower-cases ASCII letters only. JavaScript's
  `toLowerCase` also maps non-ASCII letters. No phase key contains one, but
  a title with such a letter elsewhere is lower-cased differently.
- QuizData.Chem: models only the string argument. The source also accepts a
  number, which it first converts with `String`.
- Quiz.WithCalcField: a field typed into a question whose stored answer is a
  string starts from an empty record. In JavaScript, spreading the string
  would copy its characters as index keys.
- Answers and feedback are keyed by item index rather than by the strings
  `q<i>` and `<i>`. The two keyings are in one-to-one correspondence.
- The `pending` verdict exists as a type but the quiz never produces it.
- Lookups of ids such as `toString` in the node tables are not modelled;
  JavaScript would find them on the object prototype.
- Two facts about the quiz items are not proved:
  - that the items hold exactly twelve questions;
  - which phase each narrative title maps to.

  Unfolding the full item list with its long German texts is beyond the
  verifier's budget. `Quiz.TitlePhaseFirstMatch` states the mapping for any
  title.
- The quiz's "visualise" button passes the `TitlePhase` of its block to
  `App.AppState.HandleNavigateToBalance`. That composition is not stated as
  a member of its own.

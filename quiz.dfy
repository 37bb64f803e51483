/** The quiz engine: grading of calculation and multiple-choice answers, the
    extraction of example values from the case narrative, the look-back that
    finds the arterial O₂ content a shunt question builds on, the mapping from
    a case title to a flowchart phase, and the quiz view's state updates. */
module Quiz {
  import opened Wrappers
  import opened QuizData
  import O2Balance

  // ---------------------------------------------------------------------
  // Answers, feedback and parsing
  // ---------------------------------------------------------------------

  /** A stored answer: the input fields of a calculation question by field
      name, or the chosen option of a multiple-choice question as typed in. */
  datatype Answer = Fields(fields: map<string, string>) | Choice(choice: string)

  datatype Verdict = Correct | Incorrect | Pending

  /** The number parsers of the host environment. A result of `None` is NaN. */
  datatype Parsers = Parsers(parseFloat: string -> Option<real>, parseInt: string -> Option<int>)

  /** What an answer record reads as when it is converted to a string. */
  const ObjectString: string := "[object Object]"

  /** JavaScript truthiness of a stored answer: a record always, a string only
      when it is not empty, a missing answer never. */
  predicate Truthy(a: Option<Answer>)
    ensures Truthy(a) ==> a.Some?
    ensures a.Some? && a.value.Fields? ==> Truthy(a)
  {
    match a
    case None => false
    case Some(Fields(_)) => true
    case Some(Choice(s)) => s != ""
  }

  function Abs(x: real): real
  {
    if x < 0.0 then -x else x
  }

  /** The absolute tolerance of each field. */
  function Tolerance(f: Field): real
  {
    match f
    case PaO2Field => 5.0
    case CaO2Field => 0.5
    case ShuntField => 3.0
    case Do2Field => 20.0
  }

  /** The parsed value of one field of an answer. A field that is not there
      (and every field of a string answer) reads `undefined`, which parses to
      NaN. */
  function ParsedField(a: Answer, f: Field, p: Parsers): Option<real>
  {
    match a
    case Fields(m) => if FieldKey(f) in m then p.parseFloat(m[FieldKey(f)]) else None
    case Choice(_) => None
  }

  /** One field of the grading: a field the question does not ask for is
      skipped; otherwise a NaN value, or one more than the tolerance away from
      the expected value, fails. */
  predicate FieldPasses(a: Answer, correct: CalcCorrect, f: Field, p: Parsers)
    ensures correct.Expected(f).None? ==> FieldPasses(a, correct, f, p)
    ensures correct.Expected(f).Some? && ParsedField(a, f, p).None? ==> !FieldPasses(a, correct, f, p)
    ensures a.Choice? && correct.Expected(f).Some? ==> !FieldPasses(a, correct, f, p)
  {
    match correct.Expected(f)
    case None => true
    case Some(e) =>
      match ParsedField(a, f, p)
      case None => false
      case Some(v) => !(Abs(v - e) > Tolerance(f))
  }

  /** A calculation answer is right when the answer is there and passes the
      checks for PAO₂, CaO₂, shunt fraction and DO₂ in turn. */
  predicate CalcIsCorrect(correct: CalcCorrect, a: Option<Answer>, p: Parsers)
    ensures a.None? ==> !CalcIsCorrect(correct, a, p)
    ensures a.Some? && a.value.Choice? && correct.DefinedCount() > 0 ==> !CalcIsCorrect(correct, a, p)
    ensures a.Some? && a.value.Fields? && correct.DefinedCount() == 0 ==> CalcIsCorrect(correct, a, p)
  {
    Truthy(a)
    && FieldPasses(a.value, correct, PaO2Field, p)
    && FieldPasses(a.value, correct, CaO2Field, p)
    && FieldPasses(a.value, correct, ShuntField, p)
    && FieldPasses(a.value, correct, Do2Field, p)
  }

  /** The string an answer reads as when passed to the integer parser. */
  function AsString(a: Answer): string
  {
    match a
    case Choice(s) => s
    case Fields(_) => ObjectString
  }

  /** A multiple-choice answer is right when it is there and its integer parse
      is the correct index. */
  predicate McIsCorrect(answer: int, a: Option<Answer>, p: Parsers)
    ensures McIsCorrect(answer, a, p) ==> a.Some? && (a.value.Choice? ==> a.value.choice != "")
  {
    Truthy(a) && p.parseInt(AsString(a.value)) == Some(answer)
  }

  /** Only questions are graded; narrative blocks and explanations are not. */
  predicate Gradable(item: QuizItem)
  {
    item.Calc? || item.Mc?
  }

  /** The verdict rule of one question: a calculation or a choice rule,
      depending on the kind of question. Without an answer, nothing is correct. */
  predicate IsCorrect(item: QuizItem, a: Option<Answer>, p: Parsers)
    requires Gradable(item)
    ensures a.None? ==> !IsCorrect(item, a, p)
  {
    if item.Calc? then CalcIsCorrect(item.correct, a, p) else McIsCorrect(item.answer, a, p)
  }

  function VerdictAt(items: seq<QuizItem>, answers: map<nat, Answer>, p: Parsers, i: nat): Verdict
    requires i < |items| && Gradable(items[i])
  {
    if IsCorrect(items[i], Lookup(answers, i), p) then Correct else Incorrect
  }

  /** The verdicts of the questions among the first `n` items. */
  function FeedbackUpTo(items: seq<QuizItem>, answers: map<nat, Answer>, p: Parsers, n: nat): map<nat, Verdict>
    requires n <= |items|
  {
    map i: nat | i < n && Gradable(items[i]) :: VerdictAt(items, answers, p, i)
  }

  /** The feedback of a grading run: one verdict per question, keyed by item
      index, and nothing for the other items. */
  function GradedFeedback(items: seq<QuizItem>, answers: map<nat, Answer>, p: Parsers): map<nat, Verdict>
  {
    FeedbackUpTo(items, answers, p, |items|)
  }

  /** The indices a feedback map marks as correct. */
  function CorrectKeys(feedback: map<nat, Verdict>): set<nat>
  {
    set i | i in feedback && feedback[i] == Correct
  }

  /** The number of questions among the items. */
  function TotalQuestions(items: seq<QuizItem>): (r: nat)
    ensures r <= |items|
    ensures (forall i :: 0 <= i < |items| ==> !Gradable(items[i])) ==> r == 0
  {
    if items == [] then 0
    else TotalQuestions(items[..|items| - 1]) + (if Gradable(items[|items| - 1]) then 1 else 0)
  }

  /** The indices of the questions among the items. */
  function QuestionIndices(items: seq<QuizItem>): set<nat>
  {
    set i: nat | i < |items| && Gradable(items[i])
  }

  /** The number of questions is the number of question indices. */
  lemma {:induction false} TotalQuestionsCountsQuestions(items: seq<QuizItem>)
    ensures TotalQuestions(items) == |QuestionIndices(items)|
  {
    if items != [] {
      var n := |items| - 1;
      var front := items[..n];
      TotalQuestionsCountsQuestions(front);
      if Gradable(items[n]) {
        assert QuestionIndices(items) == QuestionIndices(front) + {n};
      } else {
        assert QuestionIndices(items) == QuestionIndices(front);
      }
    }
  }

  /** Grading one more item adds its verdict, if it is a question. */
  lemma FeedbackStep(items: seq<QuizItem>, answers: map<nat, Answer>, p: Parsers, k: nat)
    requires k < |items|
    ensures Gradable(items[k]) ==>
              FeedbackUpTo(items, answers, p, k + 1) == FeedbackUpTo(items, answers, p, k)[k := VerdictAt(items, answers, p, k)]
    ensures !Gradable(items[k]) ==> FeedbackUpTo(items, answers, p, k + 1) == FeedbackUpTo(items, answers, p, k)
  {
  }

  /** Grades every question. The feedback holds a verdict, correct or
      incorrect, for exactly the question indices; the score is the number of
      correct verdicts and so at most the number of questions. */
  method GradeAll(items: seq<QuizItem>, answers: map<nat, Answer>, p: Parsers)
    returns (feedback: map<nat, Verdict>, score: nat)
    ensures feedback == GradedFeedback(items, answers, p)
    ensures forall i: nat :: i in feedback <==> i < |items| && Gradable(items[i])
    ensures forall i :: i in feedback ==> feedback[i] == Correct || feedback[i] == Incorrect
    ensures score == |CorrectKeys(feedback)|
    ensures score <= TotalQuestions(items)
  {
    feedback, score := map[], 0;
    var k := 0;
    while k < |items|
      invariant k <= |items|
      invariant feedback == FeedbackUpTo(items, answers, p, k)
      invariant score == |CorrectKeys(feedback)|
    {
      var q := items[k];
      FeedbackStep(items, answers, p, k);
      if q.Calc? || q.Mc? {
        var isCorrect := IsCorrect(q, Lookup(answers, k), p);
        if isCorrect {
          CorrectKeysAdd(feedback, k, Correct);
          score := score + 1;
          feedback := feedback[k := Correct];
        } else {
          CorrectKeysAdd(feedback, k, Incorrect);
          feedback := feedback[k := Incorrect];
        }
      }
      k := k + 1;
    }
    GradedFeedbackShape(items, answers, p);
  }

  /** Adding a verdict for a new index adds that index to the correct ones
      exactly when the verdict is correct. */
  lemma CorrectKeysAdd(feedback: map<nat, Verdict>, k: nat, v: Verdict)
    requires k !in feedback
    ensures v == Correct ==> CorrectKeys(feedback[k := v]) == CorrectKeys(feedback) + {k}
    ensures v == Correct ==> |CorrectKeys(feedback[k := v])| == |CorrectKeys(feedback)| + 1
    ensures v != Correct ==> CorrectKeys(feedback[k := v]) == CorrectKeys(feedback)
  {
    if v == Correct {
      assert CorrectKeys(feedback[k := v]) == CorrectKeys(feedback) + {k};
    } else {
      assert CorrectKeys(feedback[k := v]) == CorrectKeys(feedback);
    }
  }

  /** The graded feedback has a verdict, correct or incorrect, for exactly
      the questions, and at most as many correct verdicts as questions. */
  lemma GradedFeedbackShape(items: seq<QuizItem>, answers: map<nat, Answer>, p: Parsers)
    ensures forall i: nat :: i in GradedFeedback(items, answers, p) <==> i < |items| && Gradable(items[i])
    ensures forall i :: i in GradedFeedback(items, answers, p) ==>
              GradedFeedback(items, answers, p)[i] in {Correct, Incorrect}
    ensures |CorrectKeys(GradedFeedback(items, answers, p))| <= TotalQuestions(items)
  {
    var feedback := GradedFeedback(items, answers, p);
    assert CorrectKeys(feedback) <= QuestionIndices(items);
    TotalQuestionsCountsQuestions(items);
    SubsetCard(CorrectKeys(feedback), QuestionIndices(items));
  }

  lemma SubsetCard(a: set<nat>, b: set<nat>)
    requires a <= b
    ensures |a| <= |b|
  {
    assert b == a + (b - a);
  }

  /** The verdict of one question depends on its own answer only: grading
      ignores every other entry of the answers. */
  lemma GradingIsPerQuestion(items: seq<QuizItem>, a1: map<nat, Answer>, a2: map<nat, Answer>, p: Parsers)
    requires forall i :: 0 <= i < |items| && Gradable(items[i]) ==> Lookup(a1, i) == Lookup(a2, i)
    ensures GradedFeedback(items, a1, p) == GradedFeedback(items, a2, p)
  {
  }

  /** A calculation answer is correct exactly when an answer record is there
      and every field the question asks for parses to a number within that
      field's tolerance, the boundary included. */
  lemma CalcCorrectIff(title: string, correct: CalcCorrect, a: Option<Answer>, p: Parsers)
    ensures IsCorrect(Calc(title, correct), a, p) <==>
              Truthy(a)
              && forall f: Field :: correct.Expected(f).Some? ==>
                   ParsedField(a.value, f, p).Some?
                   && Abs(ParsedField(a.value, f, p).value - correct.Expected(f).value) <= Tolerance(f)
  {
    if IsCorrect(Calc(title, correct), a, p) {
      forall f: Field | correct.Expected(f).Some?
        ensures ParsedField(a.value, f, p).Some?
        ensures Abs(ParsedField(a.value, f, p).value - correct.Expected(f).value) <= Tolerance(f)
      {
        match f
        case PaO2Field => assert FieldPasses(a.value, correct, PaO2Field, p);
        case CaO2Field => assert FieldPasses(a.value, correct, CaO2Field, p);
        case ShuntField => assert FieldPasses(a.value, correct, ShuntField, p);
        case Do2Field => assert FieldPasses(a.value, correct, Do2Field, p);
      }
    }
  }

  /** A missing answer, or a field that does not parse, makes a calculation
      question incorrect. */
  lemma CalcMissingOrUnparsable(title: string, correct: CalcCorrect, a: Option<Answer>, p: Parsers, f: Field)
    requires a.None? || (correct.Expected(f).Some? && ParsedField(a.value, f, p).None?)
    ensures !IsCorrect(Calc(title, correct), a, p)
  {
    CalcCorrectIff(title, correct, a, p);
  }

  /** The tolerance boundary counts as correct; one step beyond it does not. */
  lemma ToleranceBoundary(a: Answer, correct: CalcCorrect, f: Field, p: Parsers, e: real, eps: real)
    requires correct.Expected(f) == Some(e) && eps > 0.0
    ensures ParsedField(a, f, p) == Some(e) ==> FieldPasses(a, correct, f, p)
    ensures ParsedField(a, f, p) == Some(e + Tolerance(f)) ==> FieldPasses(a, correct, f, p)
    ensures ParsedField(a, f, p) == Some(e - Tolerance(f)) ==> FieldPasses(a, correct, f, p)
    ensures ParsedField(a, f, p) == Some(e + Tolerance(f) + eps) ==> !FieldPasses(a, correct, f, p)
    ensures ParsedField(a, f, p) == Some(e - Tolerance(f) - eps) ==> !FieldPasses(a, correct, f, p)
  {
  }

  /** A multiple-choice question, by the shape of the answer: nothing there
      is incorrect; a typed choice is correct exactly when it is not empty and
      its integer parse is the stored index (so a non-empty choice that parses
      to another number is incorrect); a record, which reads as
      "[object Object]", is correct only if that string parses to the index. */
  lemma McCorrectIff(title: string, options: seq<string>, answer: int, s: string, m: map<string, string>,
                     p: Parsers)
    ensures !IsCorrect(Mc(title, options, answer), None, p)
    ensures IsCorrect(Mc(title, options, answer), Some(Choice(s)), p) <==> s != "" && p.parseInt(s) == Some(answer)
    ensures s != "" && p.parseInt(s).Some? && p.parseInt(s).value != answer ==>
              !IsCorrect(Mc(title, options, answer), Some(Choice(s)), p)
    ensures IsCorrect(Mc(title, options, answer), Some(Fields(m)), p) <==> p.parseInt("[object Object]") == Some(answer)
  {
  }

  // ---------------------------------------------------------------------
  // Answer and view-state updates
  // ---------------------------------------------------------------------

  /** The fields already typed in for item `i`. */
  function PreviousFields(answers: map<nat, Answer>, i: nat): map<string, string>
  {
    if i in answers && answers[i].Fields? then answers[i].fields else map[]
  }

  /** Typing `value` into field `field` of calculation question `i`. */
  function WithCalcField(answers: map<nat, Answer>, i: nat, field: string, value: string): (r: map<nat, Answer>)
    ensures r.Keys == answers.Keys + {i}
    ensures forall k :: k in answers && k != i ==> r[k] == answers[k]
    ensures r[i].Fields? && r[i].fields.Keys == PreviousFields(answers, i).Keys + {field}
    ensures r[i].fields[field] == value
    ensures forall g :: g in PreviousFields(answers, i) && g != field ==>
              r[i].fields[g] == PreviousFields(answers, i)[g]
  {
    answers[i := Fields(PreviousFields(answers, i)[field := value])]
  }

  /** Choosing option `value` of multiple-choice question `i`. */
  function WithChoice(answers: map<nat, Answer>, i: nat, value: string): (r: map<nat, Answer>)
    ensures r.Keys == answers.Keys + {i}
    ensures r[i] == Choice(value)
    ensures forall k :: k in answers && k != i ==> r[k] == answers[k]
  {
    answers[i := Choice(value)]
  }

  /** Typing the same value twice into a field leaves the answers as after
      the first time. */
  lemma CalcChangeIdempotent(answers: map<nat, Answer>, i: nat, field: string, value: string)
    ensures WithCalcField(WithCalcField(answers, i, field, value), i, field, value)
            == WithCalcField(answers, i, field, value)
  {
    var fields := PreviousFields(answers, i)[field := value];
    var once := WithCalcField(answers, i, field, value);
    assert PreviousFields(once, i) == fields;
    assert fields[field := value] == fields;
  }

  /** Flips the membership of `i`. */
  function Toggled(s: set<nat>, i: nat): (r: set<nat>)
    ensures i in r <==> i !in s
    ensures forall j :: j != i ==> (j in r <==> j in s)
  {
    if i in s then s - {i} else s + {i}
  }

  /** Toggling the same index twice restores the set. */
  lemma ToggleTwice(s: set<nat>, i: nat)
    ensures Toggled(Toggled(s, i), i) == s
  {
  }

  /** The state of the quiz view. Answers and feedback are keyed by item index. */
  class QuizState {
    var answers: map<nat, Answer>
    var feedback: map<nat, Verdict>
    var score: nat
    var showFormulas: set<nat>
    var expandedExplanations: set<nat>

    constructor ()
      ensures answers == map[] && feedback == map[] && score == 0
      ensures showFormulas == {} && expandedExplanations == {}
    {
      answers, feedback, score := map[], map[], 0;
      showFormulas, expandedExplanations := {}, {};
    }

    /** "Check all": replaces feedback and score wholesale by a grading of the
        current answers; nothing else changes. */
    method CheckAnswers(p: Parsers)
      modifies this
      ensures feedback == GradedFeedback(QuizItems, answers, p)
      ensures score == |CorrectKeys(feedback)| && score <= TotalQuestions(QuizItems)
      ensures answers == old(answers)
      ensures showFormulas == old(showFormulas) && expandedExplanations == old(expandedExplanations)
    {
      var newFeedback, currentScore := GradeAll(QuizItems, answers, p);
      score := currentScore;
      feedback := newFeedback;
    }

    method HandleCalcChange(i: nat, field: string, value: string)
      modifies this
      ensures answers == WithCalcField(old(answers), i, field, value)
      ensures feedback == old(feedback) && score == old(score)
      ensures showFormulas == old(showFormulas) && expandedExplanations == old(expandedExplanations)
    {
      answers := WithCalcField(answers, i, field, value);
    }

    method HandleMcChange(i: nat, value: string)
      modifies this
      ensures answers == WithChoice(old(answers), i, value)
      ensures feedback == old(feedback) && score == old(score)
      ensures showFormulas == old(showFormulas) && expandedExplanations == old(expandedExplanations)
    {
      answers := WithChoice(answers, i, value);
    }

    /** Shows or hides the formula panel of item `i`. */
    method ToggleFormula(i: nat)
      modifies this
      ensures showFormulas == Toggled(old(showFormulas), i)
      ensures answers == old(answers) && feedback == old(feedback) && score == old(score)
      ensures expandedExplanations == old(expandedExplanations)
    {
      var newSet := showFormulas;
      if i in newSet {
        newSet := newSet - {i};
      } else {
        newSet := newSet + {i};
      }
      showFormulas := newSet;
    }

    /** Expands or collapses the explanation of item `i`. */
    method ToggleExplanation(i: nat)
      modifies this
      ensures expandedExplanations == Toggled(old(expandedExplanations), i)
      ensures answers == old(answers) && feedback == old(feedback) && score == old(score)
      ensures showFormulas == old(showFormulas)
    {
      var newSet := expandedExplanations;
      if i in newSet {
        newSet := newSet - {i};
      } else {
        newSet := newSet + {i};
      }
      expandedExplanations := newSet;
    }
  }

  // ---------------------------------------------------------------------
  // Example values from the narrative
  // ---------------------------------------------------------------------

  /** The physiological symbols the extractor looks for. */
  datatype Symbol = FiO2 | PB | PH2O | PaCO2 | RQ | PaO2 | SaO2 | SvO2 | PvO2 | Hb | CvO2 | CcO2 | Qt | HF | SV

  /** The symbol table, one pattern per entry, in the order it is scanned. */
  const SymbolTable: seq<Symbol> := [FiO2, PB, PH2O, PaCO2, RQ, PaO2, SaO2, SvO2, PvO2, Hb, CvO2, CcO2, Qt, HF, SV]

  /** The pattern matcher: for a symbol and a text, the captured number text
      of every match of the symbol's pattern, in the order of the matches. */
  type Captures = (Symbol, string) -> seq<string>

  /** The extracted values; `None` is a NaN that the parser produced. */
  type ContextValues = map<Symbol, Option<real>>

  /** The parts in order with `sep` between neighbours, as `Array.join`. */
  function Join(parts: seq<string>, sep: string): (r: string)
    ensures parts == [] ==> r == ""
    ensures parts != [] ==> |r| >= |parts[0]| && r[..|parts[0]|] == parts[0]
    ensures |parts| > 1 ==> |r| >= |parts[0]| + |sep| && r[|parts[0]|..|parts[0]| + |sep|] == sep
  {
    if parts == [] then ""
    else if |parts| == 1 then parts[0]
    else parts[0] + sep + Join(parts[1..], sep)
  }

  /** The text of an item that is searched: the joined paragraphs of a
      narrative block, the title of a question, the question of an
      explanation. */
  function SearchText(item: QuizItem): (r: string)
    ensures item.Calc? || item.Mc? ==> r == item.title
    ensures item.Explanation? ==> r == item.question
    ensures item.CaseText? && item.content == [] ==> r == ""
    ensures item.CaseText? && item.content != [] ==>
              |r| >= |item.content[0]| && r[..|item.content[0]|] == item.content[0]
  {
    match item
    case CaseText(_, content) => Join(content, " ")
    case Calc(title, _) => title
    case Mc(title, _, _) => title
    case Explanation(question, _) => question
  }

  /** Replaces the first occurrence of `from` by `to`. */
  function ReplaceFirst(s: string, from: char, to: char): (r: string)
    ensures |r| == |s|
    ensures forall i :: 0 <= i < |s| && s[i] != from ==> r[i] == s[i]
    ensures from in s ==> to in r
  {
    if s == [] then []
    else if s[0] == from then [to] + s[1..]
    else [s[0]] + ReplaceFirst(s[1..], from, to)
  }

  /** Without an occurrence of `from`, `ReplaceFirst` changes nothing. */
  lemma {:induction false} ReplaceFirstAbsent(s: string, from: char, to: char)
    requires from !in s
    ensures ReplaceFirst(s, from, to) == s
  {
    if s != [] {
      assert from !in s[1..];
      ReplaceFirstAbsent(s[1..], from, to);
      assert s == [s[0]] + s[1..];
    }
  }

  /** `ReplaceFirst` changes the first occurrence of `from`, at `j`, and
      nothing else. */
  lemma {:induction false} ReplaceFirstAt(s: string, from: char, to: char, j: nat)
    requires j < |s| && s[j] == from && from !in s[..j]
    ensures ReplaceFirst(s, from, to) == s[..j] + [to] + s[j + 1..]
  {
    if j > 0 {
      assert s[0] == s[..j][0];
      assert s[1..][..j - 1] == s[1..j];
      assert from !in s[1..][..j - 1];
      ReplaceFirstAt(s[1..], from, to, j - 1);
      assert s[..j] == [s[0]] + s[1..][..j - 1];
      assert s[j + 1..] == s[1..][j..];
    }
  }

  /** Whether an item sets a value for the symbol: its text is not empty and
      the last match captured something. */
  predicate Hit(item: QuizItem, sym: Symbol, captures: Captures)
  {
    var text := SearchText(item);
    var found := captures(sym, text);
    text != "" && |found| > 0 && found[|found| - 1] != ""
  }

  /** The value an item sets for a symbol: the last capture with its first
      decimal comma turned into a point, parsed as a number. */
  function ExtractedValue(item: QuizItem, sym: Symbol, captures: Captures, p: Parsers): Option<real>
    requires Hit(item, sym, captures)
  {
    var found := captures(sym, SearchText(item));
    p.parseFloat(ReplaceFirst(found[|found| - 1], ',', '.'))
  }

  /** The last of the first `n` items that sets a value for the symbol. */
  function LastHitBefore(items: seq<QuizItem>, sym: Symbol, captures: Captures, n: nat): (r: Option<nat>)
    requires n <= |items|
    ensures r.Some? ==> r.value < n && Hit(items[r.value], sym, captures)
    ensures r.Some? ==> forall j :: r.value < j < n ==> !Hit(items[j], sym, captures)
    ensures r.None? <==> forall j :: 0 <= j < n ==> !Hit(items[j], sym, captures)
  {
    if n == 0 then None
    else if Hit(items[n - 1], sym, captures) then Some(n - 1)
    else LastHitBefore(items, sym, captures, n - 1)
  }

  /** Which items set which value depends on the first `n` items only. */
  lemma {:induction false} LastHitReadsPrefix(items1: seq<QuizItem>, items2: seq<QuizItem>, sym: Symbol,
                                              captures: Captures, n: nat)
    requires n <= |items1| && n <= |items2| && items1[..n] == items2[..n]
    ensures LastHitBefore(items1, sym, captures, n) == LastHitBefore(items2, sym, captures, n)
  {
    if n > 0 {
      assert items1[n - 1] == items1[..n][n - 1] == items2[n - 1];
      assert items1[..n - 1] == items1[..n][..n - 1];
      assert items2[..n - 1] == items2[..n][..n - 1];
      LastHitReadsPrefix(items1, items2, sym, captures, n - 1);
    }
  }

  /** `values` holds, for `sym`, exactly what the last of the first `n` items
      that mentions it sets. */
  ghost predicate Reflects(values: ContextValues, items: seq<QuizItem>, sym: Symbol,
                           captures: Captures, p: Parsers, n: nat)
    requires n <= |items|
  {
    match LastHitBefore(items, sym, captures, n)
    case None => sym !in values
    case Some(j) => sym in values && values[sym] == ExtractedValue(items[j], sym, captures, p)
  }

  /** The position of each symbol in the table: every symbol has an entry. */
  function SymbolIndex(sym: Symbol): (k: nat)
    ensures k < |SymbolTable| && SymbolTable[k] == sym
  {
    match sym
    case FiO2 => 0 case PB => 1 case PH2O => 2 case PaCO2 => 3 case RQ => 4
    case PaO2 => 5 case SaO2 => 6 case SvO2 => 7 case PvO2 => 8 case Hb => 9
    case CvO2 => 10 case CcO2 => 11 case Qt => 12 case HF => 13 case SV => 14
  }

  /** No symbol appears twice in the table. */
  lemma SymbolIndexOfEntry(t: nat)
    requires t < |SymbolTable|
    ensures SymbolIndex(SymbolTable[t]) == t
  {
  }

  /** An item that does not mention a symbol leaves what is known about it. */
  lemma ReflectsAcrossMiss(values: ContextValues, items: seq<QuizItem>, sym: Symbol,
                           captures: Captures, p: Parsers, i: nat)
    requires i < |items| && !Hit(items[i], sym, captures)
    ensures Reflects(values, items, sym, captures, p, i + 1) == Reflects(values, items, sym, captures, p, i)
  {
  }

  /** Overwriting one symbol's entry leaves what is known about the others. */
  lemma ReflectsOtherKey(values: ContextValues, items: seq<QuizItem>, sym: Symbol, key: Symbol, v: Option<real>,
                         captures: Captures, p: Parsers, n: nat)
    requires n <= |items| && sym != key
    ensures Reflects(values[key := v], items, sym, captures, p, n) == Reflects(values, items, sym, captures, p, n)
  {
  }

  /** Scans the items up to and including `currentIndex` and collects, per
      symbol, the value of its last mention: a later item overwrites an
      earlier one, and within an item the last match wins. */
  method GetContextValues(items: seq<QuizItem>, currentIndex: nat, captures: Captures, p: Parsers)
    returns (values: ContextValues)
    requires currentIndex < |items|
    ensures forall sym :: sym in values <==> LastHitBefore(items, sym, captures, currentIndex + 1).Some?
    ensures forall sym :: sym in values ==>
              values[sym] == ExtractedValue(items[LastHitBefore(items, sym, captures, currentIndex + 1).value], sym, captures, p)
  {
    values := map[];
    var i := 0;
    while i <= currentIndex
      invariant i <= currentIndex + 1
      invariant forall sym :: Reflects(values, items, sym, captures, p, i)
    {
      var item := items[i];
      ghost var next := i + 1;
      var textToSearch := SearchText(item);
      if textToSearch != "" {
        var t := 0;
        while t < |SymbolTable|
          invariant t <= |SymbolTable|
          invariant forall sym :: SymbolIndex(sym) < t ==> Reflects(values, items, sym, captures, p, next)
          invariant forall sym :: SymbolIndex(sym) >= t ==> Reflects(values, items, sym, captures, p, i)
        {
          var key := SymbolTable[t];
          SymbolIndexOfEntry(t);
          var matches := captures(key, textToSearch);
          if |matches| > 0 && matches[|matches| - 1] != "" {
            var lastMatch := matches[|matches| - 1];
            ghost var before := values;
            values := values[key := p.parseFloat(ReplaceFirst(lastMatch, ',', '.'))];
            assert Hit(item, key, captures);
            forall sym | sym != key
              ensures Reflects(values, items, sym, captures, p, next) == Reflects(before, items, sym, captures, p, next)
              ensures Reflects(values, items, sym, captures, p, i) == Reflects(before, items, sym, captures, p, i)
            {
              ReflectsOtherKey(before, items, sym, key, values[key], captures, p, i + 1);
              ReflectsOtherKey(before, items, sym, key, values[key], captures, p, i);
            }
          } else {
            ReflectsAcrossMiss(values, items, key, captures, p, i);
          }
          t := t + 1;
        }
      } else {
        forall sym
          ensures Reflects(values, items, sym, captures, p, next)
        {
          ReflectsAcrossMiss(values, items, sym, captures, p, i);
        }
      }
      i := i + 1;
    }
    forall sym
      ensures sym in values <==> LastHitBefore(items, sym, captures, currentIndex + 1).Some?
      ensures sym in values ==>
                values[sym] == ExtractedValue(items[LastHitBefore(items, sym, captures, currentIndex + 1).value], sym, captures, p)
    {
      assert Reflects(values, items, sym, captures, p, currentIndex + 1);
    }
  }

  // ---------------------------------------------------------------------
  // Formulas and the shunt look-back
  // ---------------------------------------------------------------------

  /** Alveolar gas equation: PAO₂ = (PB − PH₂O) · FiO₂ − PaCO₂ / RQ. */
  function AlveolarPO2(pb: real, ph2o: real, fio2: real, paco2: real, rq: real): (r: real)
    requires rq != 0.0
    ensures rq > 0.0 && paco2 >= 0.0 ==> r <= (pb - ph2o) * fio2
    ensures paco2 == 0.0 ==> r == (pb - ph2o) * fio2
  {
    (pb - ph2o) * fio2 - paco2 / rq
  }

  /** Oxygen content: Hb · 1.34 · saturation + partial pressure · 0.003. */
  function O2Content(hb: real, sat: real, po2: real): (r: real)
    ensures hb >= 0.0 && sat >= 0.0 && po2 >= 0.0 ==> r >= 0.0
    ensures hb == 0.0 ==> r == po2 * 0.003
    ensures sat == 0.0 ==> r == po2 * 0.003
  {
    hb * 1.34 * sat + po2 * 0.003
  }

  /** Shunt fraction in percent: (Cc'O₂ − CaO₂) / (Cc'O₂ − CvO₂) · 100. */
  function ShuntFraction(cc: real, ca: real, cv: real): (r: real)
    requires cc != cv
    ensures ca == cc ==> r == 0.0
    ensures ca == cv ==> r == 100.0
    ensures cv < ca < cc ==> 0.0 < r < 100.0
  {
    FractionBounds(cc - ca, cc - cv);
    (cc - ca) / (cc - cv) * 100.0
  }

  /** A quotient of a part by a whole. */
  lemma FractionBounds(x: real, d: real)
    requires d != 0.0
    ensures x == d ==> x / d == 1.0
    ensures 0.0 < x < d ==> 0.0 < x / d < 1.0
  {
    if 0.0 < x < d {
      assert x / d * d == x;
    }
  }

  /** Oxygen delivery from heart rate, stroke volume in millilitres and CaO₂. */
  function O2Delivery(hf: real, svMl: real, cao2: real): (r: real)
    ensures hf >= 0.0 && svMl >= 0.0 && cao2 >= 0.0 ==> r >= 0.0
    ensures hf == 0.0 || svMl == 0.0 || cao2 == 0.0 ==> r == 0.0
  {
    hf * (svMl / 1000.0) * cao2 * 10.0
  }

  /** The oxygen content rises with haemoglobin, with saturation and with
      partial pressure, each with the other two held fixed (for non-negative
      inputs). */
  lemma O2ContentMonotone(hb: real, hb': real, sat: real, sat': real, po2: real, po2': real)
    requires 0.0 <= hb <= hb' && 0.0 <= sat <= sat' && po2 <= po2'
    ensures O2Content(hb, sat, po2) <= O2Content(hb', sat, po2)
    ensures O2Content(hb, sat, po2) <= O2Content(hb, sat', po2)
    ensures O2Content(hb, sat, po2) <= O2Content(hb, sat, po2')
  {
    assert hb * sat <= hb' * sat;
    assert hb * sat <= hb * sat';
  }

  predicate HasCaO2(item: QuizItem)
  {
    item.Calc? && item.correct.cao2.Some?
  }

  /** The expected CaO₂ of the nearest calculation question before `index`
      that asks for one. */
  function NearestCaO2Before(items: seq<QuizItem>, index: nat): (r: Option<real>)
    requires index <= |items|
    ensures r.None? <==> forall j :: 0 <= j < index ==> !HasCaO2(items[j])
    ensures r.Some? ==> exists j :: 0 <= j < index && HasCaO2(items[j]) && items[j].correct.cao2 == r
                                    && forall k :: j < k < index ==> !HasCaO2(items[k])
  {
    if index == 0 then None
    else if HasCaO2(items[index - 1]) then items[index - 1].correct.cao2
    else NearestCaO2Before(items, index - 1)
  }

  /** The backward search of the shunt formula example: walks from the item
      before `index` towards the start and stops at the first calculation
      question with an expected CaO₂. */
  method FindShuntCaO2(items: seq<QuizItem>, index: nat) returns (cao2: Option<real>)
    requires index <= |items|
    ensures cao2 == NearestCaO2Before(items, index)
    ensures cao2.None? <==> forall j :: 0 <= j < index ==> !HasCaO2(items[j])
  {
    cao2 := None;
    var i: nat := index;
    while i > 0
      invariant i <= index
      invariant cao2.None?
      invariant NearestCaO2Before(items, index) == NearestCaO2Before(items, i)
    {
      var prevItem := items[i - 1];
      if prevItem.Calc? && prevItem.correct.cao2.Some? {
        cao2 := prevItem.correct.cao2;
        return;
      }
      i := i - 1;
    }
  }

  /** CaO₂ recomputed from the extracted Hb, SaO₂ and PaO₂; a value that is
      missing or NaN makes the result NaN. */
  function ContextCaO2(values: ContextValues): (r: Option<real>)
    ensures Hb !in values || values[Hb].None? ==> r.None?
    ensures SaO2 !in values || values[SaO2].None? ==> r.None?
    ensures PaO2 !in values || values[PaO2].None? ==> r.None?
    ensures r.Some? ==> r.value == O2Content(values[Hb].value, values[SaO2].value, values[PaO2].value)
  {
    if Hb in values && SaO2 in values && PaO2 in values
       && values[Hb].Some? && values[SaO2].Some? && values[PaO2].Some?
    then Some(O2Content(values[Hb].value, values[SaO2].value, values[PaO2].value))
    else None
  }

  /** The CaO₂ a shunt question's example uses: the look-back's value, or the
      one recomputed from context when no earlier question has one. */
  function ShuntCaO2(items: seq<QuizItem>, index: nat, values: ContextValues): (r: Option<real>)
    requires index <= |items|
    ensures (exists j :: 0 <= j < index && HasCaO2(items[j])) ==> r.Some? && r == NearestCaO2Before(items, index)
    ensures (forall j :: 0 <= j < index ==> !HasCaO2(items[j])) ==> r == ContextCaO2(values)
  {
    match NearestCaO2Before(items, index)
    case Some(v) => Some(v)
    case None => ContextCaO2(values)
  }

  /** When an earlier question asks for CaO₂, the shunt example uses the
      expected answer of the nearest such question, whatever the context
      holds; only without one does it fall back to the context. */
  lemma ShuntPrefersPrecedingCaO2(items: seq<QuizItem>, index: nat, values: ContextValues, j: nat)
    requires j < index <= |items| && HasCaO2(items[j])
    requires forall k :: j < k < index ==> !HasCaO2(items[k])
    ensures ShuntCaO2(items, index, values) == items[j].correct.cao2
  {
    var r := NearestCaO2Before(items, index);
    var j' :| 0 <= j' < index && HasCaO2(items[j']) && items[j'].correct.cao2 == r
              && forall k :: j' < k < index ==> !HasCaO2(items[k]);
    assert j' == j;
  }

  // ---------------------------------------------------------------------
  // Case title to flowchart phase
  // ---------------------------------------------------------------------

  /** Lower-cases the ASCII letters of `s`. */
  function ToLowerAscii(s: string): (r: string)
    ensures |r| == |s|
    ensures forall i :: 0 <= i < |s| ==> r[i] == (if 'A' <= s[i] <= 'Z' then (s[i] as int + 32) as char else s[i])
  {
    if s == [] then []
    else [if 'A' <= s[0] <= 'Z' then (s[0] as int + 32) as char else s[0]] + ToLowerAscii(s[1..])
  }

  predicate OccursAt(s: string, sub: string, i: nat)
  {
    i + |sub| <= |s| && s[i..i + |sub|] == sub
  }

  predicate Contains(s: string, sub: string)
  {
    exists i: nat | i <= |s| :: OccursAt(s, sub, i)
  }

  /** The phase a case block's "visualise" button opens: the first of
      "phase 1", "phase 2", "phase 3", "intervention", "phase 5", "phase 6"
      found in the lower-cased title decides; without any, the normal phase. */
  function TitlePhase(title: string): (r: O2Balance.Phase)
    ensures r != O2Balance.Normal ==>
              exists k :: 1 <= k < |PhaseKeys| && PhaseKeys[k].1 == r && Contains(ToLowerAscii(title), PhaseKeys[k].0)
    ensures Contains(ToLowerAscii(title), "phase 1") ==> r == O2Balance.Normal
  {
    var t := ToLowerAscii(title);
    if Contains(t, "phase 1") then O2Balance.Normal
    else if Contains(t, "phase 2") then assert PhaseKeys[1] == ("phase 2", O2Balance.Ards); O2Balance.Ards
    else if Contains(t, "phase 3") then assert PhaseKeys[2] == ("phase 3", O2Balance.Shock); O2Balance.Shock
    else if Contains(t, "intervention") then
      assert PhaseKeys[3] == ("intervention", O2Balance.Intervention); O2Balance.Intervention
    else if Contains(t, "phase 5") then assert PhaseKeys[4] == ("phase 5", O2Balance.Acidosis); O2Balance.Acidosis
    else if Contains(t, "phase 6") then assert PhaseKeys[5] == ("phase 6", O2Balance.Ecmo); O2Balance.Ecmo
    else O2Balance.Normal
  }

  /** The keys checked in order, each with the phase it selects. */
  const PhaseKeys: seq<(string, O2Balance.Phase)> := [
    ("phase 1", O2Balance.Normal), ("phase 2", O2Balance.Ards), ("phase 3", O2Balance.Shock),
    ("intervention", O2Balance.Intervention), ("phase 5", O2Balance.Acidosis), ("phase 6", O2Balance.Ecmo)]

  /** First match wins: if the title contains the k-th key and none before
      it, the k-th phase is chosen; if it contains none, the normal phase. */
  lemma TitlePhaseFirstMatch(title: string, k: nat)
    requires k < |PhaseKeys|
    ensures Contains(ToLowerAscii(title), PhaseKeys[k].0)
            && (forall m :: 0 <= m < k ==> !Contains(ToLowerAscii(title), PhaseKeys[m].0))
            ==> TitlePhase(title) == PhaseKeys[k].1
    ensures (forall m :: 0 <= m < |PhaseKeys| ==> !Contains(ToLowerAscii(title), PhaseKeys[m].0))
            ==> TitlePhase(title) == O2Balance.Normal
  {
    var t := ToLowerAscii(title);
    if forall m :: 0 <= m < |PhaseKeys| ==> !Contains(t, PhaseKeys[m].0) {
      assert !Contains(t, PhaseKeys[0].0) && !Contains(t, PhaseKeys[1].0) && !Contains(t, PhaseKeys[2].0);
      assert !Contains(t, PhaseKeys[3].0) && !Contains(t, PhaseKeys[4].0) && !Contains(t, PhaseKeys[5].0);
    }
    if Contains(t, PhaseKeys[k].0) && forall m :: 0 <= m < k ==> !Contains(t, PhaseKeys[m].0) {
      if k >= 1 { assert !Contains(t, PhaseKeys[0].0); }
      if k >= 2 { assert !Contains(t, PhaseKeys[1].0); }
      if k >= 3 { assert !Contains(t, PhaseKeys[2].0); }
      if k >= 4 { assert !Contains(t, PhaseKeys[3].0); }
      if k >= 5 { assert !Contains(t, PhaseKeys[4].0); }
    }
  }

  // ---------------------------------------------------------------------
  // Questions asking for a single field
  // ---------------------------------------------------------------------

  /** The expected values of a question asking for field `f` only. */
  function OnlyField(f: Field, e: real): CalcCorrect
  {
    match f
    case PaO2Field => CalcCorrect(Some(e), None, None, None)
    case CaO2Field => CalcCorrect(None, Some(e), None, None)
    case ShuntField => CalcCorrect(None, None, Some(e), None)
    case Do2Field => CalcCorrect(None, None, None, Some(e))
  }

  /** A question asking for one field accepts a record holding just that
      field, when it parses within tolerance. */
  lemma CalcAcceptsOneField(title: string, f: Field, e: real, v: real, s: string, p: Parsers)
    requires p.parseFloat(s) == Some(v) && Abs(v - e) <= Tolerance(f)
    ensures IsCorrect(Calc(title, OnlyField(f, e)), Some(Fields(map[FieldKey(f) := s])), p)
  {
    var a := Fields(map[FieldKey(f) := s]);
    assert ParsedField(a, f, p) == Some(v);
  }
}

/** Facts about the fixed quiz items: their expected answers agree with the
    formulas of the example calculations, within the grading tolerances, and
    the shunt questions find the CaO₂ question they build on. */
module QuizFacts {
  import opened Wrappers
  import opened QuizData
  import opened Quiz

  /** With the values of the first phase (PB 760, PH₂O 47, FiO₂ 0.21,
      PaCO₂ 40, RQ 0.8), the alveolar gas equation gives an answer that is
      graded correct for the first question. */
  lemma FixtureAlveolarAgrees(s: string, p: Parsers)
    requires p.parseFloat(s) == Some(AlveolarPO2(760.0, 47.0, 0.21, 40.0, 0.8))
    ensures IsCorrect(QuizItems[1], Some(Fields(map["pao2" := s])), p)
  {
    FirstPhaseQuestions();
    assert Item1 == Calc(Item1.title, OnlyField(PaO2Field, 100.0));
    CalcAcceptsOneField(Item1.title, PaO2Field, 100.0, AlveolarPO2(760.0, 47.0, 0.21, 40.0, 0.8), s, p);
  }

  /** With Hb 15, SaO₂ 0.991 and PaO₂ 95, the O₂ content equation gives an
      answer that is graded correct for the second question. */
  lemma FixtureContentAgrees(s: string, p: Parsers)
    requires p.parseFloat(s) == Some(O2Content(15.0, 0.991, 95.0))
    ensures IsCorrect(QuizItems[2], Some(Fields(map["cao2" := s])), p)
  {
    FirstPhaseQuestions();
    assert Item2 == Calc(Item2.title, OnlyField(CaO2Field, 20.21));
    CalcAcceptsOneField(Item2.title, CaO2Field, 20.21, O2Content(15.0, 0.991, 95.0), s, p);
  }

  /** With Cc'O₂ 20.41, CvO₂ 15.2 and the CaO₂ the look-back finds, the shunt
      equation gives an answer that is graded correct for the third question. */
  lemma FixtureShuntAgrees(s: string, p: Parsers)
    requires p.parseFloat(s) == Some(ShuntFraction(20.41, 20.21, 15.2))
    ensures IsCorrect(QuizItems[3], Some(Fields(map["shunt" := s])), p)
  {
    FirstPhaseQuestions();
    assert Item3 == Calc(Item3.title, OnlyField(ShuntField, 3.8));
    assert ShuntFraction(20.41, 20.21, 15.2) == 20.0 / 5.21;
    CalcAcceptsOneField(Item3.title, ShuntField, 3.8, ShuntFraction(20.41, 20.21, 15.2), s, p);
  }

  /** In the second phase (FiO₂ 0.4, PaCO₂ 45) the alveolar gas equation
      lands within the tolerance of question 4. */
  lemma FixtureSecondAlveolarAgrees()
    ensures QuizItems[5].Calc? && QuizItems[5].correct.pao2.Some?
    ensures Abs(AlveolarPO2(760.0, 47.0, 0.4, 45.0, 0.8) - QuizItems[5].correct.pao2.value) <= Tolerance(PaO2Field)
  {
    SecondPhaseQuestions();
  }

  /** With Hb 14.5, SaO₂ 0.88 and PaO₂ 60 the O₂ content equation lands within
      the tolerance of question 5. */
  lemma FixtureSecondContentAgrees()
    ensures QuizItems[6].Calc? && QuizItems[6].correct.cao2.Some?
    ensures Abs(O2Content(14.5, 0.88, 60.0) - QuizItems[6].correct.cao2.value) <= Tolerance(CaO2Field)
  {
    SecondPhaseQuestions();
  }

  /** With Cc'O₂ 20.4, CvO₂ 12.7 and the CaO₂ of question 5, the shunt
      equation lands within the tolerance of question 6. */
  lemma FixtureSecondShuntAgrees()
    ensures QuizItems[6].Calc? && QuizItems[6].correct.cao2.Some?
    ensures QuizItems[7].Calc? && QuizItems[7].correct.shunt.Some?
    ensures Abs(ShuntFraction(20.4, QuizItems[6].correct.cao2.value, 12.7) - QuizItems[7].correct.shunt.value)
            <= Tolerance(ShuntField)
  {
    SecondPhaseQuestions();
    assert ShuntFraction(20.4, 17.3, 12.7) == 310.0 / 7.7;
  }

  /** After the intervention (HF 90, stroke volume 61 ml, Hb 9.5, SaO₂ 0.95,
      PaO₂ 90) the O₂ delivery equation lands within the tolerance of the
      DO₂ question. */
  lemma FixtureDeliveryAgrees()
    ensures QuizItems[25].Calc? && QuizItems[25].correct.do2.Some?
    ensures Abs(O2Delivery(90.0, 61.0, O2Content(9.5, 0.95, 90.0)) - QuizItems[25].correct.do2.value)
            <= Tolerance(Do2Field)
  {
    DeliveryQuestion();
  }

  /** Each shunt question builds on the CaO₂ question just before it. */
  lemma FixtureShuntLookBack()
    ensures NearestCaO2Before(QuizItems, 3) == Some(20.21)
    ensures NearestCaO2Before(QuizItems, 7) == Some(17.3)
  {
    FirstPhaseQuestions();
    SecondPhaseQuestions();
    assert HasCaO2(Item2) && HasCaO2(Item6);
  }
}

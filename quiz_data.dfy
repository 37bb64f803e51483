/** The static content of the case-based quiz: the item kinds, the helper that
    turns ASCII digits into subscript digits, and the fixed list of items. */
module QuizData {
  import opened Wrappers

  // ---------------------------------------------------------------------
  // Item kinds
  // ---------------------------------------------------------------------

  /** The four answer fields a calculation question can ask for. */
  datatype Field = PaO2Field | CaO2Field | ShuntField | Do2Field

  /** The property name under which a field is stored in an answer record. */
  function FieldKey(f: Field): string
  {
    match f
    case PaO2Field => "pao2"
    case CaO2Field => "cao2"
    case ShuntField => "shunt"
    case Do2Field => "do2"
  }

  /** The expected values of a calculation question; an absent value is a field
      the question does not ask for. */
  datatype CalcCorrect = CalcCorrect(pao2: Option<real>, cao2: Option<real>, shunt: Option<real>, do2: Option<real>)
  {
    function Expected(f: Field): Option<real>
    {
      match f
      case PaO2Field => pao2
      case CaO2Field => cao2
      case ShuntField => shunt
      case Do2Field => do2
    }

    /** How many of the four fields the question asks for. */
    function DefinedCount(): nat
    {
      (if pao2.Some? then 1 else 0) + (if cao2.Some? then 1 else 0)
      + (if shunt.Some? then 1 else 0) + (if do2.Some? then 1 else 0)
    }
  }

  /** A quiz item: a calculation question, a multiple-choice question, a
      narrative block of a case phase, or a question with its explanation. */
  datatype QuizItem =
    | Calc(title: string, correct: CalcCorrect)
    | Mc(title: string, options: seq<string>, answer: int)
    | CaseText(title: string, content: seq<string>)
    | Explanation(question: string, answerLines: seq<string>)

  // ---------------------------------------------------------------------
  // Subscript digits
  // ---------------------------------------------------------------------

  predicate IsAsciiDigit(c: char)
  {
    '0' <= c <= '9'
  }

  /** The lookup table from ASCII digits to Unicode subscript digits. */
  const Subs: map<char, char> := map[
    '0' := '₀', '1' := '₁', '2' := '₂', '3' := '₃', '4' := '₄', '5' := '₅', '6' := '₆',
    '7' := '₇', '8' := '₈', '9' := '₉']

  /** The replacement applied to one character: a digit is looked up in the
      table (falling back to itself), anything else is not matched at all. */
  function ChemChar(c: char): char
  {
    if IsAsciiDigit(c) then (if c in Subs then Subs[c] else c) else c
  }

  /** Replaces every ASCII digit of `s` by the matching subscript digit. */
  function Chem(s: string): (r: string)
    ensures |r| == |s|
    ensures forall i :: 0 <= i < |s| ==> r[i] == ChemChar(s[i])
  {
    if s == [] then [] else [ChemChar(s[0])] + Chem(s[1..])
  }

  /** Each digit d becomes the subscript digit at code point U+2080 + d. */
  lemma ChemMapsDigits(s: string, i: nat)
    requires i < |s| && IsAsciiDigit(s[i])
    ensures Chem(s)[i] as int == 0x2080 + (s[i] as int - '0' as int)
  {
    SubscriptOfDigit(s[i]);
  }

  /** The table sends each ASCII digit d to code point U+2080 + d. */
  lemma SubscriptOfDigit(c: char)
    requires IsAsciiDigit(c)
    ensures ChemChar(c) as int == 0x2080 + (c as int - '0' as int)
  {
  }

  /** Characters that are not ASCII digits are left alone. */
  lemma ChemKeepsNonDigits(s: string, i: nat)
    requires i < |s| && !IsAsciiDigit(s[i])
    ensures Chem(s)[i] == s[i]
  {
  }

  /** The output of `Chem` holds no ASCII digit. */
  lemma ChemHasNoAsciiDigits(s: string)
    ensures forall i :: 0 <= i < |Chem(s)| ==> !IsAsciiDigit(Chem(s)[i])
  {
    forall i | 0 <= i < |s|
      ensures !IsAsciiDigit(Chem(s)[i])
    {
      if IsAsciiDigit(s[i]) {
        ChemMapsDigits(s, i);
      }
    }
  }

  /** Applying `Chem` a second time changes nothing. */
  lemma ChemIdempotent(s: string)
    ensures Chem(Chem(s)) == Chem(s)
  {
    ChemHasNoAsciiDigits(s);
    var t := Chem(s);
    forall i | 0 <= i < |t|
      ensures Chem(t)[i] == t[i]
    {
      ChemKeepsNonDigits(t, i);
    }
  }

  // ---------------------------------------------------------------------
  // The quiz items, in display order
  // ---------------------------------------------------------------------

  const QuizItems: seq<QuizItem> :=
    FirstPhaseItems + SecondPhaseItems + ThirdPhaseItems + InterventionItems
    + FourthPhaseItems + FifthPhaseItems + SixthPhaseItems

  /** The items of each case block, each opened by its case text. */
  const FirstPhaseItems: seq<QuizItem> := [Item0, Item1, Item2, Item3]
  const SecondPhaseItems: seq<QuizItem> :=
    [Item4, Item5, Item6, Item7, Item8, Item9, Item10, Item11, Item12, Item13, Item14]
  const ThirdPhaseItems: seq<QuizItem> := [Item15, Item16, Item17, Item18, Item19, Item20, Item21]
  const InterventionItems: seq<QuizItem> := [Item22, Item23]
  const FourthPhaseItems: seq<QuizItem> := [Item24, Item25]
  const FifthPhaseItems: seq<QuizItem> := [Item26, Item27]
  const SixthPhaseItems: seq<QuizItem> := [Item28, Item29]

  const Item0: QuizItem :=
    CaseText(
      "Phase 1: Ausgangssituation nach Trauma",
      [
        "Ein 32-jähriger Patient wird nach einem Verkehrsunfall auf die Intensivstation aufgenommen. Er hat eine unkomplizierte Femurfraktur und multiple Prellmarken, ist hämodynamisch stabil und spontan atmend. Zum Zeitpunkt der Aufnahme bestehen keine Zeichen einer respiratorischen Insuffizienz.",
        "Er wird über eine Nasenbrille mit Raumluft beobachtet. Die initiale arterielle Blutgasanalyse zeigt einen normwertigen pH, eine normale Sauerstoffsättigung und ein unauffälliges PaO₂. Auch das Hämoglobin liegt mit 15 g/dL im Referenzbereich, die venösen Blutgaswerte entsprechen einer regelrechten Sauerstoffextraktion. Klinisch ist der Patient wach, orientiert, und zeigt eine normale Atemarbeit.",
        "In dieser frühen Phase des Aufenthaltes werden die Sauerstofftransportparameter bestimmt, um eine Ausgangsbasis für das weiteres Monitoring zu schaffen. Annahmen: FiO₂ = 0.21, PaCO₂ = 40 mmHg, PaO₂ = 95 mmHg, SaO₂ = 0.991, SvO₂ = 0.75, PvO₂ = 40 mmHg, Hb = 15 g/dL, PB = 760 mmHg, PH₂O = 47 mmHg, RQ = 0.8."
      ])

  const Item1: QuizItem :=
    Calc(
      "Frage 1: Berechnen Sie den alveolären O₂-Partialdruck (PAO₂) aus den vorliegenden Werten.",
      CalcCorrect(Some(100.0), None, None, None))

  const Item2: QuizItem :=
    Calc(
      "Frage 2: Berechnen Sie den arteriellen O₂-Gehalt (CaO₂) auf Grundlage des gemessenen Hb, der arteriellen Sättigung und des PaO₂.",
      CalcCorrect(None, Some(20.21), None, None))

  const Item3: QuizItem :=
    Calc(
      "Frage 3: Berechnen Sie die Shuntfraktion (Qs/Qt), indem Sie den arteriellen O₂-Gehalt mit dem endkapillären (Cc’O₂ = 20.41) und venösen O₂-Gehalt (CvO₂ = 15.2) vergleichen.",
      CalcCorrect(None, None, Some(3.8), None))

  const Item4: QuizItem :=
    CaseText(
      "Phase 2: ARDS-Entwicklung",
      [
        "Am zweiten Tag auf der Intensivstation verschlechtert sich der Zustand des Patienten. Er zeigt eine zunehmende Dyspnoe, die Atemfrequenz liegt bei 28/min, und er benötigt nun eine Sauerstoffgabe über eine Gesichtsmaske mit FiO₂ = 0,40. In der Auskultation sind feinblasige Rasselgeräusche basal beidseits hörbar. Das Thoraxröntgen zeigt neu aufgetretene, beidseitige Infiltrate, vereinbar mit einem beginnenden ARDS.",
        "Die arterielle Blutgasanalyse ergibt: PaO₂ = 60 mmHg, PaCO₂ = 45 mmHg, pH 7,35. Das Hämoglobin liegt stabil bei 14,5 g/dL. Die arterielle O₂-Sättigung (SaO₂) beträgt 0,88. Eine zentrale Blutgasanalyse (ScvO₂) ergibt eine venöse Sättigung von 0,65 mit einem PvO₂ von 40 mmHg."
      ])

  const Item5: QuizItem :=
    Calc(
      "Frage 4: Berechnen Sie den alveolären O₂-Partialdruck (PAO₂) unter den aktuellen Bedingungen (FiO₂=0.4, PaCO₂=45).",
      CalcCorrect(Some(229.0), None, None, None))

  const Item6: QuizItem :=
    Calc(
      "Frage 5: Berechnen Sie den arteriellen O₂-Gehalt (CaO₂) mit den aktuellen Werten (Hb=14.5, SaO₂=0.88, PaO₂=60).",
      CalcCorrect(None, Some(17.3), None, None))

  const Item7: QuizItem :=
    Calc(
      "Frage 6: Berechnen Sie die Shuntfraktion (Qs/Qt) aus dem arteriellen O₂-Gehalt und den gegebenen Werten für Cc’O₂ (20.4) und CvO₂ (12.7).",
      CalcCorrect(None, None, Some(41.0), None))

  const Item8: QuizItem :=
    Explanation(
      "Frage 1: In Phase 2 wurde als erste Maßnahme eine Erhöhung des Frischgasflusses auf 40% vorgenommen. Der alveoläre Partialdruck ist zwar entsprechend dem Ergebnis in Frage 4 gestiegen, der arterielle O₂ Gehalt ist aber sogar gesunken. Wie lässt sich dies erklären?",
      [
        "Eine Erhöhung des PAO₂ hat kaum einen Einfluss in die Shunfraktion. Da das endkapilläre O₂ (CcO₂) durch PAO₂ definiert wird und sowohl im Zähler als auch Nenner des Bruchs steht, verändert sich die Shuntgröße durch diese Variable nicht.",
        "Was die Formel der Shunt Berechnung nicht direkt darstellt, ist der Anteil von Alveolen die durch das ARDS vollständig belüftet werden. Dies stellt sich nur indirekt in den Werten von PaO₂ und SaO₂ dar. Diese werden nicht berechnet, sondern können per BGA bzw. Monitoring entnommen werden und sind daher im Fallbeispiel bereits gegeben. Dabei wird der Shunt insbesondere durch das SaO₂ definiert. Dies zeigt sich anhand der beiden Formeln:",
        "CaO₂ = (Hb · 1,34 · SaO₂) + (0,003 · PaO₂)",
        "CvO₂ = (Hb · 1,34 · SvO₂) + (0,003 · PvO₂)",
        "Hier ist der Einfluss des PaO₂ über den 0,003·PaO₂-Term minimal. Entscheidend sind vor allem SaO₂ und SvO₂, also die Sättigungen.",
        "Zu Bedenken ist hier der sigmoidaler Verlauf der Sauerstoffbindungskurve, der uns sagt, dass ein krtischer PaO₂ Abfall sich erst relativ spät in der O₂ Sättigung darstellt, dafür dann aber umso schneller sinkt.",
        "Das heißt ein Abfall des paO₂ von 700 mmHg auf 71mmHg bewirkt nur einen Abfall des SaO₂ von 100% auf 94%. Ein Abfall dagegen des PaO₂ von 60mmHg auf nur 45 mmHg bewirkt eine Erniedrigung des SaO₂ von 91% auf 80%."
      ])

  const Item9: QuizItem :=
    Explanation(
      "Frage 2: Welche physiologische Größe stellt das PAO₂ dar, das du mit der alveolären Gasgleichung berechnest? Wie kann man es in Bezug auf den arteriellen PaO₂ interpretieren?",
      [
        "PAO₂ ist der alveoläre O₂-Partialdruck und stellt das theoretisch maximal erreichbare PaO₂ dar. Der Unterschied zwischen PAO₂ und PaO₂ ist der alveolo-arterielle O₂-Gradient (A–a-Gradient), der Shunt, V/Q-Mismatch oder Diffusionsstörungen abbildet."
      ])

  const Item10: QuizItem :=
    Explanation(
      "Frage 3: Warum führt eine Erhöhung von FiO₂ bei einem Patienten mit ARDS zunächst durchaus zu einem Anstieg von PaO₂ – aber nur in bestimmten Lungenarealen?",
      [
        "In teilventilierten Arealen: mehr O₂ diffundiert → Hb-Sättigung steigt → PaO₂ steigt.",
        "In gut ventilierten Arealen: Hb bereits gesättigt → kein zusätzlicher Effekt.",
        "In Shuntarealen (nicht ventilliert): kein Kontakt zu O₂ → FiO₂-Erhöhung bringt nichts."
      ])

  const Item11: QuizItem :=
    Explanation(
      "Frage 4: Was sagt es dir, wenn eine FiO₂-Erhöhung keine weitere Verbesserung des PaO₂ bewirkt? Welche pathophysiologische Situation liegt dann vor?",
      [
        "Es liegt ein echter Shunt vor: ein Teil des Blutes fließt ohne Kontakt zu O₂ an den Alveolen vorbei und mischt sich venös ins arterielle Blut. Dadurch bleibt PaO₂ niedrig, egal wie hoch PAO₂ ist.",
        "<br>",
        "<strong>Zusatzkontext: Die klinische Wirkung der FiO₂-Erhöhung</strong>",
        "Die Relevanz von PAO₂ erklären wir nicht über den Shuntwert, sondern über die Balance zwischen endkapillärer Sättigung und gemischtem arteriellem Blut.",
        "➡️ Heißt:",
        "• Der Shuntwert bleibt rein mathematisch relativ unbeeindruckt, wenn man nur PAO₂ ändert.",
        "• Aber klinisch entscheidend ist, wie sich die O₂-Sättigung im endkapillären Blut durch PAO₂-Erhöhung verbessert und wie dieses mit nicht oxygeniertem Blut vermischt wird.",
        "• Das Mischungsverhältnis (Balance) bestimmt letztlich den PaO₂, den wir messen und für den Patienten beurteilen.",
        "👉 Man sieht sehr schön:",
        "• PAO₂ steigt stark (100 → 230 mmHg).",
        "• PaO₂ steigt (60 → 90 mmHg), also klinisch relevant!",
        "• CaO₂ steigt mit, weil SaO₂ deutlich besser wird.",
        "• Shuntfraktion (Qs/Qt) sinkt scheinbar (40,9 → 18,3 %), was in der Realität widerspiegelt, dass mehr Blut durch „rekrutierte“ Areale oxygeniert wird.",
        "Das zeigt: Auch wenn sich CcO₂ in der Formel sowohl im Zähler als auch Nenner wiederfindet, wirkt die FiO₂-Erhöhung klinisch auf PaO₂, weil sie die Balance zwischen endkapillärem O₂ und gemischtem arteriellem Blut verschiebt."
      ])

  const Item12: QuizItem :=
    Explanation(
      "Frage 5: Warum bringt in dieser Situation eine PaCO₂-Senkung (z. B. durch Hyperventilation und rechnerisch höheres PAO₂) keinen klinischen Vorteil?",
      [
        "Weil das Problem nicht im alveolären O₂-Angebot liegt, sondern im Bypass des Blutes durch nicht ventilierte Areale. Ein höheres PAO₂ erreicht dieses Blut nie."
      ])

  const Item13: QuizItem :=
    Explanation(
      "Frage 6: Welche intensivmedizinischen Maßnahmen sind zielführend, um das Shuntvolumen zu reduzieren und den PaO₂ wirklich zu verbessern?",
      [
        "PEEP/CPAP: hält Alveolen offen, rekrutiert kollabierte Areale → mehr Blut wird oxygeniert.",
        "Bauchlage: reduziert dorsale Kompression, homogenisiert Ventilation → verbessert V/Q-Verhältnis.",
        "Recruitment-Manöver: kurzzeitig hoher Druck, um Alveolen zu eröffnen."
      ])

  const Item14: QuizItem :=
    Explanation(
      "Frage 7: Welche Balance entscheidet letztlich darüber, wie hoch der tatsächlich gemessene PaO₂ ist?",
      [
        "Es ist die Balance zwischen voll oxygeniertem endkapillärem Blut und nicht oxygeniertem venösem Blut.",
        "Der Shuntwert selbst bleibt durch PAO₂-Änderung weitgehend unverändert, aber klinisch entscheidend ist, wie sich die endkapilläre Sättigung verbessert und wie sich dieses Blut mit shuntendem, nicht oxygeniertem Blut mischt."
      ])

  const Item15: QuizItem :=
    CaseText(
      "Phase 3: Hämodynamische Instabilität",
      [
        "Am dritten Tag auf der ICU entwickelt der Patient plötzlich eine hämodynamische Instabilität. Ursache ist eine intraabdominelle Nachblutung, die zu einem Blutverlust von etwa 1,5 Litern führt. Klinisch zeigt sich eine Tachykardie von 125/min, Hypotonie (MAP 58 mmHg) und eine kühle Peripherie.",
        "Das Herzzeitvolumen (Q̇t) sinkt auf 3,5 L/min. Durch die Blutung fällt der Hb auf 8 g/dL. In der Folge reduziert sich auch der arterielle O₂-Gehalt (CaO₂)."
      ])

  const Item16: QuizItem :=
    Mc(
      "Frage 7: Welche Auswirkungen haben die Faktoren ↓ Q̇t und ↓ Hb auf den globalen O₂-Transport (DO₂)?",
      [
        "DO₂ steigt, da das Herz kompensatorisch schneller schlägt.",
        "DO₂ bleibt unverändert, da die Sauerstoffextraktion zunimmt.",
        "DO₂ sinkt kritisch, da beide Hauptkomponenten der DO₂-Formel reduziert sind.",
        "Nur der Hb-Abfall ist relevant, das Q̇t hat kaum Einfluss."
      ],
      2)

  const Item17: QuizItem :=
    Mc(
      "Frage 8: Welche Aussage beschreibt am besten die Rolle des Hämoglobins (Hb) in der Sauerstoffversorgung und die Konsequenzen eines Hb-Abfalls im Schock?",
      [
        "Das Hb trägt nur einen geringen Teil zum O₂-Transport bei, entscheidend ist der gelöste Sauerstoff im Plasma.",
        "Sinkt Hb, bleibt CaO₂ konstant, solange SaO₂ und PaO₂ stabil sind.",
        "Ein Abfall von 14,5 auf 8 g/dL reduziert CaO₂ massiv, auch wenn SaO₂ und PaO₂ gleich bleiben, und senkt damit direkt das O₂-Angebot (DO₂).",
        "Hb hat keinen Einfluss auf die O₂-Zufuhr (DO₂), da diese ausschließlich vom Herzzeitvolumen bestimmt wird."
      ],
      2)

  const Item18: QuizItem :=
    Explanation(
      "Frage 9: Vergleiche das O₂-Extraktionsverhältnis (O₂ER) des Patienten vor der Blutung mit dem nach der Blutung: Vorher: Hb 14,5 g/dL, SaO₂ 98 %, PaO₂ 100 mmHg, Q̇t 5,5 L/min, VO₂ = 250 mL/min. Nachher: Hb 8 g/dL, SaO₂ 95 %, PaO₂ 90 mmHg, Q̇t 3,5 L/min, VO₂ = 250 mL/min. Wie hoch ist das O₂ER jeweils, und was sagt dir die Veränderung?",
      [
        "<strong>Vorher:</strong>",
        "CaO₂ ≈ 19,3 mL/dL, DO₂ ≈ 1060 mL/min",
        "ΔC (a–v)O₂ ≈ 4,5 mL/dL, CvO₂ ≈ 14,8 mL/dL",
        "<strong>O₂ER ≈ 23 % (normal)</strong>",
        "",
        "<strong>Nachher:</strong>",
        "CaO₂ ≈ 10,5 mL/dL, DO₂ ≈ 366 mL/min",
        "ΔC (a–v)O₂ ≈ 7,1 mL/dL, CvO₂ ≈ 3,3 mL/dL",
        "<strong>O₂ER ≈ 68 % (kritisch erhöht)</strong>",
        "",
        "<strong>Erklärung:</strong> Der kombinierte Effekt aus Anämie (Hb ↓) und reduziertem Herzzeitvolumen (Q˙t↓) senkt die Sauerstoffzufuhr (D˙O2) drastisch. Bei konstant vorgegebenem V˙O2  steigt die extrahierte Fraktion entsprechend (O₂ER ↑), das gemischtvenöse O₂-Angebot fällt (äquivalent: SvO2 ≈ 76 % → ≈ 31 %). Eine O₂ER ~ 68 % zeigt eine aufgebrauchte Reserve und drohende Dysoxie an."
      ])

  const Item19: QuizItem :=
    Explanation(
      "Frage 10: Warum ist O₂ER in diesem Fall ein besserer Marker für die Gewebeversorgung als PaO₂ oder SaO₂?",
      [
        "PaO₂ und SaO₂ können noch normal aussehen, obwohl kaum O₂ transportiert wird.",
        "O₂ER zeigt das Verhältnis Angebot/Verbrauch. Ein Wert von 68 % bedeutet: die Gewebe schöpfen fast alles aus, was geliefert wird.",
        "Damit ist O₂ER ein Frühmarker für eine drohende Gewebehypoxie."
      ])

  const Item20: QuizItem :=
    Explanation(
      "Frage 11: Welche weiteren Faktoren (außer Hb und Qt) könnten O₂ER noch erhöhen?",
      [
        "↑ VO₂ (Fieber, Unruhe, Krämpfe)",
        "↓ SaO₂/PaO₂ (Hypoxämie, Shunt, ARDS)",
        "Mikrozirkulationsstörung (Sepsis, Schock)"
      ])

  const Item21: QuizItem :=
    Explanation(
      "Frage 12: Welche klinischen Maßnahmen zielen darauf ab, O₂ER wieder zu normalisieren?",
      [
        "Hb anheben (Transfusion) → CaO₂↑",
        "Qt steigern (Volumen, Inotropie) → DO₂↑",
        "SaO₂ sichern (O₂-Gabe, PEEP) → CaO₂↑",
        "VO₂ senken (Analgesie, Sedierung, Fiebersenkung) → Verbrauch↓"
      ])

  const Item22: QuizItem :=
    CaseText(
      "Intervention",
      [
        "Da der Patient dyspnoisch wird und die Oxygenierung weiter kompromittiert ist, entscheidet sich das Team für eine Intubation und invasive Beatmung. Es wird ein BIPAP-Modus eingestellt, um den alveolären Rekrutierungseffekt zu nutzen. Zusätzlich erfolgt eine dorsoventrale Wechsellagerung, um die Ventilation-Perfusions-Verteilung zu verbessern. Sedativa werden zur Beatmungstoleranz verabreicht."
      ])

  const Item23: QuizItem :=
    Mc(
      "Frage 13: Welche dieser Maßnahmen wirken primär über eine Verbesserung des PAO₂ und damit des Cc′O₂, und welche beeinflussen indirekt den O₂-Verbrauch (VO₂)?",
      [
        "PAO₂-Verbesserung durch Sedierung, VO₂-Senkung durch BIPAP.",
        "PAO₂-Verbesserung durch BIPAP/Lagerung, VO₂-Senkung durch Sedierung.",
        "Beide Maßnahmen verbessern ausschließlich den PAO₂.",
        "Die Lagerung senkt den VO₂, die Sedierung verbessert den PAO₂."
      ],
      1)

  const Item24: QuizItem :=
    CaseText(
      "Phase 4: Zustand nach Intervention",
      [
        "Nach 2 Stunden Beatmung, Transfusion und Volumengabe stabilisiert sich der Zustand. Hier die Werte zum Vergleich:",
        "Vor Intervention: Hb = 8 g/dL, SaO₂ = 0.85, PaO₂ = 55 mmHg, HF = 110 bpm.",
        "Nach Intervention: Hb = 9.5 g/dL, SaO₂ = 0.95, PaO₂ = 90 mmHg, HF = 90 bpm."
      ])

  const Item25: QuizItem :=
    Calc(
      "Frage 14: In der Zwischenzeit wurde ein erweitertes hämodynamisches Monitoring implementiert und eine Picco Messung durchgeführt. Dabei wurde ein Schlagvolumen von 61 ml gemessen. Berechnen Sie den neuen arteriellen O₂-Transport (DO₂) nach der Intervention.",
      CalcCorrect(None, None, None, Some(679.0)))

  const Item26: QuizItem :=
    CaseText(
      "Phase 5: Verschiebung der O₂-Bindungskurve",
      [
        "Im weiteren Verlauf entwickelt der Patient Fieber (Temp. 39,2 °C) und eine metabolische Azidose (pH 7,28). Dadurch verschiebt sich die Sauerstoffbindungskurve nach rechts: Der p50-Wert steigt über den Normalwert von 27 mmHg hinaus.",
        "Dies bedeutet: Bei gleichem PaO₂ ist die Hb-Sättigung geringer, gleichzeitig wird aber der O₂ im Gewebe leichter abgegeben."
      ])

  const Item27: QuizItem :=
    Mc(
      "Frage 15: Wie wirkt sich diese Rechtsverschiebung auf die Balance zwischen O₂-Bindung in der Lunge und O₂-Freisetzung im Gewebe aus, und welche Konsequenzen hat das für den Patienten mit vorbestehendem Shunt?",
      [
        "Verbesserte O₂-Abgabe im Gewebe löst das Oxygenierungsproblem.",
        "Die O₂-Bindung in der Lunge wird erschwert, was die bereits niedrige SaO₂ weiter senkt.",
        "Die Kurvenverschiebung hat keine klinische Relevanz.",
        "Der PaO₂ steigt durch die Verschiebung automatisch an."
      ],
      1)

  const Item28: QuizItem :=
    CaseText(
      "Phase 6: Weitere Therapieoptionen",
      [
        "Die Nachblutung ist mittlerweile chirurgisch versorgt, Hb stabilisiert. Dennoch bleibt durch das ARDS ein signifikanter Shunt bestehen, sodass trotz maximaler FiO₂ nur ein begrenzter Anstieg des PaO₂ erreicht werden kann."
      ])

  const Item29: QuizItem :=
    Mc(
      "Frage 16: Angesichts der fortbestehenden Oxygenierungsstörung – welche weiteren intensivmedizinischen Maßnahmen kommen hier in Betracht?",
      [
        "Erhöhung der Sedierungstiefe.",
        "Gabe von Schleifendiuretika.",
        "Beginn einer ECMO-Therapie (extrakorporale Membranoxygenierung).",
        "Wechsel auf eine nicht-invasive Beatmung."
      ],
      2)

  /** Every multiple-choice item's correct index points into its options. */
  lemma McAnswersInRange()
    ensures forall i :: 0 <= i < |QuizItems| && QuizItems[i].Mc? ==>
              0 <= QuizItems[i].answer < |QuizItems[i].options|
  {
  }

  /** Every calculation item asks for exactly one of the four fields. */
  lemma CalcItemsAskOneField()
    ensures forall i :: 0 <= i < |QuizItems| && QuizItems[i].Calc? ==>
              QuizItems[i].correct.DefinedCount() == 1
  {
  }

  /** Where the calculation questions sit: the first phase's three at
      positions 1 to 3, the second phase's three at 5 to 7, the DO₂ question
      at 25. */
  lemma FirstPhaseQuestions()
    ensures QuizItems[1] == Item1 && QuizItems[2] == Item2 && QuizItems[3] == Item3
  {
  }

  lemma SecondPhaseQuestions()
    ensures QuizItems[5] == Item5 && QuizItems[6] == Item6 && QuizItems[7] == Item7
  {
  }

  lemma DeliveryQuestion()
    ensures QuizItems[25] == Item25
  {
  }
}

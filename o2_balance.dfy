/** The oxygen-balance flowchart: the six simulation phases with their
    descriptive texts, the per-phase content and styling of the five flowchart
    nodes, and the view state (active phase, animation flag). */
module O2Balance {
  import opened Wrappers

  // ---------------------------------------------------------------------
  // Phases and their descriptive texts
  // ---------------------------------------------------------------------

  datatype Phase = Normal | Ards | Shock | Intervention | Acidosis | Ecmo

  /** Phases in the order the phase buttons are shown. */
  const AllPhases: seq<Phase> := [Normal, Ards, Shock, Intervention, Acidosis, Ecmo]

  function PhaseTitle(p: Phase): string
  {
    match p
    case Normal => "Oxygen Balance Calculation"
    case Ards => "Pathophysiology of ARDS"
    case Shock => "Bleeding & Hemorrhagic Shock"
    case Intervention => "Therapeutic Intervention"
    case Acidosis => "Metabolic Acidosis & Fever"
    case Ecmo => "ECMO Support"
  }

  function PhaseDescription(p: Phase): string
  {
    match p
    case Normal => "A flowchart of O₂ Delivery (DO₂) vs. O₂ Consumption (VO₂)"
    case Ards => "Modeling the impact of increased intrapulmonary shunt"
    case Shock => "Modeling hemodynamic instability from blood loss"
    case Intervention => "Modeling ventilation, transfusion, and sedation effects"
    case Acidosis => "Modeling the right-shift of the O₂-Hb dissociation curve"
    case Ecmo => "Modeling extracorporeal membrane oxygenation for refractory hypoxemia"
  }

  function PhaseButton(p: Phase): string
  {
    match p
    case Normal => "Phase 1: Normal"
    case Ards => "Phase 2: ARDS"
    case Shock => "Phase 3: Bleeding"
    case Intervention => "Phase 4: Intervention"
    case Acidosis => "Phase 5: Right Shift"
    case Ecmo => "Phase 6: ECMO"
  }

  /** The position of a phase among the buttons, as the digit its label shows. */
  function PhaseNumber(p: Phase): char
  {
    match p
    case Normal => '1'
    case Ards => '2'
    case Shock => '3'
    case Intervention => '4'
    case Acidosis => '5'
    case Ecmo => '6'
  }

  /** Every phase has a heading. */
  lemma PhaseHasTitle(p: Phase)
    ensures PhaseTitle(p) != ""
  {
  }

  /** Every phase has a subheading. */
  lemma PhaseHasDescription(p: Phase)
    ensures PhaseDescription(p) != ""
  {
  }

  /** Every phase has a button label reading "Phase n: ..." with n its
      position among the buttons. */
  lemma PhaseButtonNumbered(p: Phase)
    ensures |PhaseButton(p)| > 7 && PhaseButton(p)[..6] == "Phase " && PhaseButton(p)[6] == PhaseNumber(p)
    ensures '1' <= PhaseNumber(p) <= '6' && AllPhases[PhaseNumber(p) as int - '1' as int] == p
  {
  }

  /** No two phases share a button label, so each button selects one phase. */
  lemma PhaseButtonsDistinct(p: Phase, q: Phase)
    requires p != q
    ensures PhaseButton(p) != PhaseButton(q)
  {
    PhaseButtonNumbered(p);
    PhaseButtonNumbered(q);
  }

  // ---------------------------------------------------------------------
  // Flowchart nodes
  // ---------------------------------------------------------------------

  datatype NodeContent = NodeContent(title: string, lines: seq<string>)

  /** The identifiers of the five flowchart nodes. */
  const NodeIds: set<string> := {"do2", "qt", "cao2", "vo2", "cvo2"}

  /** The five flowchart nodes. */
  datatype Node = Do2 | Qt | CaO2 | Vo2 | CvO2

  /** The node id the content table uses for each node. */
  function NodeId(n: Node): string
  {
    match n
    case Do2 => "do2"
    case Qt => "qt"
    case CaO2 => "cao2"
    case Vo2 => "vo2"
    case CvO2 => "cvo2"
  }

  /** The content table: the content of each node in each phase. */
  function NodeText(p: Phase, n: Node): NodeContent
  {
    match p
    case Normal => (
      match n
      case Do2 => NodeContent("O₂ Delivery (DO₂)", ["DO₂ = Qt x CaO₂"])
      case Qt => NodeContent("Cardiac Output (Qt)", ["Qt = Heart Rate (HR) x Stroke Volume (SV)"])
      case CaO2 => NodeContent("Arterial O₂ Content (CaO₂)", ["CaO₂ = (SaO₂ x Hb x 1.34)", "+ (PaO₂ x 0.003)"])
      case Vo2 => NodeContent("O₂ Consumption (VO₂)", ["Fick: Qt x (CaO₂ - CvO₂)", "Resp: MV x (FiO₂ - FeO₂)"])
      case CvO2 => NodeContent("Venous O₂ Content (CvO₂)", ["CvO₂ = (SvO₂ x Hb x 1.34)", "+ (PvO₂ x 0.003)"]))
    case Ards => (
      match n
      case Do2 => NodeContent("DO₂ (Compromised)", ["DO₂ = Qt x CaO₂"])
      case Qt => NodeContent("Cardiac Output (Qt)", ["↑ HR (Tachycardia) x SV"])
      case CaO2 => NodeContent("Arterial O₂ Content (CaO₂)", ["(↓ SaO₂ x Hb x 1.34)", "+ (↓ PaO₂ x 0.003)"])
      case Vo2 => NodeContent("O₂ Consumption (VO₂)", ["↑ O₂ Extraction Ratio", "VO₂ = Qt x (↓CaO₂ - ↓↓CvO₂)"])
      case CvO2 => NodeContent("Venous O₂ Content (CvO₂)", ["↓↓ (SvO₂ x Hb x 1.34)", "+ (PvO₂ x 0.003)"]))
    case Shock => (
      match n
      case Do2 => NodeContent("DO₂ (Critically Low)", ["↓↓↓ DO₂ = ↓Qt x ↓CaO₂"])
      case Qt => NodeContent("Cardiac Output (Qt)", ["↓ Qt = ↑ HR x ↓↓ SV"])
      case CaO2 => NodeContent("Arterial O₂ Content (CaO₂)", ["↓↓ (SaO₂ x ↓↓ Hb x 1.34)"])
      case Vo2 => NodeContent("O₂ Consumption (VO₂)", ["↑↑ O₂ Extraction Ratio", "VO₂ ~ constant"])
      case CvO2 => NodeContent("Venous O₂ Content (CvO₂)", ["↓↓↓ CvO₂ (Tissue Hypoxia)"]))
    case Intervention => (
      match n
      case Do2 => NodeContent("DO₂ (Improving)", ["↑↑ DO₂ = ↑ Qt x ↑ CaO₂"])
      case Qt => NodeContent("Cardiac Output (Qt)", ["↑ Qt = ↓ HR x ↑ SV (Volume)"])
      case CaO2 => NodeContent("Arterial O₂ Content (CaO₂)", ["↑ (↑SaO₂, ↑Hb, ↑PaO₂)"])
      case Vo2 => NodeContent("O₂ Consumption (VO₂)", ["↓ VO₂ (Sedation)"])
      case CvO2 => NodeContent("Venous O₂ Content (CvO₂)", ["↑ CvO₂ (Improved O₂ER)"]))
    case Acidosis => (
      match n
      case Do2 => NodeContent("O₂ Delivery (DO₂)", ["DO₂ = Qt x ↓CaO₂"])
      case Qt => NodeContent("Cardiac Output (Qt)", ["Maintained"])
      case CaO2 => NodeContent("Arterial O₂ Content (CaO₂)", ["↓ (↓SaO₂ at same PaO₂)"])
      case Vo2 => NodeContent("O₂ Consumption (VO₂)", ["↑ VO₂ (Fever)"])
      case CvO2 => NodeContent("Venous O₂ Content (CvO₂)", ["↓ Facilitated O₂ Release"]))
    case Ecmo => (
      match n
      case Do2 => NodeContent("DO₂ (ECMO Supported)", ["ECMO provides DO₂"])
      case Qt => NodeContent("Cardiac Output (Qt)", ["Native Qt + ECMO Flow"])
      case CaO2 => NodeContent("Art. O₂ Content (↑CaO₂)", ["Determined by ECMO"])
      case Vo2 => NodeContent("O₂ Consumption (VO₂)", ["VO₂ = (Qnative + QECMO)", "× (CaO₂ - CvO₂)"])
      case CvO2 => NodeContent("Venous O₂ Content (CvO₂)", ["High SvO₂ in ECMO return"]))
  }

  /** The content table of a phase, keyed by node id. */
  function PhaseNodes(p: Phase): map<string, NodeContent>
  {
    map[NodeId(Do2) := NodeText(p, Do2), NodeId(Qt) := NodeText(p, Qt), NodeId(CaO2) := NodeText(p, CaO2),
        NodeId(Vo2) := NodeText(p, Vo2), NodeId(CvO2) := NodeText(p, CvO2)]
  }

  /** The content shown for a node: the active phase's entry, or the normal
      phase's entry when the active phase has none (`None` when neither has). */
  function GetNodeContent(phase: Phase, nodeId: string): (r: Option<NodeContent>)
    ensures nodeId in PhaseNodes(phase) ==> r == Some(PhaseNodes(phase)[nodeId])
    ensures nodeId !in PhaseNodes(phase) ==> r == Lookup(PhaseNodes(Normal), nodeId)
    ensures r.None? <==> nodeId !in PhaseNodes(phase) && nodeId !in PhaseNodes(Normal)
  {
    var own := Lookup(PhaseNodes(phase), nodeId);
    if own.Some? then own else Lookup(PhaseNodes(Normal), nodeId)
  }

  /** Every phase's content table defines exactly the five node ids. */
  lemma PhaseNodeIds(phase: Phase)
    ensures PhaseNodes(phase).Keys == NodeIds
  {
  }

  /** Because every phase defines the five node ids, the fallback to the
      normal phase never fires: each node shows its own phase's content, and an
      unknown id shows nothing. */
  lemma NodeContentNeverFallsBack(phase: Phase, nodeId: string)
    ensures nodeId in NodeIds ==> GetNodeContent(phase, nodeId) == Some(PhaseNodes(phase)[nodeId])
    ensures nodeId !in NodeIds ==> GetNodeContent(phase, nodeId) == None
  {
    PhaseNodeIds(phase);
    PhaseNodeIds(Normal);
  }

  /** The styling table of a non-normal phase, by node id. */
  function PhaseClasses(p: Phase): map<string, string>
  {
    match p
    case Normal => map[]
    case Ards => map["do2" := "node-critical", "qt" := "node-warning", "cao2" := "node-critical",
                     "vo2" := "node-warning", "cvo2" := "node-severe"]
    case Shock => map["do2" := "node-critical", "qt" := "node-critical", "cao2" := "node-critical",
                      "vo2" := "node-warning", "cvo2" := "node-critical"]
    case Intervention => map["do2" := "node-improving", "qt" := "node-improving", "cao2" := "node-improving",
                             "vo2" := "node-improving", "cvo2" := "node-improving"]
    case Acidosis => map["do2" := "node-warning", "qt" := "", "cao2" := "node-warning",
                         "vo2" := "node-warning", "cvo2" := "node-severe"]
    case Ecmo => map["do2" := "node-improving", "qt" := "node-improving", "cao2" := "node-improving",
                     "vo2" := "node-improving", "cvo2" := "node-improving"]
  }

  /** The extra style class of a node: the normal phase has none, an id the
      phase's table does not know reads `undefined` and falls back to "". */
  function GetNodeClass(phase: Phase, nodeId: string): (r: string)
    ensures phase == Normal ==> r == ""
    ensures nodeId !in PhaseClasses(phase) ==> r == ""
    ensures nodeId in PhaseClasses(phase) ==> r == PhaseClasses(phase)[nodeId]
  {
    if phase == Normal then ""
    else if nodeId in PhaseClasses(phase) then PhaseClasses(phase)[nodeId]
    else ""
  }

  /** In the intervention and ECMO phases every node is shown as improving,
      and a node id outside the five is never styled in any phase. */
  lemma NodeClassFacts(phase: Phase, nodeId: string)
    ensures (phase == Intervention || phase == Ecmo) && nodeId in NodeIds ==>
              GetNodeClass(phase, nodeId) == "node-improving"
    ensures nodeId !in NodeIds ==> GetNodeClass(phase, nodeId) == ""
  {
    assert PhaseClasses(phase).Keys <= NodeIds;
  }

  // ---------------------------------------------------------------------
  // View state
  // ---------------------------------------------------------------------

  /** The state of the oxygen-balance view. */
  class O2BalanceView {
    var isAnimating: bool
    var simulationPhase: Phase

    /** Mounting the view: the phase handed in by the caller, or the normal
        phase when none is given; the animation starts out stopped. */
    constructor (initialPhase: Option<Phase>)
      ensures initialPhase.Some? ==> simulationPhase == initialPhase.value
      ensures initialPhase.None? ==> simulationPhase == Normal
      ensures !isAnimating
    {
      isAnimating := false;
      simulationPhase := initialPhase.GetOr(Normal);
    }

    /** A phase button: selects the phase and stops the animation (its restart
        is scheduled on a timer, which is not part of this model). Any phase can
        be selected from any other. */
    method HandlePhaseChange(phase: Phase)
      modifies this
      ensures simulationPhase == phase
      ensures !isAnimating
    {
      isAnimating := false;
      simulationPhase := phase;
    }
  }
}

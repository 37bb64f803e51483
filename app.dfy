/** The top-level page: which of the three pages is shown, the hover-driven
    highlighting of the shunt diagram, the animation switch, and the phase
    handed to the oxygen-balance page. */
module App {
  import opened Wrappers
  import O2Balance

  // ---------------------------------------------------------------------
  // Highlighting of diagram groups
  // ---------------------------------------------------------------------

  /** How a highlighted element is styled: as a flow path or as a label. */
  datatype HighlightKind = PathKind | LabelKind

  /** The group an element belongs to: one group name, or a list of them. */
  datatype GroupName = Single(name: string) | Several(names: seq<string>)

  function Groups(g: GroupName): seq<string>
  {
    match g
    case Single(n) => [n]
    case Several(ns) => ns
  }

  /** The highlight class of an element; an element that gives no kind is
      styled as a label. */
  function HighlightClass(kind: Option<HighlightKind>): string
  {
    match kind.GetOr(LabelKind)
    case PathKind => "highlight-path"
    case LabelKind => "highlight-label"
  }

  /** Whether hovering `hovered` highlights an element of the given groups:
      it is one of them, or it is the main shunt and the element belongs to
      the partial or the full shunt. */
  predicate Highlights(hovered: string, groups: seq<string>)
  {
    hovered in groups || (hovered == "shunt" && ("partial-shunt" in groups || "full-shunt" in groups))
  }

  /** The CSS classes of a diagram element. Without a hovered element (none,
      or the empty name) the base class alone; otherwise the base class
      followed by the highlight class of the element's kind, or by "dimmed". */
  function GetHighlightClasses(hovered: Option<string>, groupName: GroupName, baseClass: string,
                               kind: Option<HighlightKind>): (r: string)
    ensures |r| >= |baseClass| && r[..|baseClass|] == baseClass
    ensures r == baseClass || r == baseClass + " " + HighlightClass(kind) || r == baseClass + " dimmed"
  {
    var groups := Groups(groupName);
    if hovered.None? || hovered.value == "" then baseClass
    else if hovered.value in groups then baseClass + " " + HighlightClass(kind)
    else if hovered.value == "shunt" && ("partial-shunt" in groups || "full-shunt" in groups) then
      baseClass + " " + HighlightClass(kind)
    else baseClass + " dimmed"
  }

  /** The three outcomes, each exactly when its condition holds: the base
      class alone when nothing is hovered, the highlight class when the
      hovered element highlights the groups, "dimmed" otherwise. */
  lemma HighlightCases(hovered: Option<string>, groupName: GroupName, baseClass: string,
                       kind: Option<HighlightKind>)
    ensures GetHighlightClasses(hovered, groupName, baseClass, kind) == baseClass
            <==> hovered.None? || hovered.value == ""
    ensures GetHighlightClasses(hovered, groupName, baseClass, kind) == baseClass + " " + HighlightClass(kind)
            <==> hovered.Some? && hovered.value != "" && Highlights(hovered.value, Groups(groupName))
    ensures GetHighlightClasses(hovered, groupName, baseClass, kind) == baseClass + " dimmed"
            <==> hovered.Some? && hovered.value != "" && !Highlights(hovered.value, Groups(groupName))
  {
    var b := |baseClass|;
    var lit := baseClass + " " + HighlightClass(kind);
    var dim := baseClass + " dimmed";
    assert |lit| > b && |dim| > b;
    assert lit[b + 1] == 'h' && dim[b + 1] == 'd';
  }

  /** Hovering the main shunt highlights the partial-shunt and full-shunt
      paths as well. */
  lemma ShuntHighlightsItsPaths(groupName: GroupName, baseClass: string, kind: Option<HighlightKind>)
    requires "partial-shunt" in Groups(groupName) || "full-shunt" in Groups(groupName)
    ensures GetHighlightClasses(Some("shunt"), groupName, baseClass, kind) == baseClass + " " + HighlightClass(kind)
  {
  }

  /** An element that gives no kind is highlighted as a label. */
  lemma DefaultKindIsLabel(hovered: Option<string>, groupName: GroupName, baseClass: string)
    ensures GetHighlightClasses(hovered, groupName, baseClass, None)
            == GetHighlightClasses(hovered, groupName, baseClass, Some(LabelKind))
    ensures Highlights(hovered.GetOr(""), Groups(groupName)) && hovered.GetOr("") != "" ==>
              GetHighlightClasses(hovered, groupName, baseClass, None) == baseClass + " highlight-label"
  {
  }

  /** A single group name behaves as the list holding just that name. */
  lemma SingleIsOneElementList(hovered: Option<string>, name: string, baseClass: string,
                               kind: Option<HighlightKind>)
    ensures GetHighlightClasses(hovered, Single(name), baseClass, kind)
            == GetHighlightClasses(hovered, Several([name]), baseClass, kind)
  {
  }

  // ---------------------------------------------------------------------
  // Page state
  // ---------------------------------------------------------------------

  datatype Page = ShuntPage | BalancePage | QuizPage

  class AppState {
    var isAnimating: bool
    var page: Page
    var hoveredElement: Option<string>
    var initialO2Phase: Option<O2Balance.Phase>

    /** A phase is only ever handed over while the balance page is shown. */
    ghost predicate Valid()
      reads this
    {
      initialO2Phase.Some? ==> page == BalancePage
    }

    constructor ()
      ensures Valid()
      ensures !isAnimating && page == ShuntPage && hoveredElement == None && initialO2Phase == None
    {
      isAnimating := false;
      page := ShuntPage;
      hoveredElement := None;
      initialO2Phase := None;
    }

    /** "Play/Reset Animation": flips the animation flag, so pressing it twice
        restores it. */
    method ToggleAnimation()
      modifies this
      ensures isAnimating == !old(isAnimating)
      ensures page == old(page) && hoveredElement == old(hoveredElement) && initialO2Phase == old(initialO2Phase)
    {
      isAnimating := !isAnimating;
    }

    /** The mouse enters a diagram element of group `groupName`. */
    method HoverEnter(groupName: string)
      modifies this
      ensures hoveredElement == Some(groupName)
      ensures isAnimating == old(isAnimating) && page == old(page) && initialO2Phase == old(initialO2Phase)
    {
      hoveredElement := Some(groupName);
    }

    /** The mouse leaves a diagram element. */
    method HoverLeave()
      modifies this
      ensures hoveredElement == None
      ensures isAnimating == old(isAnimating) && page == old(page) && initialO2Phase == old(initialO2Phase)
    {
      hoveredElement := None;
    }

    /** A case block of the quiz opens the balance page at its phase. */
    method HandleNavigateToBalance(phase: O2Balance.Phase)
      modifies this
      ensures Valid()
      ensures page == BalancePage && initialO2Phase == Some(phase)
      ensures isAnimating == old(isAnimating) && hoveredElement == old(hoveredElement)
    {
      initialO2Phase := Some(phase);
      page := BalancePage;
    }

    /** "Back" on the balance page: forgets the phase, shows the shunt page. */
    method BackFromBalance()
      modifies this
      ensures Valid()
      ensures page == ShuntPage && initialO2Phase == None
      ensures isAnimating == old(isAnimating) && hoveredElement == old(hoveredElement)
    {
      initialO2Phase := None;
      page := ShuntPage;
    }

    /** "Visualize O₂ Balance" on the shunt page: opens the balance page
        without a phase. */
    method VisualizeBalance()
      modifies this
      ensures Valid()
      ensures page == BalancePage && initialO2Phase == None
      ensures isAnimating == old(isAnimating) && hoveredElement == old(hoveredElement)
    {
      initialO2Phase := None;
      page := BalancePage;
    }

    /** "Take a Quiz" on the shunt page. */
    method TakeQuiz()
      requires Valid() && page == ShuntPage
      modifies this
      ensures Valid()
      ensures page == QuizPage && initialO2Phase == None
      ensures isAnimating == old(isAnimating) && hoveredElement == old(hoveredElement)
    {
      page := QuizPage;
    }

    /** "Back" on the quiz page. */
    method BackFromQuiz()
      requires Valid() && page == QuizPage
      modifies this
      ensures Valid()
      ensures page == ShuntPage && initialO2Phase == None
      ensures isAnimating == old(isAnimating) && hoveredElement == old(hoveredElement)
    {
      page := ShuntPage;
    }

    /** Showing the balance page mounts its view at the handed-over phase, or
        at the normal phase when there is none. */
    method MountBalanceView() returns (view: O2Balance.O2BalanceView)
      requires page == BalancePage
      ensures fresh(view) && !view.isAnimating
      ensures view.simulationPhase == initialO2Phase.GetOr(O2Balance.Normal)
    {
      view := new O2Balance.O2BalanceView(initialO2Phase);
    }
  }
}

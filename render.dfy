/**
 * What buildSpreads and updateInfoHeader produce for a configuration: the
 * container's children (a label and a spread per group) and the summary line.
 */
module Render {
  import opened FlyerConfig
  import opened Text
  import opened Imposition
  import opened PanelContent

  /** A CSS length in millimetres, or NaN when `parseFloat` finds no number. */
  datatype Length = Mm(mm: nat) | NaN

  /** A child of the flyer container. */
  datatype Node =
    | Label(text: string)
    | Spread(width: Length, height: string, rowReverse: bool, panels: seq<PanelEl>)

  /** `parseFloat` of a whole-millimetre length such as "148mm": its leading digits. */
  function ParseLength(s: string): Length {
    var digits := LeadingDigits(s);
    if digits == [] then NaN else Mm(DigitsValue(digits))
  }

  /** A length written as digits and a unit reads back as that number. */
  lemma ParseLengthOfNumberWithUnit(n: nat, unit: string)
    requires unit == [] || !IsDigit(unit[0])
    ensures ParseLength(NatToString(n) + unit) == Mm(n)
  {
    LeadingDigitsOfNumberThenUnit(NatToString(n), unit);
    DigitsValueOfNatToString(n);
  }

  /** `parseFloat(width) * count`. */
  function SpreadWidth(width: string, count: nat): Length {
    match ParseLength(width)
    case Mm(w) => Mm(w * count)
    case NaN => NaN
  }

  /** `this.config.panels[String(index)] || {}` */
  function ContentOf(panels: map<string, PanelData>, index: nat): PanelData {
    var key := NatToString(index);
    if key in panels then panels[key] else NoContent
  }

  /** The panel at position `pos` of a spread: a fold line on every panel but the last. */
  function PanelAt(panels: map<string, PanelData>, indices: seq<nat>, pos: nat): PanelEl
    requires pos < |indices|
  {
    CreatePanel(indices[pos], ContentOf(panels, indices[pos])).(foldLine := pos < |indices| - 1)
  }

  /** The panels of one spread, in the order of its indices. */
  function SpreadPanels(panels: map<string, PanelData>, indices: seq<nat>): seq<PanelEl> {
    seq(|indices|, pos requires 0 <= pos < |indices| => PanelAt(panels, indices, pos))
  }

  /** The spread node built for one group, sized from the unswapped format entry. */
  function SpreadNode(g: Group, d: Dims, panels: map<string, PanelData>): Node {
    Spread(SpreadWidth(d.width, |g.panels|), d.height, g.reverse, SpreadPanels(panels, g.panels))
  }

  /** The container's children after building the given groups. */
  function RenderGroups(gs: seq<Group>, d: Dims, panels: map<string, PanelData>): seq<Node> {
    if gs == [] then []
    else RenderGroups(gs[..|gs| - 1], d, panels)
         + [Label(gs[|gs| - 1].title), SpreadNode(gs[|gs| - 1], d, panels)]
  }

  /** One label and then one spread per group, in group order. */
  lemma {:induction false} RenderGroupsShape(gs: seq<Group>, d: Dims, panels: map<string, PanelData>)
    ensures var r := RenderGroups(gs, d, panels);
            && |r| == 2 * |gs|
            && forall k :: 0 <= k < |gs| ==>
                 r[2 * k] == Label(gs[k].title) && r[2 * k + 1] == SpreadNode(gs[k], d, panels)
  {
    if gs != [] {
      var init := gs[..|gs| - 1];
      RenderGroupsShape(init, d, panels);
      var r := RenderGroups(gs, d, panels);
      forall k | 0 <= k < |gs|
        ensures r[2 * k] == Label(gs[k].title) && r[2 * k + 1] == SpreadNode(gs[k], d, panels)
      {
        if k < |init| {
          assert gs[k] == init[k];
        }
      }
    }
  }

  /** The number of panels carrying a fold line. */
  function FoldLineCount(ps: seq<PanelEl>): nat {
    if ps == [] then 0 else (if ps[0].foldLine then 1 else 0) + FoldLineCount(ps[1..])
  }

  lemma {:induction false} FoldLineCountOfPrefix(ps: seq<PanelEl>, m: nat)
    requires m <= |ps|
    requires forall k :: 0 <= k < |ps| ==> (ps[k].foldLine <==> k < m)
    ensures FoldLineCount(ps) == m
  {
    if ps != [] {
      var rest := ps[1..];
      assert forall k :: 0 <= k < |rest| ==> rest[k] == ps[k + 1];
      FoldLineCountOfPrefix(rest, if m == 0 then 0 else m - 1);
    }
  }

  /**
   * A spread's panels are its group's indices in array order with their own
   * content; each panel except the last has one fold line, so a spread of
   * n panels has n - 1 of them (the simple card included).
   */
  lemma SpreadPanelsAndFoldLines(g: Group, d: Dims, panels: map<string, PanelData>)
    ensures var s := SpreadNode(g, d, panels);
            && |s.panels| == |g.panels|
            && (forall k :: 0 <= k < |g.panels| ==>
                  && s.panels[k].index == g.panels[k]
                  && (s.panels[k].foldLine <==> k < |g.panels| - 1)
                  && s.panels[k] == CreatePanel(g.panels[k], ContentOf(panels, g.panels[k])).(foldLine := k < |g.panels| - 1))
            && FoldLineCount(s.panels) == (if g.panels == [] then 0 else |g.panels| - 1)
            && (s.rowReverse <==> g.reverse)
            && s.height == d.height
            && (ParseLength(d.width).Mm? ==> s.width == Mm(ParseLength(d.width).mm * |g.panels|))
            && (ParseLength(d.width).NaN? ==> s.width == NaN)
  {
    var s := SpreadNode(g, d, panels);
    FoldLineCountOfPrefix(s.panels, if g.panels == [] then 0 else |g.panels| - 1);
  }

  /** The panel indices a node shows: none for a label, its panels' for a spread. */
  function NodePanels(n: Node): seq<nat> {
    match n
    case Label(_) => []
    case Spread(_, _, _, ps) => seq(|ps|, k requires 0 <= k < |ps| => ps[k].index)
  }

  /** The panel indices shown by the spreads among the nodes, in node order. */
  function ShownPanels(nodes: seq<Node>): seq<nat> {
    if nodes == [] then [] else ShownPanels(nodes[..|nodes| - 1]) + NodePanels(nodes[|nodes| - 1])
  }

  lemma ShownPanelsAppend(nodes: seq<Node>, n: Node)
    ensures ShownPanels(nodes + [n]) == ShownPanels(nodes) + NodePanels(n)
  {
    assert (nodes + [n])[..|nodes|] == nodes;
  }

  lemma {:induction false} ShownPanelsOfRender(gs: seq<Group>, d: Dims, panels: map<string, PanelData>)
    ensures ShownPanels(RenderGroups(gs, d, panels)) == AllPanels(gs)
  {
    if gs != [] {
      var init := gs[..|gs| - 1];
      var g := gs[|gs| - 1];
      var r0 := RenderGroups(init, d, panels);
      var lbl := Label(g.title);
      var s := SpreadNode(g, d, panels);
      calc {
        ShownPanels(RenderGroups(gs, d, panels));
        { assert RenderGroups(gs, d, panels) == (r0 + [lbl]) + [s]; }
        ShownPanels((r0 + [lbl]) + [s]);
        { ShownPanelsAppend(r0 + [lbl], s); SpreadNodeShowsItsGroup(g, d, panels); }
        ShownPanels(r0 + [lbl]) + g.panels;
        { ShownPanelsAppend(r0, lbl); }
        ShownPanels(r0) + g.panels;
        { ShownPanelsOfRender(init, d, panels); }
        AllPanels(init) + g.panels;
      }
    }
  }

  lemma SpreadNodeShowsItsGroup(g: Group, d: Dims, panels: map<string, PanelData>)
    ensures NodePanels(SpreadNode(g, d, panels)) == g.panels
  {
    var ps := SpreadPanels(panels, g.panels);
    forall k | 0 <= k < |g.panels| ensures ps[k].index == g.panels[k] {
      assert ps[k] == PanelAt(panels, g.panels, k);
    }
  }

  /**
   * For any layout key, the built flyer shows the panels 1..N, each once, in
   * ascending order across its spreads, N being the table's count for a key
   * the table knows and the declared count otherwise.
   */
  lemma RenderShowsEachPanelOnce(panelCount: nat, key: string, d: Dims, panels: map<string, PanelData>)
    ensures var n := if IsTableLayout(key) then TablePanelCount(key) else panelCount;
            var shown := ShownPanels(RenderGroups(GroupPanelsIntoSpreads(panelCount, key), d, panels));
            shown == Ascending(n) && ExactCover(shown, n)
  {
    ShownPanelsOfRender(GroupPanelsIntoSpreads(panelCount, key), d, panels);
    SpreadsListPanelsInOrder(panelCount, key);
    AscendingIsExactCover(if IsTableLayout(key) then TablePanelCount(key) else panelCount);
  }

  /** How buildSpreads ends: built, one of its two early returns, or the throw on a missing format. */
  datatype BuildResult = Built | NoContainer | LayoutNotFound | DimsUndefined

  function BuildOutcome(hasContainer: bool, c: Config): BuildResult {
    if !hasContainer then NoContainer
    else if ActiveLayout(c.layout).None? then LayoutNotFound
    else if ActiveDims(c.format).None? then DimsUndefined
    else Built
  }

  /** The spreads of the active layout, which must be declared. */
  function ActiveGroups(c: Config): seq<Group>
    requires c.layout.active in c.layout.options
  {
    GroupPanelsIntoSpreads(c.layout.options[c.layout.active].panels, c.layout.active)
  }

  /** The container's children after buildSpreads, given those before it. */
  function ContainerAfterBuild(before: seq<Node>, hasContainer: bool, c: Config): seq<Node> {
    match BuildOutcome(hasContainer, c)
    case NoContainer => before
    case LayoutNotFound => before
    case DimsUndefined => [Label(ActiveGroups(c)[0].title)]
    case Built => RenderGroups(ActiveGroups(c), c.format.options[c.format.active], c.panels)
  }

  /**
   * The early returns leave the container exactly as it was; every other
   * path clears it first, so what it held before makes no difference.
   */
  lemma BuildKeepsOrReplaces(b1: seq<Node>, b2: seq<Node>, hasContainer: bool, c: Config)
    ensures var r := BuildOutcome(hasContainer, c);
            && (r == NoContainer || r == LayoutNotFound ==> ContainerAfterBuild(b1, hasContainer, c) == b1)
            && (r == Built || r == DimsUndefined ==>
                  ContainerAfterBuild(b1, hasContainer, c) == ContainerAfterBuild(b2, hasContainer, c))
  {
  }

  /** Building again on an unchanged configuration changes nothing. */
  lemma ContainerAfterBuildIdempotent(before: seq<Node>, hasContainer: bool, c: Config)
    ensures var once := ContainerAfterBuild(before, hasContainer, c);
            ContainerAfterBuild(once, hasContainer, c) == once
  {
  }

  /**
   * A successful build holds one label and one spread per group of the
   * active layout, in group order; a missing format leaves only the first
   * label.
   */
  lemma BuiltContainerShape(before: seq<Node>, c: Config)
    requires BuildOutcome(true, c) == Built
    ensures var gs := ActiveGroups(c);
            var r := ContainerAfterBuild(before, true, c);
            && |r| == 2 * |gs|
            && forall k :: 0 <= k < |gs| ==>
                 r[2 * k] == Label(gs[k].title)
                 && r[2 * k + 1] == SpreadNode(gs[k], c.format.options[c.format.active], c.panels)
  {
    RenderGroupsShape(ActiveGroups(c), c.format.options[c.format.active], c.panels);
  }

  /**
   * The orientation plays no part in building: the spreads are sized from
   * the format entry as declared, whether or not applyFormat swapped the page.
   */
  lemma BuildIgnoresOrientation(before: seq<Node>, hasContainer: bool, c: Config, orientation: string)
    ensures var c' := c.(format := c.format.(orientation := orientation));
            && BuildOutcome(hasContainer, c') == BuildOutcome(hasContainer, c)
            && ContainerAfterBuild(before, hasContainer, c') == ContainerAfterBuild(before, hasContainer, c)
  {
  }

  /**
   * The simple card with no record for panel 1: one spread of two panels,
   * panel 1 a placeholder "Panel 1" / "content" carrying a fold line, and
   * panel 2 without one.
   */
  lemma SimpleCardScenario(d: Dims, panels: map<string, PanelData>)
    requires "1" !in panels
    ensures var r := RenderGroups(GroupPanelsIntoSpreads(2, SimpleCard), d, panels);
            && |r| == 2 && r[0] == Label("Grußkarte – Außenseite") && r[1].Spread?
            && |r[1].panels| == 2 && !r[1].rowReverse
            && r[1].panels[0].body == Placeholder("Panel 1", "content")
            && r[1].panels[0].foldLine && !r[1].panels[1].foldLine
            && FoldLineCount(r[1].panels) == 1
  {
    var gs := GroupPanelsIntoSpreads(2, SimpleCard);
    RenderGroupsShape(gs, d, panels);
    SpreadPanelsAndFoldLines(gs[0], d, panels);
    assert NatToString(1) == "1";
  }

  /** The two-fold layout: an outside spread [1, 2] reversed, then an inside spread [3, 4]. */
  lemma TwoFoldScenario(d: Dims, panels: map<string, PanelData>)
    ensures var r := RenderGroups(GroupPanelsIntoSpreads(4, TwoFold), d, panels);
            && |r| == 4 && r[1].Spread? && r[3].Spread?
            && r[1].rowReverse && !r[3].rowReverse
            && |r[1].panels| == 2 && r[1].panels[0].index == 1 && r[1].panels[1].index == 2
            && |r[3].panels| == 2 && r[3].panels[0].index == 3 && r[3].panels[1].index == 4
  {
    var gs := GroupPanelsIntoSpreads(4, TwoFold);
    RenderGroupsShape(gs, d, panels);
  }

  /** The summary line of the info header. */
  datatype Summary = Summary(brand: string, format: string, layoutTitle: string, panelCount: nat)

  /** updateInfoHeader's text, with its fallbacks for a missing name or layout. */
  function InfoSummary(c: Config): (s: Summary)
    ensures s.format == c.format.active
    ensures s.brand != "" && s.layoutTitle != ""
    ensures Truthy(c.branding.companyName) ==> s.brand == c.branding.companyName.value
    ensures !Truthy(c.branding.companyName) ==> s.brand == "Flyer Template"
    ensures c.layout.active !in c.layout.options ==> s.layoutTitle == "–" && s.panelCount == 0
    ensures c.layout.active in c.layout.options ==>
              s.panelCount == c.layout.options[c.layout.active].panels
              && (c.layout.options[c.layout.active].title != "" ==> s.layoutTitle == c.layout.options[c.layout.active].title)
              && (c.layout.options[c.layout.active].title == "" ==> s.layoutTitle == "–")
  {
    var brand := OrElse(c.branding.companyName, "Flyer Template");
    match ActiveLayout(c.layout)
    case None => Summary(brand, c.format.active, "–", 0)
    case Some(l) => Summary(brand, c.format.active, if l.title != "" then l.title else "–", l.panels)
  }

  /**
   * The summary's panel count is the number of panels the container shows
   * exactly when the active layout is declared and the key is not in the
   * table or its declared count is the table's own.
   */
  lemma SummaryCountMatchesRender(c: Config, d: Dims)
    requires c.layout.active in c.layout.options
    ensures var def := c.layout.options[c.layout.active];
            var shown := ShownPanels(RenderGroups(GroupPanelsIntoSpreads(def.panels, c.layout.active), d, c.panels));
            InfoSummary(c).panelCount == |shown|
            <==> !IsTableLayout(c.layout.active) || def.panels == TablePanelCount(c.layout.active)
  {
    var def := c.layout.options[c.layout.active];
    RenderShowsEachPanelOnce(def.panels, c.layout.active, d, c.panels);
  }
}

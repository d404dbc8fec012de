/**
 * The FlyerEngine class and the page it writes to. The page is the part of
 * the document the engine touches: the root element's style variables, the
 * dynamic @page style element, the flyer container and the info header.
 */
module Engine {
  import opened FlyerConfig
  import opened Theme
  import opened PageFormat
  import opened Imposition
  import opened PanelContent
  import opened Render

  /** The outcome of fetching and parsing the configuration file. */
  datatype Fetched = HttpError | InvalidJson | Loaded(config: Config)

  /** Why init stopped; each is an exception that propagates out of init. */
  datatype InitError =
    | ConfigNotFound(path: string)  // the response was not ok
    | JsonError                     // the body did not parse
    | UndefinedDims                 // buildSpreads read `dims.width` of a missing format

  datatype InitOutcome = Completed | Failed(error: InitError)

  /** The page variables applyFormat writes, or none when the format is missing. */
  function PageVariables(f: Format): map<string, string> {
    match ActiveDims(f)
    case None => map[]
    case Some(d) =>
      var p := OrientedSize(d, f.orientation);
      map[PageWidthVar := p.width, PageHeightVar := p.height]
  }

  /**
   * `style.setProperty(k, v)`: the CSS Object Model's setProperty removes the
   * property when the value is the empty string, and sets it otherwise.
   */
  function SetProperty(style: map<string, string>, k: string, v: string): (r: map<string, string>)
    ensures k in r <==> v != ""
    ensures k in r ==> r[k] == v
    ensures forall j :: j != k ==> (j in r <==> j in style) && (j in r ==> r[j] == style[j])
  {
    if v == "" then style - {k} else style[k := v]
  }

  /**
   * setProperty for every entry of `vars`, whose names are distinct: each
   * name in `vars` holds its value, or is gone when the value is empty, and
   * every other property is as it was.
   */
  function SetProperties(style: map<string, string>, vars: map<string, string>): (r: map<string, string>)
    ensures forall k :: k in vars ==> (k in r <==> vars[k] != "") && (k in r ==> r[k] == vars[k])
    ensures forall k :: k !in vars ==> (k in r <==> k in style) && (k in r ==> r[k] == style[k])
  {
    map k | k in style.Keys + vars.Keys && (k in vars ==> vars[k] != "") :: if k in vars then vars[k] else style[k]
  }

  /**
   * One setProperty followed by the rest is the same as setting them all at
   * once: the order of writes to distinct names does not matter.
   */
  lemma SetPropertyThenRest(style: map<string, string>, k: string, v: string, rest: map<string, string>)
    requires k !in rest
    ensures SetProperties(SetProperty(style, k, v), rest) == SetProperties(style, rest[k := v])
  {
  }

  /** Writing the page width and then the page height is setting the page variables. */
  lemma PageWritesAreSetProperties(style: map<string, string>, f: Format)
    requires ActiveDims(f).Some?
    ensures var p := OrientedSize(ActiveDims(f).value, f.orientation);
            SetProperty(SetProperty(style, PageWidthVar, p.width), PageHeightVar, p.height)
            == SetProperties(style, PageVariables(f))
  {
    var p := OrientedSize(ActiveDims(f).value, f.orientation);
    PageVarsDistinct();
    SetPropertyThenRest(style, PageWidthVar, p.width, map[PageHeightVar := p.height]);
    assert map[PageHeightVar := p.height][PageWidthVar := p.width] == PageVariables(f);
    assert SetProperties(SetProperty(style, PageWidthVar, p.width), map[PageHeightVar := p.height])
           == SetProperty(SetProperty(style, PageWidthVar, p.width), PageHeightVar, p.height);
  }

  /** The root style after applyColors, applyFonts and applyFormat. */
  function StyleAfterTheme(before: map<string, string>, c: Config): map<string, string> {
    SetProperties(SetProperties(SetProperties(before, ColorVariables(c.colors)), FontVariables(c.fonts)),
                  PageVariables(c.format))
  }

  /**
   * After the three steps every colour, font and page variable holds its
   * configured value, or is absent when that value is empty, and every other
   * property keeps the value it had.
   */
  lemma ThemeVariablesAfterInit(before: map<string, string>, c: Config)
    ensures var s := StyleAfterTheme(before, c);
            && (forall k :: k in ColorVariables(c.colors) ==>
                  (k in s <==> ColorVariables(c.colors)[k] != "") && (k in s ==> s[k] == ColorVariables(c.colors)[k]))
            && (forall k :: k in FontVariables(c.fonts) ==>
                  (k in s <==> FontVariables(c.fonts)[k] != "") && (k in s ==> s[k] == FontVariables(c.fonts)[k]))
            && (forall k :: k in PageVariables(c.format) ==>
                  (k in s <==> PageVariables(c.format)[k] != "") && (k in s ==> s[k] == PageVariables(c.format)[k]))
            && (forall k :: k !in ColorVariables(c.colors) && k !in FontVariables(c.fonts) && k !in PageVariables(c.format) ==>
                  (k in s <==> k in before) && (k in s ==> s[k] == before[k]))
  {
    var cv, fv, pv := ColorVariables(c.colors), FontVariables(c.fonts), PageVariables(c.format);
    VariableNamesDisjoint(c.colors, c.fonts);
    assert pv.Keys <= {PageWidthVar, PageHeightVar};
    LaterLayersWin(before, cv, fv, pv);
  }

  /** In three rounds of setProperty over disjoint name sets, each round's writes survive the later rounds. */
  lemma LaterLayersWin(a: map<string, string>, b: map<string, string>, c: map<string, string>, d: map<string, string>)
    requires b.Keys !! c.Keys && b.Keys !! d.Keys && c.Keys !! d.Keys
    ensures var s := SetProperties(SetProperties(SetProperties(a, b), c), d);
            && (forall k :: k in b ==> (k in s <==> b[k] != "") && (k in s ==> s[k] == b[k]))
            && (forall k :: k in c ==> (k in s <==> c[k] != "") && (k in s ==> s[k] == c[k]))
            && (forall k :: k in d ==> (k in s <==> d[k] != "") && (k in s ==> s[k] == d[k]))
            && (forall k :: k !in b && k !in c && k !in d ==> (k in s <==> k in a) && (k in s ==> s[k] == a[k]))
  {
  }

  /** The dynamic page style element's text after applyFormat. */
  function PageStyleAfter(before: string, hasPageStyle: bool, f: Format): string {
    match ActiveDims(f)
    case None => before
    case Some(d) => if hasPageStyle then PageRule(OrientedSize(d, f.orientation)) else before
  }

  /** The elements of the document the engine reads and writes. */
  class Document {
    /** document.documentElement.style: custom property name to value */
    var style: map<string, string>
    /** whether #dynamic-page-style exists, and its text */
    const hasPageStyle: bool
    var pageStyle: string
    /** whether #flyer-container exists, and its children */
    const hasContainer: bool
    var container: seq<Node>
    /** whether #flyer-info exists, and the summary written into it (None before the first write) */
    const hasInfo: bool
    var info: Option<Summary>

    constructor (style: map<string, string>, hasPageStyle: bool, pageStyle: string,
                 hasContainer: bool, container: seq<Node>, hasInfo: bool)
      ensures this.style == style && this.hasPageStyle == hasPageStyle && this.pageStyle == pageStyle
      ensures this.hasContainer == hasContainer && this.container == container
      ensures this.hasInfo == hasInfo && info == None
    {
      this.style := style;
      this.hasPageStyle := hasPageStyle;
      this.pageStyle := pageStyle;
      this.hasContainer := hasContainer;
      this.container := container;
      this.hasInfo := hasInfo;
      info := None;
    }
  }

  /** The configuration file an engine reads when none is named. */
  const DefaultConfigPath := "flyer-config.json"

  class FlyerEngine {
    const configPath: string
    const doc: Document
    var config: Option<Config>

    constructor (configPath: string, doc: Document)
      ensures this.configPath == configPath && this.doc == doc && config == None
    {
      this.configPath := configPath;
      this.doc := doc;
      config := None;
    }

    /** `new FlyerEngine()`: the engine for the default configuration file. */
    constructor WithDefaultPath(doc: Document)
      ensures configPath == DefaultConfigPath && this.doc == doc && config == None
    {
      configPath := DefaultConfigPath;
      this.doc := doc;
      config := None;
    }

    /** loadConfig: keeps the old config when the file cannot be read or parsed. */
    method LoadConfig(fetched: Fetched) returns (err: Option<InitError>)
      modifies this`config
      ensures fetched.HttpError? ==> err == Some(ConfigNotFound(configPath)) && config == old(config)
      ensures fetched.InvalidJson? ==> err == Some(JsonError) && config == old(config)
      ensures fetched.Loaded? ==> err == None && config == Some(fetched.config)
    {
      match fetched
      case HttpError => err := Some(ConfigNotFound(configPath));
      case InvalidJson => err := Some(JsonError);
      case Loaded(c) =>
        config := Some(c);
        err := None;
    }

    /** applyColors: sets the nine colour variables (distinct names, so their order is immaterial). */
    method ApplyColors()
      requires config.Some?
      modifies doc`style
      ensures doc.style == SetProperties(old(doc.style), ColorVariables(config.value.colors))
    {
      doc.style := SetProperties(doc.style, ColorVariables(config.value.colors));
    }

    /** applyFonts: sets the three font stacks and their bare family names. */
    method ApplyFonts()
      requires config.Some?
      modifies doc`style
      ensures doc.style == SetProperties(old(doc.style), FontVariables(config.value.fonts))
    {
      doc.style := SetProperties(doc.style, FontVariables(config.value.fonts));
    }

    /**
     * applyFormat: for a format present in the table, writes the oriented
     * size to the page variables and the @page rule; for a missing one it
     * only warns (`found` is false) and changes nothing.
     */
    method ApplyFormat() returns (found: bool)
      requires config.Some?
      modifies doc`style, doc`pageStyle
      ensures found <==> config.value.format.active in config.value.format.options
      ensures !found ==> doc.style == old(doc.style) && doc.pageStyle == old(doc.pageStyle)
      ensures found ==>
                var p := OrientedSize(config.value.format.options[config.value.format.active],
                                      config.value.format.orientation);
                && doc.style == SetProperty(SetProperty(old(doc.style), PageWidthVar, p.width), PageHeightVar, p.height)
                && doc.pageStyle == (if doc.hasPageStyle then PageRule(p) else old(doc.pageStyle))
      ensures doc.style == SetProperties(old(doc.style), PageVariables(config.value.format))
      ensures doc.pageStyle == PageStyleAfter(old(doc.pageStyle), doc.hasPageStyle, config.value.format)
    {
      var fmt := config.value.format;
      var dims := ActiveDims(fmt);
      if dims.None? {
        return false;
      }
      var isLandscape := fmt.orientation == "querformat";
      var w := if isLandscape then dims.value.height else dims.value.width;
      var h := if isLandscape then dims.value.width else dims.value.height;
      PageWritesAreSetProperties(doc.style, fmt);
      doc.style := SetProperty(doc.style, PageWidthVar, w);
      doc.style := SetProperty(doc.style, PageHeightVar, h);
      if doc.hasPageStyle {
        doc.pageStyle := "@page { size: " + w + " " + h + "; margin: 0; }";
      }
      found := true;
    }

    /**
     * buildSpreads: returns early, leaving the container alone, when there
     * is no container or the layout is missing; otherwise clears it and
     * appends a label and a spread for each group. With the format missing,
     * the first spread's width reads `dims.width` of undefined: the label is
     * already appended when that throws.
     */
    method BuildSpreads() returns (r: BuildResult)
      requires config.Some?
      modifies doc`container
      ensures r == BuildOutcome(doc.hasContainer, config.value)
      ensures doc.container == ContainerAfterBuild(old(doc.container), doc.hasContainer, config.value)
    {
      if !doc.hasContainer {
        return NoContainer;
      }
      var cfg := config.value;
      var layoutDef := ActiveLayout(cfg.layout);
      if layoutDef.None? {
        return LayoutNotFound;
      }
      var panelCount := layoutDef.value.panels;
      var dims := ActiveDims(cfg.format);
      doc.container := [];
      var groups := GroupPanelsIntoSpreads(panelCount, cfg.layout.active);
      var i := 0;
      while i < |groups|
        invariant 0 <= i <= |groups|
        invariant dims.Some? || i == 0
        invariant dims.Some? ==> doc.container == RenderGroups(groups[..i], dims.value, cfg.panels)
        invariant dims.None? ==> doc.container == []
      {
        var g := groups[i];
        doc.container := doc.container + [Label(g.title)];
        if dims.None? {
          return DimsUndefined;
        }
        var d := dims.value;
        var width := SpreadWidth(d.width, |g.panels|);
        var els := BuildPanels(cfg.panels, g.panels);
        doc.container := doc.container + [Spread(width, d.height, g.reverse, els)];
        assert groups[..i + 1][..i] == groups[..i];
        assert doc.container == RenderGroups(groups[..i + 1], d, cfg.panels);
        i := i + 1;
      }
      assert groups[..i] == groups;
      r := Built;
    }

    /**
     * The inner loop of buildSpreads: the panels of one spread in array
     * order, each with its content record and, except for the last, a fold line.
     */
    static method BuildPanels(panels: map<string, PanelData>, indices: seq<nat>) returns (els: seq<PanelEl>)
      ensures els == SpreadPanels(panels, indices)
    {
      els := [];
      var pos := 0;
      while pos < |indices|
        invariant 0 <= pos <= |indices|
        invariant |els| == pos
        invariant forall k :: 0 <= k < pos ==> els[k] == PanelAt(panels, indices, k)
      {
        var index := indices[pos];
        var el := CreatePanel(index, ContentOf(panels, index));
        if pos < |indices| - 1 {
          el := el.(foldLine := true);
        }
        els := els + [el];
        pos := pos + 1;
      }
    }

    /** updateInfoHeader: writes the summary when the info element exists. */
    method UpdateInfoHeader()
      requires config.Some?
      modifies doc`info
      ensures doc.info == if doc.hasInfo then Some(InfoSummary(config.value)) else old(doc.info)
    {
      if !doc.hasInfo {
        return;
      }
      doc.info := Some(InfoSummary(config.value));
    }

    /**
     * init: load, colours, fonts, format, spreads, info header, in that
     * order. A failed load stops before any page change; a missing format
     * stops inside buildSpreads, so the info header is not written.
     */
    method Init(fetched: Fetched) returns (outcome: InitOutcome)
      modifies this`config, doc`style, doc`pageStyle, doc`container, doc`info
      ensures !fetched.Loaded? ==>
                && outcome == Failed(if fetched.HttpError? then ConfigNotFound(configPath) else JsonError)
                && config == old(config)
                && doc.style == old(doc.style) && doc.pageStyle == old(doc.pageStyle)
                && doc.container == old(doc.container) && doc.info == old(doc.info)
      ensures fetched.Loaded? ==>
                var c := fetched.config;
                && config == Some(c)
                && doc.style == StyleAfterTheme(old(doc.style), c)
                && doc.pageStyle == PageStyleAfter(old(doc.pageStyle), doc.hasPageStyle, c.format)
                && doc.container == ContainerAfterBuild(old(doc.container), doc.hasContainer, c)
                && outcome == (if BuildOutcome(doc.hasContainer, c) == DimsUndefined then Failed(UndefinedDims) else Completed)
                && doc.info == (if outcome == Completed && doc.hasInfo then Some(InfoSummary(c)) else old(doc.info))
    {
      var err := LoadConfig(fetched);
      if err.Some? {
        return Failed(err.value);
      }
      ApplyColors();
      ApplyFonts();
      var found := ApplyFormat();
      var built := BuildSpreads();
      if built == DimsUndefined {
        return Failed(UndefinedDims);
      }
      UpdateInfoHeader();
      outcome := Completed;
    }
  }

  /**
   * Building twice on an unchanged configuration reports the same outcome
   * and leaves the same children as building once.
   */
  method RebuildIsIdempotent(engine: FlyerEngine) returns (first: BuildResult, once: seq<Node>, second: BuildResult)
    requires engine.config.Some?
    modifies engine.doc`container
    ensures second == first && engine.doc.container == once
  {
    ghost var before := engine.doc.container;
    first := engine.BuildSpreads();
    once := engine.doc.container;
    second := engine.BuildSpreads();
    ContainerAfterBuildIdempotent(before, engine.doc.hasContainer, engine.config.value);
  }
}

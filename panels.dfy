/** createPanel: the content record of one panel mapped to the panel's parts. */
module PanelContent {
  import opened FlyerConfig
  import opened Text

  /** The panel's main area: the configured markup, or the placeholder box. */
  datatype Body = Markup(html: string) | Placeholder(title: string, caption: string)

  /**
   * A built panel element. `heading`, `subheading` and `footer` are None
   * where the element is left empty; `foldLine` is whether buildSpreads
   * appended a fold-line child.
   */
  datatype PanelEl = PanelEl(
    index: nat, role: string,
    heading: Option<string>, subheading: Option<string>,
    body: Body, footer: Option<string>, foldLine: bool)

  /** A text part appears only when the config gives a truthy value. */
  function Shown(o: Option<string>): Option<string> {
    if Truthy(o) then o else None
  }

  /** The placeholder title naming the panel. */
  function PanelTitle(index: nat): string {
    "Panel " + NatToString(index)
  }

  /** The panel for `index` built from its content record, before any fold line. */
  function CreatePanel(index: nat, data: PanelData): (p: PanelEl)
    ensures p.index == index && !p.foldLine
    ensures p.role == (if Truthy(data.role) then data.role.value else "")
    ensures p.heading.Some? <==> Truthy(data.heading)
    ensures p.heading.Some? ==> p.heading == data.heading
    ensures p.subheading.Some? <==> Truthy(data.subheading)
    ensures p.subheading.Some? ==> p.subheading == data.subheading
    ensures p.footer.Some? <==> Truthy(data.footer)
    ensures p.footer.Some? ==> p.footer == data.footer
    ensures p.body.Markup? <==> Truthy(data.body)
    ensures p.body.Markup? ==> p.body.html == data.body.value
  {
    var body := if Truthy(data.body) then Markup(data.body.value)
                else Placeholder(PanelTitle(index), OrElse(data.role, "content"));
    PanelEl(index, OrElse(data.role, ""), Shown(data.heading), Shown(data.subheading),
            body, Shown(data.footer), false)
  }

  /**
   * A placeholder names its own panel: the number after "Panel " reads back
   * as the index, and its caption is the role, or "content" when there is none.
   */
  lemma PlaceholderIdentifiesPanel(index: nat, data: PanelData)
    requires !Truthy(data.body)
    ensures var p := CreatePanel(index, data);
            && p.body.Placeholder?
            && |p.body.title| > 6 && p.body.title[..6] == "Panel "
            && AllDigits(p.body.title[6..]) && DigitsValue(p.body.title[6..]) == index
            && p.body.caption == (if p.role == "" then "content" else p.role)
  {
    var t := CreatePanel(index, data).body.title;
    assert t[6..] == NatToString(index);
    DigitsValueOfNatToString(index);
  }

  /** A panel without a content record is blank apart from its placeholder. */
  lemma MissingRecordGivesPlaceholder(index: nat)
    ensures CreatePanel(index, NoContent)
            == PanelEl(index, "", None, None, Placeholder(PanelTitle(index), "content"), None, false)
  {
  }
}

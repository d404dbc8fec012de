/** The configuration record the flyer engine reads (the parsed flyer-config.json). */
module FlyerConfig {

  datatype Option<+T> = None | Some(value: T)

  /** Theme colours, one CSS value per named slot. */
  datatype Colors = Colors(
    primary: string, primaryText: string,
    secondary: string, secondaryText: string,
    background: string, textMain: string, textMuted: string,
    accent: string, border: string)

  /** Font-family lists, e.g. "'Space Grotesk', sans-serif". */
  datatype Fonts = Fonts(heading: string, body: string, mono: string)

  /** One entry of format.options, both sides with their unit, e.g. "105mm". */
  datatype Dims = Dims(width: string, height: string)

  datatype Format = Format(active: string, orientation: string, options: map<string, Dims>)

  /** One entry of layout.options: its `label` (here `title`) and the declared number of panels. */
  datatype LayoutDef = LayoutDef(title: string, panels: nat)

  datatype Layout = Layout(active: string, options: map<string, LayoutDef>)

  /** The content record of one panel; every field may be absent. */
  datatype PanelData = PanelData(
    role: Option<string>, heading: Option<string>, subheading: Option<string>,
    body: Option<string>, footer: Option<string>)

  datatype Branding = Branding(companyName: Option<string>)

  /** panels is keyed by the decimal spelling of the 1-based panel index. */
  datatype Config = Config(
    colors: Colors, fonts: Fonts, format: Format, layout: Layout,
    panels: map<string, PanelData>, branding: Branding)

  /** The `{}` that stands in for a missing content record. */
  const NoContent := PanelData(None, None, None, None, None)

  /** JavaScript truthiness of an optional string: present and not empty. */
  predicate Truthy(o: Option<string>) {
    o.Some? && o.value != ""
  }

  /** `o || fallback` for an optional string. */
  function OrElse(o: Option<string>, fallback: string): string
  {
    if Truthy(o) then o.value else fallback
  }

  /** `fmt.options[fmt.active]`, absent when the active format has no entry. */
  function ActiveDims(f: Format): Option<Dims>
  {
    if f.active in f.options then Some(f.options[f.active]) else None
  }

  /** `layout.options[layout.active]`, absent when the active layout has no entry. */
  function ActiveLayout(l: Layout): Option<LayoutDef>
  {
    if l.active in l.options then Some(l.options[l.active]) else None
  }
}

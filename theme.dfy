/** The CSS custom properties applyColors and applyFonts write on the document root. */
module Theme {
  import opened FlyerConfig
  import opened Text

  /** `--color-<slot>`, `--font-<slot>` and `--page-<slot>`: the three families of variables. */
  const ColorPrefix := "--color-"
  const FontPrefix := "--font-"
  const PagePrefix := "--page-"

  /** The variable names of one family. */
  function Family(prefix: string, slots: set<string>): set<string> {
    set slot | slot in slots :: prefix + slot
  }

  /** The nine colour slots: `--color-<slot>` holds the colour configured for it. */
  const ColorSlots: set<string> :=
    {"primary", "primary-text", "secondary", "secondary-text", "background",
     "text-main", "text-muted", "accent", "border"}

  /** The configured colour for a slot. */
  function ColorOf(c: Colors, slot: string): string {
    if slot == "primary" then c.primary
    else if slot == "primary-text" then c.primaryText
    else if slot == "secondary" then c.secondary
    else if slot == "secondary-text" then c.secondaryText
    else if slot == "background" then c.background
    else if slot == "text-main" then c.textMain
    else if slot == "text-muted" then c.textMuted
    else if slot == "accent" then c.accent
    else c.border
  }

  /** The nine colour variables, each set to the configured colour verbatim. */
  function ColorVariables(c: Colors): map<string, string> {
    VarNamesInjective(ColorPrefix);
    map slot | slot in ColorSlots :: ColorPrefix + slot := ColorOf(c, slot)
  }

  /** Distinct slots give distinct variable names within one family. */
  lemma VarNamesInjective(prefix: string)
    ensures forall a, b :: prefix + a == prefix + b ==> a == b
  {
    forall a, b | prefix + a == prefix + b ensures a == b {
      assert a == (prefix + a)[|prefix|..];
      assert b == (prefix + b)[|prefix|..];
    }
  }

  /**
   * The bare family name of a font stack: the first comma-separated entry,
   * without single quotes and without surrounding whitespace.
   */
  function FontName(stack: string): string {
    Trim(RemoveQuotes(FirstSegment(stack)))
  }

  /**
   * The family name has no comma, no quote and no surrounding whitespace,
   * and every character of it comes from the stack.
   */
  lemma FontNameShape(stack: string)
    ensures var name := FontName(stack);
            && ',' !in name && '\'' !in name && Trimmed(name)
            && forall c :: c in name ==> c in stack
  {
  }

  /** A name with no comma, no quote and no surrounding whitespace is its own family name. */
  lemma FontNameOfBareName(s: string)
    requires ',' !in s && '\'' !in s && Trimmed(s)
    ensures FontName(s) == s
  {
    assert FirstSegment(s) == s;
  }

  /** Extracting the family name twice changes nothing. */
  lemma FontNameIdempotent(stack: string)
    ensures FontName(FontName(stack)) == FontName(stack)
  {
    FontNameShape(stack);
    FontNameOfBareName(FontName(stack));
  }

  /**
   * A stack whose first entry is a bare name, quoted or not, yields that name:
   * `'Space Grotesk', sans-serif` and `Space Grotesk,sans-serif` both give `Space Grotesk`.
   */
  lemma FontNameOfStack(name: string, rest: string)
    requires ',' !in name && '\'' !in name && Trimmed(name)
    ensures FontName(name + "," + rest) == name
    ensures FontName("'" + name + "'," + rest) == name
  {
    FirstSegmentBeforeComma(name, rest);
    FontNameOfBareName(name);
    FontNameOfQuotedStack(name, rest);
  }

  lemma FontNameOfQuotedStack(name: string, rest: string)
    requires ',' !in name && '\'' !in name && Trimmed(name)
    ensures FontName("'" + name + "'," + rest) == name
  {
    var quoted := "'" + name + "'";
    assert "'" + name + "'," + rest == quoted + "," + rest;
    FirstSegmentBeforeComma(quoted, rest);
    assert RemoveQuotes(quoted) == name by {
      assert quoted == "'" + (name + "'");
      RemoveQuotesConcat("'", name + "'");
      RemoveQuotesConcat(name, "'");
    }
  }

  lemma {:induction false} FirstSegmentBeforeComma(a: string, b: string)
    requires ',' !in a
    ensures FirstSegment(a + "," + b) == a
  {
    if a != [] {
      assert (a + "," + b)[1..] == a[1..] + "," + b;
      FirstSegmentBeforeComma(a[1..], b);
    }
  }

  /** The font slots: the three stacks and, under `-name`, their bare family names. */
  const FontSlots: set<string> :=
    {"heading", "body", "mono", "heading-name", "body-name", "mono-name"}

  /** The value written for a font slot. */
  function FontOf(f: Fonts, slot: string): string {
    if slot == "heading" then f.heading
    else if slot == "body" then f.body
    else if slot == "mono" then f.mono
    else if slot == "heading-name" then FontName(f.heading)
    else if slot == "body-name" then FontName(f.body)
    else FontName(f.mono)
  }

  /** The six font variables. */
  function FontVariables(f: Fonts): map<string, string> {
    VarNamesInjective(FontPrefix);
    map slot | slot in FontSlots :: FontPrefix + slot := FontOf(f, slot)
  }

  const PageWidthVar := PagePrefix + "width"
  const PageHeightVar := PagePrefix + "height"

  /**
   * Colour, font and page-size variables have pairwise distinct names
   * ("--c…", "--f…", "--p…"), so no step of init overwrites a variable an
   * earlier step wrote.
   */
  lemma VariableNamesDisjoint(c: Colors, f: Fonts)
    ensures ColorVariables(c).Keys !! FontVariables(f).Keys
    ensures PageWidthVar !in ColorVariables(c) && PageWidthVar !in FontVariables(f)
    ensures PageHeightVar !in ColorVariables(c) && PageHeightVar !in FontVariables(f)
  {
    PrefixTags();
    ColorNamesTagged(c);
    FontNamesTagged(f);
    NameTag(PagePrefix, "width");
    NameTag(PagePrefix, "height");
  }

  /** The two page variables are distinct names. */
  lemma PageVarsDistinct()
    ensures PageWidthVar != PageHeightVar
  {
    assert PageWidthVar[|PagePrefix|] == 'w' && PageHeightVar[|PagePrefix|] == 'h';
  }

  /** The third character tells the families apart. */
  lemma PrefixTags()
    ensures |ColorPrefix| > 2 && ColorPrefix[2] == 'c'
    ensures |FontPrefix| > 2 && FontPrefix[2] == 'f'
    ensures |PagePrefix| > 2 && PagePrefix[2] == 'p'
  {
  }

  lemma ColorNamesTagged(c: Colors)
    ensures forall k :: k in ColorVariables(c) ==> |k| > 2 && k[2] == ColorPrefix[2]
  {
    assert ColorVariables(c).Keys == Family(ColorPrefix, ColorSlots);
    PrefixTags();
    FamilyTagged(ColorPrefix, ColorSlots);
  }

  lemma FontNamesTagged(f: Fonts)
    ensures forall k :: k in FontVariables(f) ==> |k| > 2 && k[2] == FontPrefix[2]
  {
    assert FontVariables(f).Keys == Family(FontPrefix, FontSlots);
    PrefixTags();
    FamilyTagged(FontPrefix, FontSlots);
  }

  lemma FamilyTagged(prefix: string, slots: set<string>)
    requires |prefix| > 2
    ensures forall k :: k in Family(prefix, slots) ==> |k| > 2 && k[2] == prefix[2]
  {
    forall k | k in Family(prefix, slots) ensures |k| > 2 && k[2] == prefix[2] {
      var slot :| slot in slots && k == prefix + slot;
      NameTag(prefix, slot);
    }
  }

  lemma NameTag(prefix: string, slot: string)
    requires |prefix| > 2
    ensures (prefix + slot)[2] == prefix[2]
  {
  }
}

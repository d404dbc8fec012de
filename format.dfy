/** Resolving the page size applyFormat writes: orientation swap and the @page rule. */
module PageFormat {
  import opened FlyerConfig

  /** Only the exact German key "querformat" selects landscape. */
  predicate IsLandscape(orientation: string) {
    orientation == "querformat"
  }

  datatype PageSize = PageSize(width: string, height: string)

  /** The page size of a format entry under an orientation. */
  function OrientedSize(d: Dims, orientation: string): PageSize
  {
    if IsLandscape(orientation) then PageSize(d.height, d.width) else PageSize(d.width, d.height)
  }

  /**
   * The sides change exactly when the orientation is "querformat" (and the
   * entry is not square); any other string keeps them as they are.
   */
  lemma SwapExactlyWhenLandscape(d: Dims, orientation: string)
    ensures OrientedSize(d, orientation) != PageSize(d.width, d.height)
            <==> IsLandscape(orientation) && d.width != d.height
    ensures IsLandscape(orientation) ==> OrientedSize(d, orientation) == PageSize(d.height, d.width)
  {
  }

  /** Orienting the oriented size once more undoes the swap. */
  lemma OrientTwiceIsIdentity(d: Dims, orientation: string)
    ensures var p := OrientedSize(d, orientation);
            OrientedSize(Dims(p.width, p.height), orientation) == PageSize(d.width, d.height)
  {
  }

  /** Landscape is portrait with the sides exchanged, for every non-landscape key. */
  lemma LandscapeIsSwappedPortrait(d: Dims, portrait: string)
    requires !IsLandscape(portrait)
    ensures OrientedSize(d, "querformat").width == OrientedSize(d, portrait).height
    ensures OrientedSize(d, "querformat").height == OrientedSize(d, portrait).width
  {
  }

  /** The English "landscape" is not recognised and leaves the sides as they are. */
  lemma EnglishLandscapeIsPortrait(d: Dims)
    ensures OrientedSize(d, "landscape") == PageSize(d.width, d.height)
  {
  }

  /** An A6 entry of 105mm x 148mm, upright and after the switch to "querformat". */
  lemma A6Example()
    ensures OrientedSize(Dims("105mm", "148mm"), "hochformat") == PageSize("105mm", "148mm")
    ensures OrientedSize(Dims("105mm", "148mm"), "querformat") == PageSize("148mm", "105mm")
  {
  }

  /** The text of the dynamic @page style sheet: the size and no margin. */
  function PageRule(p: PageSize): string {
    "@page { size: " + p.width + " " + p.height + "; margin: 0; }"
  }
}

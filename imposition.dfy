/**
 * groupPanelsIntoSpreads: the fixed imposition table that splits the panel
 * indices of a layout into spreads (sheet sides), each with a reversal flag.
 */
module Imposition {

  /** One spread to build: its label (`title`), its panel indices in order, and whether it runs right to left. */
  datatype Group = Group(title: string, panels: seq<nat>, reverse: bool)

  const SimpleCard := "einfach"
  const TwoFold := "2-falz"
  const ThreeFold := "3-falz"

  /** The layout keys the table knows; any other key takes the fallback branch. */
  predicate IsTableLayout(key: string) {
    key == SimpleCard || key == TwoFold || key == ThreeFold
  }

  /** The number of panels the table lays out for a key it knows. */
  function TablePanelCount(key: string): nat
    requires IsTableLayout(key)
  {
    if key == SimpleCard then 2 else if key == TwoFold then 4 else 6
  }

  /** [1, 2, ..., n] */
  function Ascending(n: nat): seq<nat> {
    seq(n, i => i + 1)
  }

  /** The spreads of a layout; the declared panel count matters only in the fallback branch. */
  function GroupPanelsIntoSpreads(panelCount: nat, layoutKey: string): seq<Group> {
    if layoutKey == SimpleCard then
      [Group("Grußkarte – Außenseite", [1, 2], false)]
    else if layoutKey == TwoFold then
      [Group("Seite 1: Außenseite", [1, 2], true),
       Group("Seite 2: Innenseite", [3, 4], false)]
    else if layoutKey == ThreeFold then
      [Group("Seite 1: Außenseite", [1, 2, 3], true),
       Group("Seite 2: Innenseite", [4, 5, 6], false)]
    else
      [Group("Alle Panels", Ascending(panelCount), false)]
  }

  /** The panel indices of all spreads, spread after spread. */
  function AllPanels(gs: seq<Group>): seq<nat> {
    if gs == [] then [] else AllPanels(gs[..|gs| - 1]) + gs[|gs| - 1].panels
  }

  /** No index occurs twice. */
  predicate NoRepeats(s: seq<nat>) {
    forall i, j :: 0 <= i < j < |s| ==> s[i] != s[j]
  }

  /** s holds each of 1..n exactly once and nothing else. */
  ghost predicate ExactCover(s: seq<nat>, n: nat) {
    |s| == n && NoRepeats(s) && forall k :: k in s <==> 1 <= k <= n
  }

  /** Ascending(n) is an exact cover of 1..n. */
  lemma AscendingIsExactCover(n: nat)
    ensures ExactCover(Ascending(n), n)
  {
    var s := Ascending(n);
    forall k | 1 <= k <= n ensures k in s {
      assert s[k - 1] == k;
    }
  }

  /** The table's known keys ignore the declared panel count. */
  lemma TableIgnoresPanelCount(m: nat, n: nat, key: string)
    requires IsTableLayout(key)
    ensures GroupPanelsIntoSpreads(m, key) == GroupPanelsIntoSpreads(n, key)
  {
  }

  /**
   * Read spread after spread, the panels are 1..N in ascending order, where
   * N is the table's count for a known key and the declared count otherwise.
   */
  lemma {:induction false} SpreadsListPanelsInOrder(panelCount: nat, key: string)
    ensures AllPanels(GroupPanelsIntoSpreads(panelCount, key))
            == Ascending(if IsTableLayout(key) then TablePanelCount(key) else panelCount)
  {
    var gs := GroupPanelsIntoSpreads(panelCount, key);
    if key == SimpleCard {
      assert AllPanels(gs) == [1, 2];
    } else if key == TwoFold || key == ThreeFold {
      var first := gs[..1];
      assert first[..0] == [];
      assert AllPanels(first) == gs[0].panels;
      assert AllPanels(gs) == gs[0].panels + gs[1].panels;
    } else {
      assert gs[..0] == [];
    }
  }

  /**
   * The spreads partition 1..panelCount exactly when the key is not in the
   * table or the declared count is the table's own; a known key with another
   * declared count still yields the table's panels.
   */
  lemma SpreadsPartitionIff(panelCount: nat, key: string)
    ensures ExactCover(AllPanels(GroupPanelsIntoSpreads(panelCount, key)), panelCount)
            <==> !IsTableLayout(key) || panelCount == TablePanelCount(key)
  {
    var n := if IsTableLayout(key) then TablePanelCount(key) else panelCount;
    SpreadsListPanelsInOrder(panelCount, key);
    AscendingIsExactCover(n);
  }

  /**
   * Only the first spread of the two folded layouts is reversed; the simple
   * card and the fallback spread read left to right.
   */
  lemma ReversalRule(panelCount: nat, key: string)
    ensures var gs := GroupPanelsIntoSpreads(panelCount, key);
            forall i :: 0 <= i < |gs| ==> (gs[i].reverse <==> i == 0 && (key == TwoFold || key == ThreeFold))
  {
  }

  /** Spread counts: one for the simple card and the fallback, two for the folded layouts. */
  lemma SpreadCount(panelCount: nat, key: string)
    ensures |GroupPanelsIntoSpreads(panelCount, key)| == if key == TwoFold || key == ThreeFold then 2 else 1
  {
  }

  /** The documented English keys fall through to the single fallback spread. */
  lemma EnglishKeysFallBack(panelCount: nat)
    ensures GroupPanelsIntoSpreads(panelCount, "2-fold") == [Group("Alle Panels", Ascending(panelCount), false)]
    ensures GroupPanelsIntoSpreads(panelCount, "3-fold") == [Group("Alle Panels", Ascending(panelCount), false)]
    ensures GroupPanelsIntoSpreads(panelCount, "simple") == [Group("Alle Panels", Ascending(panelCount), false)]
  {
  }
}

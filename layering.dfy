/**
 * Layering of stickers. A sticker's priority is set from a clock reading:
 * on creation and on "bring to top" it is the reading itself, on "bring to
 * bottom" its negation. compareTo orders stickers by priority.
 */
module Layering {

  /** The last placement of a sticker: to the front (also creation) or to the back, at a clock reading. */
  datatype Placement = Front(at: int) | Back(at: int)

  /** The priority a placement leaves behind. */
  function Key(p: Placement): int
  {
    match p
    case Front(t) => t
    case Back(t) => -t
  }

  /** Three-way comparison of two priorities, as compareTo. */
  function Compare(mine: int, other: int): (r: int)
    ensures r == 1 <==> mine > other
    ensures r == -1 <==> mine < other
    ensures r == 0 <==> mine == other
  {
    if mine > other then 1
    else if mine < other then -1
    else 0
  }

  lemma CompareAntisymmetric(a: int, b: int)
    ensures Compare(a, b) == -Compare(b, a)
  {
  }

  lemma CompareTransitive(a: int, b: int, c: int)
    ensures Compare(a, b) >= 0 && Compare(b, c) >= 0 ==> Compare(a, c) >= 0
    ensures Compare(a, b) > 0 && Compare(b, c) >= 0 ==> Compare(a, c) > 0
  {
  }

  /** A placement to the front made later than p (on a positive clock) is above p. */
  lemma LaterFrontWins(p: Placement, q: Placement)
    requires 0 < p.at < q.at && q.Front?
    ensures Compare(Key(q), Key(p)) == 1
  {
  }

  /** A placement to the back made later than p (on a positive clock) is below p. */
  lemma LaterBackLoses(p: Placement, q: Placement)
    requires 0 < p.at < q.at && q.Back?
    ensures Compare(Key(q), Key(p)) == -1
  {
  }

  /** On a positive clock, a back placement is below every front placement, earlier or later. */
  lemma BackBelowEveryFront(back: Placement, front: Placement)
    requires back.Back? && front.Front? && back.at > 0 && front.at > 0
    ensures Compare(Key(back), Key(front)) == -1
  {
  }

  /** The clock readings of a history of placements are positive and strictly increasing. */
  ghost predicate Increasing(history: seq<Placement>)
  {
    && (forall i :: 0 <= i < |history| ==> history[i].at > 0)
    && (forall i, j :: 0 <= i < j < |history| ==> history[i].at < history[j].at)
  }

  /**
   * Whatever stickers a session's placements were made on, the latest
   * placement is above every earlier one when it was to the front and below
   * every earlier one when it was to the back.
   */
  lemma LatestPlacementDecides(history: seq<Placement>)
    requires Increasing(history) && |history| > 0
    ensures var last := history[|history| - 1];
      forall i :: 0 <= i < |history| - 1 ==>
        Compare(Key(last), Key(history[i])) == (if last.Front? then 1 else -1)
  {
    var last := history[|history| - 1];
    forall i | 0 <= i < |history| - 1
      ensures Compare(Key(last), Key(history[i])) == (if last.Front? then 1 else -1)
    {
      if last.Front? {
        LaterFrontWins(history[i], last);
      } else {
        LaterBackLoses(history[i], last);
      }
    }
  }
}

/** The badge grid (components/Badges.tsx): one card per catalogue badge,
    unlocked once the user's points reach its threshold, with a progress bar
    on the locked ones. */
module BadgeGrid {
  import opened Wrappers
  import opened Types
  import opened Constants

  /** `userPoints >= badge.pointsRequired`. */
  predicate IsUnlocked(points: int, badge: Badge) {
    points >= badge.pointsRequired
  }

  /** `Math.min((userPoints / badge.pointsRequired) * 100, 100)`, for a
      positive threshold (every catalogue badge has one). */
  function Progress(points: int, required: int): (p: real)
    requires required > 0
    ensures p <= 100.0
    ensures p == 100.0 <==> points >= required
    ensures points < required ==> p * required as real == points as real * 100.0
    ensures points >= 0 ==> p >= 0.0
  {
    var ratio := (points as real / required as real) * 100.0;
    if ratio < 100.0 then ratio else 100.0
  }

  /** More points never mean less progress. */
  lemma ProgressMonotone(p: int, q: int, required: int)
    requires required > 0 && p <= q
    ensures Progress(p, required) <= Progress(q, required)
  {
    var r := required as real;
    assert p as real / r <= q as real / r by {
      assert p as real / r * r == p as real;
      assert q as real / r * r == q as real;
    }
  }

  /** One rendered card: the badge, its check mark and, when locked, the
      width of its progress bar. */
  datatype Card = Card(badge: Badge, unlocked: bool, bar: Option<real>)

  function CardOf(points: int, badge: Badge): Card
    requires badge.pointsRequired > 0
  {
    var unlocked := IsUnlocked(points, badge);
    Card(badge, unlocked, if unlocked then None else Some(Progress(points, badge.pointsRequired)))
  }

  /** `BADGES_LIST.map(...)`: one card per badge, in catalogue order; a card
      is unlocked exactly when the points reach its threshold, and only a
      locked card carries a bar, whose width stays below 100. */
  function Cards(points: int): (cards: seq<Card>)
    ensures |cards| == |BadgesList|
    ensures forall i :: 0 <= i < |cards| ==> cards[i].badge == BadgesList[i]
    ensures forall i :: 0 <= i < |cards| ==>
      (cards[i].unlocked <==> points >= BadgesList[i].pointsRequired)
    ensures forall i :: 0 <= i < |cards| ==> (cards[i].bar.Some? <==> !cards[i].unlocked)
    ensures forall i :: 0 <= i < |cards| && cards[i].bar.Some? ==> cards[i].bar.value < 100.0
  {
    BadgeThresholds();
    seq(|BadgesList|, i requires 0 <= i < |BadgesList| => CardOf(points, BadgesList[i]))
  }

  /** Earning points never locks a badge again. */
  lemma UnlockMonotone(p: int, q: int, i: nat)
    requires p <= q && i < |BadgesList|
    ensures Cards(p)[i].unlocked ==> Cards(q)[i].unlocked
  {
  }

  /** Because the thresholds increase along the catalogue, the unlocked
      badges are always a prefix of the grid. */
  lemma UnlockedArePrefix(points: int, i: nat, j: nat)
    requires i < j < |BadgesList|
    ensures Cards(points)[j].unlocked ==> Cards(points)[i].unlocked
  {
    BadgeThresholds();
  }

  /** The new-user profile (0 points) has every badge locked with an empty
      bar, and 1000 points unlock them all. */
  lemma GridExtremes()
    ensures forall i :: 0 <= i < |BadgesList| ==> Cards(0)[i].bar == Some(0.0)
    ensures forall i :: 0 <= i < |BadgesList| ==> Cards(1000)[i].unlocked
  {
    BadgeThresholds();
  }
}

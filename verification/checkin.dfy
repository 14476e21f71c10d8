/** The arithmetic of the daily check-in (`daily_checkin`): four slider ratings in
    0..10 become a score in 0..100, which is then labelled like a chat score. */
module DailyCheckin {
  import opened Labels

  /** A slider value: an integer from 0 to 10. */
  predicate IsRating(x: int) {
    0 <= x <= 10
  }

  /** Python's `int(x)`: truncation toward zero. */
  function Truncate(x: real): int {
    if x >= 0.0 then x.Floor else -((-x).Floor)
  }

  /** Halving a natural number and truncating is integer division by two. */
  lemma TruncateHalf(n: nat)
    ensures Truncate(n as real / 2.0) == n / 2
  {
    var q := n / 2;
    assert n as real / 2.0 == q as real + (n % 2) as real / 2.0;
  }

  /** `int((mood + energy + sleep + (10 - stress)) / 4 * 10)`, with the division
      and multiplication taken exactly. The score is five halves of the rating
      total (stress counted inverted), truncated, so it lies in 0..100. */
  function CheckinScore(mood: int, energy: int, sleep: int, stress: int): (score: int)
    requires IsRating(mood) && IsRating(energy) && IsRating(sleep) && IsRating(stress)
    ensures score == (5 * (mood + energy + sleep + 10 - stress)) / 2
    ensures 0 <= score <= 100
  {
    var total := mood + energy + sleep + (10 - stress);
    assert total as real / 4.0 * 10.0 == (5 * total) as real / 2.0;
    TruncateHalf(5 * total);
    Truncate(total as real / 4.0 * 10.0)
  }

  /** The score and label the check-in shows. */
  function Checkin(mood: int, energy: int, sleep: int, stress: int): (r: (int, Label))
    requires IsRating(mood) && IsRating(energy) && IsRating(sleep) && IsRating(stress)
    ensures r.0 == (5 * (mood + energy + sleep + 10 - stress)) / 2
    ensures 0 <= r.0 <= 100
    ensures r.1 == LabelOf(r.0)
  {
    var score := CheckinScore(mood, energy, sleep, stress);
    (score, LabelOf(score))
  }

  /** The best ratings give a full score and the top tier; the worst give zero
      and the bottom tier. */
  lemma CheckinExtremes()
    ensures Checkin(10, 10, 10, 0) == (100, Thriving)
    ensures Checkin(0, 0, 0, 10) == (0, Critical)
  {
  }

  /** Feeling better on any slider (higher mood, energy or sleep, lower stress)
      never lowers the score nor the tier. */
  lemma CheckinMonotone(m: int, e: int, s: int, st: int, m': int, e': int, s': int, st': int)
    requires IsRating(m) && IsRating(e) && IsRating(s) && IsRating(st)
    requires IsRating(m') && IsRating(e') && IsRating(s') && IsRating(st')
    requires m <= m' && e <= e' && s <= s' && st' <= st
    ensures CheckinScore(m, e, s, st) <= CheckinScore(m', e', s', st')
    ensures Checkin(m, e, s, st).1.Rank() <= Checkin(m', e', s', st').1.Rank()
  {
    LabelMonotone(CheckinScore(m, e, s, st), CheckinScore(m', e', s', st'));
  }

  /** Each tier is reachable from the sliders. */
  lemma EveryTierReachable(l: Label)
    ensures exists m, e, s, st ::
              IsRating(m) && IsRating(e) && IsRating(s) && IsRating(st) && Checkin(m, e, s, st).1 == l
  {
    match l
    case Thriving => assert Checkin(10, 10, 10, 0).1 == Thriving;
    case Coping => assert Checkin(5, 5, 5, 5).1 == Coping;
    case Strained => assert Checkin(2, 2, 2, 5).1 == Strained;
    case Critical => assert Checkin(0, 0, 0, 10).1 == Critical;
  }
}

/** The keyword score engine (`wellbeing_score_agent`): start at 100, subtract a
    fixed penalty for every listed phrase present in the lower-cased message,
    force 10 when the crisis classifier fires, and floor the result at 0. */
module ScoreEngine {
  import opened Text
  import opened CriticalCare
  import opened Labels

  const StartScore: int := 100
  const StrongPenalty: int := 25
  const ModeratePenalty: int := 15
  /** The score a crisis message is given, whatever else it contains. */
  const CrisisScore: int := 10

  const StrongNegatives: seq<string> := [
    "hopeless", "worthless", "empty",
    "panic", "burnout", "exhausted"
  ]

  const ModerateNegatives: seq<string> := [
    "not able to sleep", "can't sleep", "insomnia",
    "poor sleep", "restless", "tired",
    "not feeling well", "something new",
    "uneasy", "uncomfortable"
  ]

  /** No phrase is listed twice. */
  predicate Distinct(ps: seq<string>) {
    forall i, j :: 0 <= i < j < |ps| ==> ps[i] != ps[j]
  }

  /** The listed phrases that occur in `t`. */
  function Present(t: string, ps: seq<string>): set<string> {
    set p | p in ps && Contains(t, p)
  }

  function Max(a: int, b: int): int {
    if a >= b then a else b
  }

  /** Splitting off the first entry of a list without repeats splits its present set. */
  lemma PresentFirst(t: string, ps: seq<string>)
    requires |ps| > 0 && Distinct(ps)
    ensures Distinct(ps[1..])
    ensures |Present(t, ps)| == (if Contains(t, ps[0]) then 1 else 0) + |Present(t, ps[1..])|
  {
    assert ps[0] !in ps[1..];
    assert Present(t, ps) == (if Contains(t, ps[0]) then {ps[0]} else {}) + Present(t, ps[1..]);
  }

  /** The arithmetic of one loop step: a hit costs one more penalty. */
  lemma PenaltyStep(penalty: nat, score: int, hit: bool, k: nat, r: int)
    requires r == (if hit then score - penalty else score) - penalty * k
    ensures r == score - penalty * ((if hit then 1 else 0) + k)
  {
  }

  /** One `for w in ps: if w in t: score -= penalty` loop. Every listed entry is
      looked for once, so a phrase costs its penalty once however often it occurs. */
  function Deduct(t: string, ps: seq<string>, penalty: nat, score: int): (r: int)
    ensures score - penalty * |ps| <= r <= score
    ensures Distinct(ps) ==> r == score - penalty * |Present(t, ps)|
  {
    if |ps| == 0 then
      assert Present(t, ps) == {};
      score
    else
      var hit := Search(t, ps[0]);
      var r := Deduct(t, ps[1..], penalty, if hit then score - penalty else score);
      assert r >= score - penalty * |ps| by {
        PenaltyStep(penalty, score, true, |ps[1..]|, (score - penalty) - penalty * |ps[1..]|);
      }
      if Distinct(ps) then
        PresentFirst(t, ps);
        PenaltyStep(penalty, score, hit, |Present(t, ps[1..])|, r);
        r
      else
        r
  }

  /** The two phrase lists have no repeated entry, so "one penalty per list entry"
      and "one penalty per distinct phrase present" coincide. */
  lemma NegativesDistinct()
    ensures Distinct(StrongNegatives)
    ensures Distinct(ModerateNegatives)
  {
  }

  /** Score of a message that is not a crisis: 100 less the penalties of the
      phrases present, floored at 0. */
  function KeywordScore(t: string): int {
    Max(0, StartScore - StrongPenalty * |Present(t, StrongNegatives)|
                      - ModeratePenalty * |Present(t, ModerateNegatives)|)
  }

  /** `wellbeing_score_agent(text)`. */
  function WellbeingScore(text: string): (r: int)
    ensures 0 <= r <= 100
    ensures IsCrisis(text) ==> r == CrisisScore
    ensures !IsCrisis(text) ==> r == KeywordScore(Lower(text))
  {
    NegativesDistinct();
    var t := Lower(text);
    var score := Deduct(t, StrongNegatives, StrongPenalty, StartScore);
    var score := Deduct(t, ModerateNegatives, ModeratePenalty, score);
    var score := if IsCrisis(text) then CrisisScore else score;
    Max(score, 0)
  }

  /** The score depends only on WHICH phrases occur: two messages with the same
      crisis verdict and the same phrases present score alike, however often or
      wherever the phrases occur and whatever else the messages say. */
  lemma ScoreDependsOnlyOnPresence(a: string, b: string)
    requires IsCrisis(a) == IsCrisis(b)
    requires Present(Lower(a), StrongNegatives) == Present(Lower(b), StrongNegatives)
    requires Present(Lower(a), ModerateNegatives) == Present(Lower(b), ModerateNegatives)
    ensures WellbeingScore(a) == WellbeingScore(b)
  {
  }

  /** The score ignores ASCII case. */
  lemma ScoreIgnoresCase(text: string)
    ensures WellbeingScore(Lower(text)) == WellbeingScore(text)
  {
    LowerFixesLowerCase(text);
    CrisisIgnoresCase(text, Lower(text));
  }

  /** Saying more never raises the score of a message that stays clear of crisis
      language: every phrase present in `a` is still present in `a + b`. */
  lemma ScoreNeverRisesOnAppend(a: string, b: string)
    requires !IsCrisis(a + b)
    ensures !IsCrisis(a)
    ensures WellbeingScore(a + b) <= WellbeingScore(a)
  {
    CrisisSurvivesAppend(a, b);
    LowerAppend(a, b);
    forall p | Contains(Lower(a), p)
      ensures Contains(Lower(a + b), p)
    {
      ContainsAppend(Lower(a), Lower(b), p);
    }
    SubsetCard(Present(Lower(a), StrongNegatives), Present(Lower(a + b), StrongNegatives));
    SubsetCard(Present(Lower(a), ModerateNegatives), Present(Lower(a + b), ModerateNegatives));
  }

  lemma SubsetCard(s: set<string>, t: set<string>)
    requires s <= t
    ensures |s| <= |t|
  {
    assert t == s + (t - s);
  }

  /** The crisis override is an override: once a crisis phrase is present no
      keyword, however many and wherever around it, moves the score off 10. */
  lemma CrisisOverridesKeywords(a: string, b: string, c: string)
    requires IsCrisis(a)
    ensures WellbeingScore(b + a + c) == CrisisScore
  {
    CrisisSurvivesAppend(a, c);
    CrisisSurvivesAppend(b, a + c);
    assert b + (a + c) == b + a + c;
  }

  /** Without a crisis phrase the message lands in the Critical tier exactly when
      its keyword penalties add up to more than 75, so four strong phrases are
      enough to reach the crisis message without any crisis phrase. */
  lemma KeywordsReachCritical(text: string)
    requires !IsCrisis(text)
    ensures LabelOf(WellbeingScore(text)) == Critical <==>
              StrongPenalty * |Present(Lower(text), StrongNegatives)|
              + ModeratePenalty * |Present(Lower(text), ModerateNegatives)| > 75
    ensures |Present(Lower(text), StrongNegatives)| >= 4 ==> LabelOf(WellbeingScore(text)) == Critical
  {
  }
}

/** The label mapper (`wellbeing_label`): four ordinal tiers on the boundaries
    75, 50 and 25. */
module Labels {

  datatype Label = Thriving | Coping | Strained | Critical {

    /** The string `wellbeing_label` returns for this tier. */
    function Name(): string {
      match this
      case Thriving => "Thriving"
      case Coping => "Coping"
      case Strained => "Strained"
      case Critical => "Critical"
    }

    /** Position in the order Critical < Strained < Coping < Thriving. */
    function Rank(): nat {
      match this
      case Critical => 0
      case Strained => 1
      case Coping => 2
      case Thriving => 3
    }

    /** The lowest score of this tier's band. */
    function Floor(): int
      requires !Critical?
    {
      match this
      case Thriving => ThrivingFloor
      case Coping => CopingFloor
      case Strained => StrainedFloor
    }
  }

  const ThrivingFloor: int := 75
  const CopingFloor: int := 50
  const StrainedFloor: int := 25

  /** `wellbeing_label(score)`. Every integer falls in exactly one band:
      [75, ∞) Thriving, [50, 75) Coping, [25, 50) Strained, (-∞, 25) Critical. */
  function LabelOf(score: int): (l: Label)
    ensures l == Thriving <==> score >= 75
    ensures l == Coping <==> 50 <= score < 75
    ensures l == Strained <==> 25 <= score < 50
    ensures l == Critical <==> score < 25
  {
    if score >= ThrivingFloor then Thriving
    else if score >= CopingFloor then Coping
    else if score >= StrainedFloor then Strained
    else Critical
  }

  /** A higher score never yields a lower tier. */
  lemma LabelMonotone(a: int, b: int)
    requires a <= b
    ensures LabelOf(a).Rank() <= LabelOf(b).Rank()
  {
  }

  /** Each non-Critical tier is reached exactly from its floor upward, up to the
      next floor: the bands are contiguous, without gaps or overlaps. */
  lemma LabelBands(score: int, l: Label)
    requires !l.Critical?
    ensures LabelOf(score) == l <==>
              l.Floor() <= score && (l.Thriving? || score < Above(l).Floor())
  {
  }

  /** The tier immediately above a non-Thriving tier. */
  function Above(l: Label): (u: Label)
    requires !l.Thriving?
    ensures u.Rank() == l.Rank() + 1
  {
    match l
    case Coping => Thriving
    case Strained => Coping
    case Critical => Strained
  }

  /** Comparing tier names, as the chat loop does with `label != "Critical"`, is
      comparing tiers. */
  lemma NameInjective(l: Label, m: Label)
    ensures l.Name() == m.Name() <==> l == m
  {
  }
}

/** The strategy selector (`support_strategy`): one canned message per tier, the
    lowest tier being the crisis safety message. */
module Strategy {
  import opened Labels
  import opened CriticalCare

  const StableMessage: string :=
    "🌱" + " **Your well-being appears generally stable,** though you may be experiencing a short-term disruption."

  const CopingMessage: string :=
    "🌿" + " **You seem to be coping, but something is clearly off.**"

  const StrainedMessage: string :=
    "🔥" + " **Your well-being looks strained.**"

  /** The message belonging to each tier. */
  function TierMessage(l: Label): string {
    match l
    case Thriving => StableMessage
    case Coping => CopingMessage
    case Strained => StrainedMessage
    case Critical => CareMessage
  }

  /** The symbol each message opens with. */
  function Symbol(l: Label): char {
    match l
    case Thriving => '🌱'
    case Coping => '🌿'
    case Strained => '🔥'
    case Critical => '🛑'
  }

  lemma LeadingSymbol(l: Label)
    ensures |TierMessage(l)| > 0 && TierMessage(l)[0] == Symbol(l)
  {
  }

  /** Strings that start with different characters stay different whatever is
      appended to them. */
  lemma FirstCharsDiffer(a: string, b: string, x: string, y: string)
    requires |a| > 0 && |b| > 0 && a[0] != b[0]
    ensures a + x != b + y
  {
    assert (a + x)[0] == a[0];
    assert (b + y)[0] == b[0];
  }

  /** The four messages open with four different characters, so no message is
      another one with text appended. */
  lemma TierMessagesDiffer(l: Label, m: Label, x: string, y: string)
    ensures TierMessage(l) + x == TierMessage(m) + y ==> l == m
    ensures TierMessage(l) == TierMessage(m) ==> l == m
  {
    if l != m {
      LeadingSymbol(l);
      LeadingSymbol(m);
      FirstCharsDiffer(TierMessage(l), TierMessage(m), x, y);
      FirstCharsDiffer(TierMessage(l), TierMessage(m), "", "");
      assert TierMessage(l) + "" == TierMessage(l);
      assert TierMessage(m) + "" == TierMessage(m);
    }
  }

  /** `support_strategy(score)`. It tests the score against the same boundaries
      as `wellbeing_label`, so it answers with the message of the score's tier,
      and with the crisis message exactly when that tier is Critical, whether
      the low score came from a crisis phrase or from keyword penalties. */
  function SupportStrategy(score: int): (r: string)
    ensures r == TierMessage(LabelOf(score))
    ensures r == CareMessage <==> LabelOf(score) == Critical
  {
    TierMessagesDiffer(LabelOf(score), Critical, "", "");
    if score >= 75 then StableMessage
    else if score >= 50 then CopingMessage
    else if score >= 25 then StrainedMessage
    else CareMessage
  }
}

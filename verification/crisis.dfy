/** The crisis classifier (`critical_care_agent`) and the fixed safety message it
    leads to (`care_message`). */
module CriticalCare {
  import opened Text

  /** The seven crisis phrases, all lower case. */
  const CrisisPhrases: seq<string> := [
    "suicide", "kill myself", "end my life",
    "i want to die", "no reason to live",
    "self harm", "hurt myself"
  ]

  /** The safety message shown instead of any generated reply. */
  const CareMessage: string :=
    "🛑" + " **Thank you for sharing this.**"

  /** `critical_care_agent(text)`: the lower-cased text contains one of the crisis
      phrases as a contiguous substring. No word boundaries, no negation handling. */
  function IsCrisis(text: string): (r: bool)
    ensures r <==> exists p :: p in CrisisPhrases && Contains(Lower(text), p)
  {
    ContainsAny(Lower(text), CrisisPhrases)
  }

  /** The classifier ignores ASCII case: a message and its lower-cased form are
      classified alike, and so are two messages that differ only in case. */
  lemma CrisisIgnoresCase(a: string, b: string)
    requires Lower(a) == Lower(b)
    ensures IsCrisis(a) <==> IsCrisis(b)
    ensures IsCrisis(Lower(a)) <==> IsCrisis(a)
  {
    LowerFixesLowerCase(a);
  }

  /** Adding text before or after a crisis message never clears the alarm. */
  lemma CrisisSurvivesAppend(a: string, b: string)
    ensures IsCrisis(a) ==> IsCrisis(a + b)
    ensures IsCrisis(b) ==> IsCrisis(a + b)
  {
    LowerAppend(a, b);
    forall p | p in CrisisPhrases
      ensures Contains(Lower(a), p) ==> Contains(Lower(a + b), p)
      ensures Contains(Lower(b), p) ==> Contains(Lower(a + b), p)
    {
      ContainsAppend(Lower(a), Lower(b), p);
    }
  }

  /** A message that is exactly one of the phrases, in any ASCII case, is a crisis. */
  lemma EveryPhraseIsCrisis(text: string)
    requires Lower(text) in CrisisPhrases
    ensures IsCrisis(text)
  {
    assert OccursAt(Lower(text), Lower(text), 0);
  }

  /** The scenario "I want to die" is classified as a crisis. */
  lemma WantToDieIsCrisis()
    ensures IsCrisis("I want to die")
  {
    var rest := " want to die";
    assert IsLowerCase(rest);
    LowerFixesLowerCase(rest);
    assert Lower("I") == "i";
    LowerAppend("I", rest);
    assert "I want to die" == "I" + rest;
    assert Lower("I want to die") == CrisisPhrases[3];
    EveryPhraseIsCrisis("I want to die");
  }
}

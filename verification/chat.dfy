/** The per-turn dispatch of the chat tab: how one submitted message extends the
    chat log, and what a session of such turns builds up. The log is a value;
    a turn returns the extended log. */
module Chat {
  import opened Text
  import opened CriticalCare
  import opened ScoreEngine
  import opened Labels
  import opened Strategy
  import opened Generation

  datatype Role = User | Assistant

  /** One chat entry, as stored in the session's `chat` list. */
  datatype Message = Message(role: Role, content: string)

  /** The text in front of the score on the score line. */
  const ScoreHeading: string := "📊" + " **Well-Being Score:** "

  /** The assistant line announcing the score: "📊 **Well-Being Score:** <score>/100 (<tier>)". */
  function ScoreLine(score: nat, tier: Label): string {
    ScoreHeading + NatToString(score) + ScoreTail(tier)
  }

  /** What follows the score on the score line: "/100 (<tier>)". */
  function ScoreTail(tier: Label): string {
    "/100 (" + tier.Name() + ")"
  }

  /** The tier can be read back from the end of the score line. */
  lemma ScoreTailInjective(l: Label, k: Label)
    ensures ScoreTail(l) == ScoreTail(k) ==> l == k
  {
    var x, y := ScoreTail(l), ScoreTail(k);
    assert l.Name() == x[6..|x| - 1];
    assert k.Name() == y[6..|y| - 1];
    NameInjective(l, k);
  }

  /** The score line can be read back: two score lines are equal exactly when
      they announce the same score and the same tier. */
  lemma ScoreLineInjective(m: nat, l: Label, n: nat, k: Label)
    ensures ScoreLine(m, l) == ScoreLine(n, k) <==> m == n && l == k
  {
    if ScoreLine(m, l) == ScoreLine(n, k) {
      var x, y := ScoreTail(l), ScoreTail(k);
      assert x[0] == '/' && y[0] == '/';
      DigitRunsAgree(ScoreHeading, NatToString(m), NatToString(n), x, y);
      NatToStringInjective(m, n);
      ScoreTailInjective(l, k);
    }
  }

  /** Whether the turn for `input` asks the language model for text: a non-empty
      message with no crisis phrase whose tier is not Critical, that is, whose
      score is at least 25. */
  function ConsultsModel(input: string): (r: bool)
    ensures r <==> input != "" && !IsCrisis(input) && WellbeingScore(input) >= 25
  {
    input != "" && !IsCrisis(input) && LabelOf(WellbeingScore(input)) != Critical
  }

  /** The assistant's answer to a message that is not a crisis: the strategy
      message of the score's tier, followed by the model's reply unless the
      tier is Critical. */
  function Reply(score: int, run: Run): (reply: string)
    ensures LabelOf(score) == Critical ==> reply == CareMessage
    ensures LabelOf(score) != Critical ==>
              reply == TierMessage(LabelOf(score)) + "\n\n" + CallLlm(run)
    ensures reply == CareMessage <==> LabelOf(score) == Critical
  {
    var reply := SupportStrategy(score);
    TierMessagesDiffer(LabelOf(score), Critical, "\n\n" + CallLlm(run), "");
    assert TierMessage(Critical) + "" == CareMessage;
    if LabelOf(score) != Critical then reply + "\n\n" + CallLlm(run) else reply
  }

  /** The messages one run of the chat input handler appends. An empty input
      appends nothing. Otherwise the user's message comes first; a crisis
      message is answered with the care message alone; any other message gets
      a score line and then the strategy message of its tier, followed, unless
      the tier is Critical, by the model's reply. `run` is what the model
      process produced for this message. */
  function Appended(input: string, run: Run): (added: seq<Message>)
    ensures input == "" ==> added == []
    ensures input != "" ==> |added| > 0 && added[0] == Message(User, input)
    ensures forall i :: 0 < i < |added| ==> added[i].role == Assistant
    ensures input != "" && IsCrisis(input) ==>
              |added| == 2 && added[1].content == CareMessage
    ensures input != "" && !IsCrisis(input) ==>
              |added| == 3 && added[1..] == Answer(WellbeingScore(input), run)
  {
    if input == "" then
      []
    else if IsCrisis(input) then
      [Message(User, input), Message(Assistant, CareMessage)]
    else
      [Message(User, input)] + Answer(WellbeingScore(input), run)
  }

  /** The two assistant messages answering a message that is not a crisis: the
      score line, then the reply, which is the care message exactly on the
      Critical tier and otherwise ends with the model's text. */
  function Answer(score: nat, run: Run): (answer: seq<Message>)
    ensures |answer| == 2 && answer[0].role == Assistant && answer[1].role == Assistant
    ensures answer[0].content == ScoreLine(score, LabelOf(score))
    ensures answer[1].content == CareMessage <==> LabelOf(score) == Critical
    ensures LabelOf(score) != Critical ==>
              answer[1].content == TierMessage(LabelOf(score)) + "\n\n" + CallLlm(run)
  {
    [Message(Assistant, ScoreLine(score, LabelOf(score))), Message(Assistant, Reply(score, run))]
  }

  /** The chat log after one run of the chat input handler: the earlier entries
      are kept as they were and the turn's messages follow them. */
  function Turn(log: seq<Message>, input: string, run: Run): (r: seq<Message>)
    ensures |r| >= |log| && r[..|log|] == log
    ensures r[|log|..] == Appended(input, run)
  {
    log + Appended(input, run)
  }

  /** When the model is not consulted, what it would have said makes no
      difference to the log. */
  lemma ModelIgnoredUnlessConsulted(log: seq<Message>, input: string, run: Run, run': Run)
    requires !ConsultsModel(input)
    ensures Turn(log, input, run) == Turn(log, input, run')
  {
  }

  /** When the model is consulted, the reply ends with its (never empty) text,
      after the strategy message of the score's tier. */
  lemma ConsultedReplyEndsWithModelText(log: seq<Message>, input: string, run: Run)
    ensures ConsultsModel(input) ==>
              var r := Turn(log, input, run);
              var tier := TierMessage(LabelOf(WellbeingScore(input)));
              && r[|r| - 1].content == tier + "\n\n" + CallLlm(run)
              && CallLlm(run) != ""
  {
  }

  /** The last message of a turn is the care message exactly when the input is a
      crisis or its keyword score falls in the Critical tier. */
  lemma CareMessageIffCritical(log: seq<Message>, input: string, run: Run)
    requires input != ""
    ensures var r := Turn(log, input, run);
            r[|r| - 1].content == CareMessage <==>
              IsCrisis(input) || LabelOf(WellbeingScore(input)) == Critical
  {
    var added := Appended(input, run);
    assert Turn(log, input, run)[|log|..] == added;
  }

  /** The crisis scenario: "I want to die" adds exactly the user's message and the
      care message, whatever the model would have said. */
  lemma WantToDieTurn(log: seq<Message>, run: Run)
    ensures Turn(log, "I want to die", run) ==
              log + [Message(User, "I want to die"), Message(Assistant, CareMessage)]
  {
    WantToDieIsCrisis();
    var r := Turn(log, "I want to die", run);
    assert |r| == |log| + 2;
    assert r == r[..|log|] + [r[|log|], r[|log| + 1]];
  }

  /** Every user message in the log is answered: it is followed by an assistant
      message. */
  predicate Answered(log: seq<Message>) {
    forall i :: 0 <= i < |log| && log[i].role == User ==> i + 1 < |log| && log[i + 1].role == Assistant
  }

  /** A turn keeps every user message answered. */
  lemma TurnKeepsAnswered(log: seq<Message>, input: string, run: Run)
    requires Answered(log)
    ensures Answered(Turn(log, input, run))
  {
    var r := Turn(log, input, run);
    forall i | 0 <= i < |r| && r[i].role == User
      ensures i + 1 < |r| && r[i + 1].role == Assistant
    {
      if i < |log| {
        assert r[i] == log[i];
        if i + 1 < |log| {
          assert r[i + 1] == log[i + 1];
        }
      }
    }
  }

  /** The contents of the user messages of a log, in order. */
  function UserTexts(log: seq<Message>): seq<string> {
    if |log| == 0 then []
    else (if log[0].role == User then [log[0].content] else []) + UserTexts(log[1..])
  }

  lemma {:induction false} UserTextsAppend(a: seq<Message>, b: seq<Message>)
    ensures UserTexts(a + b) == UserTexts(a) + UserTexts(b)
    decreases |a|
  {
    if |a| == 0 {
      assert a + b == b;
    } else {
      assert (a + b)[1..] == a[1..] + b;
      UserTextsAppend(a[1..], b);
    }
  }

  /** One submission of the chat box: the text typed and what the model process
      would produce for it. */
  datatype Submission = Submission(text: string, run: Run)

  /** The log after a session of submissions, starting from `log`. */
  function Session(log: seq<Message>, subs: seq<Submission>): seq<Message>
    decreases |subs|
  {
    if |subs| == 0 then log else Session(Turn(log, subs[0].text, subs[0].run), subs[1..])
  }

  /** The non-empty texts among the submissions, in order. */
  function Typed(subs: seq<Submission>): seq<string> {
    if |subs| == 0 then []
    else (if subs[0].text != "" then [subs[0].text] else []) + Typed(subs[1..])
  }

  /** A turn logs the typed text as the one new user message, or nothing for an
      empty input. */
  lemma TurnUserTexts(log: seq<Message>, input: string, run: Run)
    ensures UserTexts(Turn(log, input, run)) ==
              UserTexts(log) + (if input != "" then [input] else [])
  {
    var added := Appended(input, run);
    UserTextsAppend(log, added);
    UserTextsOfTurn(added, input);
  }

  /** A block that is empty, or a user message followed by assistant messages,
      contributes exactly that user message's text. */
  lemma UserTextsOfTurn(added: seq<Message>, input: string)
    requires input == "" ==> added == []
    requires input != "" ==> |added| > 0 && added[0] == Message(User, input)
    requires forall i :: 0 < i < |added| ==> added[i].role == Assistant
    ensures UserTexts(added) == (if input != "" then [input] else [])
  {
    if input != "" {
      assert UserTexts(added) == [input] + UserTexts(added[1..]);
      UserTextsOfAssistants(added[1..]);
    }
  }

  /** A log of assistant messages contributes no user text. */
  lemma {:induction false} UserTextsOfAssistants(log: seq<Message>)
    requires forall i :: 0 <= i < |log| ==> log[i].role == Assistant
    ensures UserTexts(log) == []
    decreases |log|
  {
    if |log| > 0 {
      UserTextsOfAssistants(log[1..]);
    }
  }

  /** Over a whole session the log only grows: earlier entries are never changed. */
  lemma {:induction false} SessionExtends(log: seq<Message>, subs: seq<Submission>)
    ensures |Session(log, subs)| >= |log| && Session(log, subs)[..|log|] == log
    decreases |subs|
  {
    if |subs| > 0 {
      var next := Turn(log, subs[0].text, subs[0].run);
      SessionExtends(next, subs[1..]);
      var r := Session(next, subs[1..]);
      assert r[..|log|] == r[..|next|][..|log|];
    }
  }

  /** The user messages of the session's log are exactly the non-empty texts
      typed, in the order they were typed. */
  lemma {:induction false} SessionUserTexts(log: seq<Message>, subs: seq<Submission>)
    ensures UserTexts(Session(log, subs)) == UserTexts(log) + Typed(subs)
    decreases |subs|
  {
    if |subs| > 0 {
      var next := Turn(log, subs[0].text, subs[0].run);
      TurnUserTexts(log, subs[0].text, subs[0].run);
      SessionUserTexts(next, subs[1..]);
      assert Session(log, subs) == Session(next, subs[1..]);
      TypedStep(UserTexts(log), subs);
    } else {
      assert UserTexts(log) + [] == UserTexts(log);
    }
  }

  /** Texts logged so far, then the first submission's text if it is not empty,
      then the rest of the typed texts, are the texts logged so far followed by
      all the typed texts. */
  lemma TypedStep(logged: seq<string>, subs: seq<Submission>)
    requires |subs| > 0
    ensures logged + (if subs[0].text != "" then [subs[0].text] else []) + Typed(subs[1..]) ==
              logged + Typed(subs)
  {
  }

  /** Every user message of the session is answered. */
  lemma {:induction false} SessionAnswered(log: seq<Message>, subs: seq<Submission>)
    requires Answered(log)
    ensures Answered(Session(log, subs))
    decreases |subs|
  {
    if |subs| > 0 {
      TurnKeepsAnswered(log, subs[0].text, subs[0].run);
      SessionAnswered(Turn(log, subs[0].text, subs[0].run), subs[1..]);
    }
  }
}

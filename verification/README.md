# MindCare check-in logic in Dafny

MindCare is a small wellbeing check-in app. Its chat tab reads a free-text message and checks it for crisis language. On a crisis it answers with a fixed safety message. Otherwise it scores the message with keyword penalties, labels the score with one of four tiers and answers with the tier's canned strategy message. Unless the tier is Critical, it appends a reply from an external language model. A separate daily check-in turns four 0–10 slider ratings into a 0–100 score with the same tiers.

This project models the decision logic of `mindcare.py` as pure Dafny functions and proves what that logic promises:

- `Text`: ASCII case folding (`str.lower()`), substring containment (Python's `p in s`) and `any(...)` over a phrase list. A recursive scan is proved equal to the index-based definition. Decimal rendering of the score is proved to read back as the number.
- `CriticalCare`: the seven crisis phrases, `critical_care_agent` and the care message.
- `ScoreEngine`: `wellbeing_score_agent`. The two penalty loops are a fold, proved equal to "100 − 25·(strong phrases present) − 15·(moderate phrases present), floored at 0". A crisis forces the score to 10.
- `Labels`: `wellbeing_label` as a four-valued datatype with its bands, its order and its names.
- `Strategy`: `support_strategy`, proved to pick the message of the score's tier, and the care message exactly on the Critical tier.
- `DailyCheckin`: the check-in formula on line 132, with its division and multiplication taken exactly. Python's `int()` truncation is modelled explicitly.
- `Generation`: the fallback rule of `call_llm`. The model's run is an input: either its captured output or a failure.
- `Chat`: one run of the chat input handler, as a pure function from the chat log to the extended log, and a session as a sequence of such runs.

Some facts about the code that the model keeps exactly:

- Each strong phrase present costs 25 points and each moderate phrase present costs 15.
- The check-in score is truncated by `int()`, not rounded.
- The language model is asked for text whenever the tier is not Critical, that is, whenever the score is at least 25.
- Only the current message is scored and sent to the model; earlier chat entries play no part.

## Model

| member | source | states |
|---|---|---|
| Text.Lower | mindcare.py:54 | Lower-casing keeps the length, moves each upper-case letter A–Z to its lower-case letter, keeps every other character in place, and leaves no upper-case letter. |
| Text.Search | mindcare.py:35 | The left-to-right scan answers true exactly when the phrase occurs somewhere in the text as a contiguous block. The empty phrase is always found. |
| Text.ContainsAny | mindcare.py:35 | `any(p in t for p in phrases)`: true exactly when some listed phrase occurs in the text. |
| Text.LowerFixesLowerCase | mindcare.py:35 | Lower-casing gives a string with no upper-case letter; it leaves lower-case text unchanged, so doing it twice is the same as doing it once. |
| Text.NatToString | mindcare.py:197 | The score printed in the score line is a non-empty run of decimal digits with no leading zero, and it reads back as the score. |
| Text.NatToStringInjective | mindcare.py:197 | Different scores are printed differently. |
| Chat.ScoreLineInjective | mindcare.py:197 | The score line can be read back: two score lines are equal exactly when they show the same score and the same tier. |
| CriticalCare.IsCrisis | mindcare.py:29-35 | A message is a crisis exactly when its lower-cased form contains one of the seven crisis phrases as a substring. |
| CriticalCare.CrisisIgnoresCase | mindcare.py:35 | Two messages that differ only in ASCII case get the same verdict, and a message gets the same verdict as its lower-cased form. |
| CriticalCare.CrisisSurvivesAppend | mindcare.py:35 | Putting more text before or after a crisis message keeps it a crisis, because matching is by plain substring. |
| CriticalCare.EveryPhraseIsCrisis | mindcare.py:30-35 | A message that is one of the listed phrases, in any ASCII case, is a crisis. |
| CriticalCare.WantToDieIsCrisis | mindcare.py:30-35 | "I want to die" is classified as a crisis. |
| ScoreEngine.Deduct | mindcare.py:68-74 | A penalty loop subtracts between 0 and `penalty` per list entry. On a list with no repeats it subtracts the penalty once per distinct phrase present, however often that phrase occurs. |
| ScoreEngine.NegativesDistinct | mindcare.py:56-66 | Neither keyword list repeats a phrase, so "per list entry" and "per phrase present" agree. |
| ScoreEngine.WellbeingScore | mindcare.py:52-79 | The score is always in 0..100. It is exactly 10 for a crisis message. For any other message it is max(0, 100 − 25·(strong phrases present) − 15·(moderate phrases present)), computed on the lower-cased text. |
| ScoreEngine.ScoreDependsOnlyOnPresence | mindcare.py:68-79 | Two messages with the same crisis verdict and the same phrases present get the same score, whatever else they contain and however often the phrases repeat. |
| ScoreEngine.ScoreIgnoresCase | mindcare.py:54 | A message and its lower-cased form get the same score. |
| ScoreEngine.ScoreNeverRisesOnAppend | mindcare.py:68-79 | Adding text to a message never raises its score while the result is still not a crisis. |
| ScoreEngine.CrisisOverridesKeywords | mindcare.py:76-79 | A crisis message with any text before it and any text after it scores exactly 10, whatever keywords that text holds. |
| ScoreEngine.KeywordsReachCritical | mindcare.py:52-88 | For a message with no crisis phrase, the tier is Critical exactly when the keyword penalties add up to more than 75. Four strong phrases are therefore enough. |
| Labels.LabelOf | mindcare.py:81-88 | Every integer gets exactly one tier: Thriving for ≥ 75, Coping for [50, 75), Strained for [25, 50) and Critical below 25. |
| Labels.LabelMonotone | mindcare.py:81-88 | A higher score never yields a lower tier. |
| Labels.LabelBands | mindcare.py:81-88 | Each tier above Critical is reached exactly from its floor up to the next tier's floor, so the bands have no gaps and no overlaps. |
| Labels.NameInjective | mindcare.py:202 | Two tiers have the same name exactly when they are the same tier, so `label != "Critical"` tests the tier. |
| Strategy.SupportStrategy | mindcare.py:93-119 | The strategy message is the message of the score's tier under `wellbeing_label`'s thresholds. It is the care message exactly when that tier is Critical, including when keyword penalties alone push the score below 25. |
| Strategy.TierMessagesDiffer | mindcare.py:93-119 | The four tier messages are pairwise different. No tier message with text appended equals another tier's message with text appended. |
| DailyCheckin.CheckinScore | mindcare.py:132 | For ratings in 0..10, `int((mood+energy+sleep+(10−stress))/4*10)` equals (5·(mood+energy+sleep+10−stress)) div 2, which lies in 0..100. |
| DailyCheckin.Checkin | mindcare.py:132-133 | The check-in shows the score (5·(mood+energy+sleep+10−stress)) div 2 of the four ratings, which lies in 0..100, together with that score's tier. |
| DailyCheckin.CheckinExtremes | mindcare.py:132-133 | (10, 10, 10, 0) gives 100 and Thriving; (0, 0, 0, 10) gives 0 and Critical. |
| DailyCheckin.CheckinMonotone | mindcare.py:132-133 | Higher mood, energy or sleep, or lower stress, never lowers the score or the tier. |
| DailyCheckin.EveryTierReachable | mindcare.py:132-133 | Each of the four tiers is produced by some slider setting. |
| Generation.Strip | mindcare.py:21 | Whitespace is every character Python's `str.isspace()` accepts, the ASCII separators 28–31 included. The stripped output is a block of the output with only whitespace around it. It neither starts nor ends with whitespace, and it is empty exactly when the output is all whitespace. |
| Generation.StripIdempotent | mindcare.py:21 | Stripping twice is the same as stripping once. |
| Generation.CallLlm | mindcare.py:13-24 | The reply is never empty. It is the stripped output when the run finished with some non-whitespace output; otherwise (an exception, or only whitespace) it is the fixed fallback line. |
| Generation.FailureIndistinguishable | mindcare.py:21-24 | A failed run and a run that printed only whitespace give the same reply, the fallback line. |
| Chat.Appended | mindcare.py:184-205 | An empty input adds nothing. Otherwise the user's message comes first and only assistant messages follow it. A crisis input adds exactly one more message, the care message. Any other input adds the two messages of `Chat.Answer`. |
| Chat.Reply | mindcare.py:200-203 | The reply is the care message exactly when the tier is Critical. Otherwise it is the tier's strategy message, then "\n\n", then the model's reply. |
| Chat.ModelIgnoredUnlessConsulted | mindcare.py:189-203 | When the input is a crisis, empty, or scores in the Critical tier, the model's output makes no difference to the log. |
| Chat.ConsultsModel | mindcare.py:184-202 | The model is asked for text exactly when the input is non-empty, has no crisis phrase, and scores at least 25. |
| Chat.Turn | mindcare.py:184-205 | A turn never changes the earlier log entries; the turn's messages follow them. |
| Chat.ConsultedReplyEndsWithModelText | mindcare.py:200-205 | When the model is consulted, the last message is the tier's strategy message, "\n\n", then the model's reply, and that reply is not empty. |
| Chat.CareMessageIffCritical | mindcare.py:189-205 | For a non-empty input, the last message is the care message exactly when the input is a crisis or its score is in the Critical tier. |
| Chat.WantToDieTurn | mindcare.py:184-205 | "I want to die" appends exactly the user's message and the care message, whatever the model would say. |
| Chat.TurnKeepsAnswered | mindcare.py:184-205 | If every user message in the log is followed by an assistant message, that still holds after a turn. |
| Chat.TurnUserTexts | mindcare.py:184-205 | A turn adds the typed text as its only user message, or adds nothing for an empty input. |
| Chat.SessionExtends | mindcare.py:170-205 | Over a session of turns the log only grows, and earlier entries never change. |
| Chat.SessionUserTexts | mindcare.py:170-205 | After a session, the user messages of the log are the non-empty texts typed, in the order they were typed. |
| Chat.SessionAnswered | mindcare.py:170-205 | Over a session, every user message stays followed by an assistant message. |

## Left out

- Streamlit rendering is not modelled because it is display only: page setup, tabs, `st.chat_message`, `st.markdown`, sliders, metrics, captions and the session clock (mindcare.py:124-140, 164-182, 206-211). Slider values are taken as integers already in 0..10.
- The `subprocess.run` call to Ollama is not modelled because it is an external process. This covers the model name, the 60-second timeout and the UTF-8 encoding and decoding (mindcare.py:8, 15-21). Its result enters as `Generation.Run`: either the decoded standard output or a failure.
- The prompt text of `reflective_support` (mindcare.py:145-159) is not modelled; it is only a template for the external model. `Run` stands for what the model produced for the prompt built from the current message alone.
- Text.Lower: folds only the ASCII letters A–Z. Python's `str.lower()` also folds other Unicode letters, so for non-ASCII input the crisis verdict and score are stated only under this assumption.
- DailyCheckin.CheckinScore: the division by 4 and the multiplication by 10 are exact real arithmetic, not binary floating point. For integer totals in 0..40 the two agree, because every such quotient is a multiple of 0.25.
- The canned messages (the care message of mindcare.py:37-47 and the three strategy messages of mindcare.py:94-117) are kept only by their opening line, as opaque constants. The proofs use only that the four messages start with different symbols.
- The session list is created empty on first load (mindcare.py:171-172). The session lemmas hold for any starting log.

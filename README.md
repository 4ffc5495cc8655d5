# Shake debouncer and quiz progression of the "biscuit" quiz app

This project models the two pieces of logic in the Android quiz app that
have more to them than layout:

- **`ShakeDetector`**: an accelerometer listener. It keeps the time of the
  last accepted shake (`shakeTimestamp`) and a burst counter (`shakeCount`),
  both starting at 0. A sample is a *candidate* when it comes from the
  accelerometer and its g-force is strictly above 2.7. A candidate is
  dropped if it comes less than 500 ms after the last accepted shake. If it
  comes more than 3000 ms after, the counter restarts. Otherwise the time is
  recorded, the counter goes up and the `onShake` callback fires once.
- **The quiz screen** (`JourneyQuizScreen`): four riddles with fixed answers,
  hints and pictures, and seven pieces of remembered state. The actions are:
  the text field's change callback, Submit (case-insensitive comparison with
  the expected answer), the feedback view's button (Next after correct
  feedback, Retry otherwise), and the shake callback. The shake callback
  raises the app-wide `showImage` flag, which unlocks a bonus picture on the
  last question.

Files:

- `shake_detector.dfy`, module `ShakeDetection`. `Transition` is the effect of
  one sample as a pure function. `Run` feeds a sequence of samples.
  `Explains` ties a detector to its history of accepted shakes: they are
  pairwise at least 500 ms apart, the timestamp is the last one, and the
  count is the length of the trailing burst (`BurstLength`). The class
  `ShakeDetector` updates its two fields in place, as the Kotlin `onSensorChanged` does. It
  keeps that history as a ghost field and preserves `Explains` as its
  invariant.
- `text.dfy`, module `Text`. It holds `equals(ignoreCase = true)` over ASCII
  (`EqualsIgnoreCase`) and `startsWith`. `EqualsIgnoreCase` is proved equal to
  an independent definition: the lower-case forms are equal.
- `quiz.dfy`, module `Quiz`. It holds the content lists and the state as a
  datatype. Each action is a pure function. Events are delivered to a
  session (quiz state plus `showImage`). `Consistent` is the invariant of
  every reachable session. The class `JourneyQuiz` has the seven mutable
  fields, and the class `MainActivity` has the `showImage` flag. Their
  methods are proved against the pure functions.

The sensor sample is reduced to `isCandidate: bool` and the clock reading
`now: int`. Both are parameters. The callback is the boolean result
`onShake`, so it fires at most once per sample.

Points where the code behaves differently from what its intent might
suggest, which the model follows as written:

- Submit does not trim the typed text: `" ball "` does not match `"ball"`
  (`Quiz.AnswerMatching`).
- The counter restarts only when the gap is strictly more than 3000 ms. A gap
  of exactly 3000 ms continues the burst.
- Next does not touch `showHint`. It is already false after a correct
  submission (`Quiz.Consistent`).
- Retry leaves `showHint` true. The question view does not show the hint,
  and the next Submit sets `showHint` either way, so the value Retry keeps is
  never seen (`Quiz.RetryHintOverwritten`).
- The feedback is a string. Next and Retry are told apart by
  `startsWith("Correct")`, not by an enumeration.

Spacing of accepted shakes needs no assumption about the clock. The
timestamp changes only on acceptance, and acceptance requires `now` to be at
least 500 ms past it.

## Model

| member | source | states |
|---|---|---|
| `ShakeDetection.Transition` | app/src/main/java/com/joaobzao/s/ShakeDetector.kt:14-45 | A non-candidate changes nothing and fires nothing. A candidate fires exactly when `now >= shakeTimestamp + 500` (so `now == ts + 500` is accepted). Without firing, the state is unchanged. On firing, the timestamp becomes `now`, and the count becomes 1 if `now > old ts + 3000` and `old count + 1` otherwise (so `now == ts + 3000` does not reset). |
| `ShakeDetection.BurstLength` | app/src/main/java/com/joaobzao/s/ShakeDetector.kt:34-40 | The burst length of a shake history is 0 only for no shakes, and never more than the number of shakes. |
| `ShakeDetection.ExplainsBounds` | app/src/main/java/com/joaobzao/s/ShakeDetector.kt:9-40 | A detector explained by its history has `0 <= shakeCount <= number of shakes`, `shakeCount >= 1` once a shake was accepted, and a timestamp no earlier than any accepted shake. |
| `ShakeDetection.SpacedAppend` | app/src/main/java/com/joaobzao/s/ShakeDetector.kt:30-39 | A shake at least 500 ms after the last accepted one keeps every pair of accepted shakes at least 500 ms apart. |
| `ShakeDetection.BurstAppend` | app/src/main/java/com/joaobzao/s/ShakeDetector.kt:34-40 | A new shake more than 3000 ms after the previous one starts a burst of 1. Otherwise, including the very first shake, it lengthens the burst by one. |
| `ShakeDetection.TransitionExplains` | app/src/main/java/com/joaobzao/s/ShakeDetector.kt:30-42 | One sample keeps the detector explained by its history, extended by `now` exactly when the callback fires. Accepted shakes stay pairwise 500 ms apart, and the count stays the trailing-burst length. |
| `ShakeDetection.FirstShake` | app/src/main/java/com/joaobzao/s/ShakeDetector.kt:9-40 | From timestamp 0 and count 0, a candidate is accepted exactly when `now >= 500`, and then leaves the count at 1. |
| `ShakeDetection.Run` | app/src/main/java/com/joaobzao/s/ShakeDetector.kt:14-45 | Over a sequence of samples, the callback fires no more often than there are samples. |
| `ShakeDetection.RunExplains` | app/src/main/java/com/joaobzao/s/ShakeDetector.kt:14-45 | Any sequence of samples keeps the detector explained by its history, extended by exactly the times at which the callback fired. |
| `ShakeDetection.RunFromInitialExplains` | app/src/main/java/com/joaobzao/s/ShakeDetector.kt:9-45 | From timestamp 0 and count 0, the detector after any samples is explained by exactly the callbacks fired. |
| `ShakeDetection.RunFromInitial` | app/src/main/java/com/joaobzao/s/ShakeDetector.kt:9-42 | From a fresh detector and any samples, with no clock assumption: callbacks are pairwise at least 500 ms apart and none fires before 500 ms. `0 <= shakeCount <= number of callbacks`, `shakeCount >= 1` after any callback, and the timestamp is the last callback's time. |
| `ShakeDetection.DebounceDropsSecond` | app/src/main/java/com/joaobzao/s/ShakeDetector.kt:29-32 | Two candidates at `t` and `t + delta` with any `delta < 500` (a clock going backwards included), the first accepted: exactly one callback fires, at `t`. |
| `ShakeDetection.ShakeDetector.constructor` | app/src/main/java/com/joaobzao/s/ShakeDetector.kt:8-10 | A new detector has timestamp 0, count 0 and no accepted shakes. |
| `ShakeDetection.ShakeDetector.OnSensorChanged` | app/src/main/java/com/joaobzao/s/ShakeDetector.kt:14-45 | The in-place update, with its early return, leaves the fields and the callback exactly as `Transition` says. It keeps the spacing and count invariant, and appends `now` to the history exactly when the callback fires. |
| `Text.LowerAscii` | app/src/main/java/com/joaobzao/s/MainActivity.kt:108 | Upper-case ASCII letters map to their lower-case letter, and every other character is left alone. |
| `Text.ToLowerAscii` | app/src/main/java/com/joaobzao/s/MainActivity.kt:108 | The lower-case form has the same length, and each character is the lower-case of the original. |
| `Text.EqualsIgnoreCase` | app/src/main/java/com/joaobzao/s/MainActivity.kt:108 | True exactly when the lengths agree and every pair of characters has the same lower-case form (both directions); a match implies equal length. |
| `Text.EqualsIgnoreCaseIsLowerEquality` | app/src/main/java/com/joaobzao/s/MainActivity.kt:108 | The character-by-character ignore-case comparison holds exactly when the lower-case forms are equal (both directions). |
| `Text.EqualsIgnoreCaseIsEquivalence` | app/src/main/java/com/joaobzao/s/MainActivity.kt:108 | Ignore-case equality is reflexive, symmetric and transitive, and implies equal length. |
| `Text.StartsWith` | app/src/main/java/com/joaobzao/s/MainActivity.kt:258-297 | Holds exactly when `prefix` is a prefix of `s`: `s` is `prefix` followed by some rest (both directions). |
| `Text.LongSIsNotFolded` | app/src/main/java/com/joaobzao/s/MainActivity.kt:108 | The long s (U+017F) is not folded: "true ſtar" does not match "true star" in the model (see Left out). |
| `Quiz.FeedbackMessages` | app/src/main/java/com/joaobzao/s/MainActivity.kt:109-114 | The correct-answer message starts with "Correct". The wrong-answer message and the empty feedback do not. |
| `Quiz.AnswerMatching` | app/src/main/java/com/joaobzao/s/MainActivity.kt:108 | "BALL" and "Ball" match the answer "ball", and " ball " and "ball " do not: nothing is trimmed. |
| `Quiz.SubmitAnswer` | app/src/main/java/com/joaobzao/s/MainActivity.kt:107-118 | On an ignore-case match: score + 1, hint hidden, feedback starts with "Correct". Otherwise: score unchanged, hint shown, feedback does not start with "Correct". Either way: question view hidden, index, typed text and final-screen flag unchanged. |
| `Quiz.NextQuestion` | app/src/main/java/com/joaobzao/s/MainActivity.kt:120-129 | If `index + 1 < 4`: index + 1 exactly (the `% size` never wraps), answer and feedback cleared, question shown. Otherwise: only the final screen is switched on. The score and hint are never touched, and the index stays in bounds. |
| `Quiz.RetryQuestion` | app/src/main/java/com/joaobzao/s/MainActivity.kt:176-180 | Answer and feedback cleared and question shown. Index, score, hint and final-screen flag unchanged. |
| `Quiz.RetryHintOverwritten` | app/src/main/java/com/joaobzao/s/MainActivity.kt:107-117 | After Retry, the next Submit sets `showHint` to exactly whether the typed answer is wrong, whatever Retry kept. |
| `Quiz.ButtonLabel` | app/src/main/java/com/joaobzao/s/MainActivity.kt:297 | The button reads "Next" exactly when the feedback starts with "Correct", and "Retry" otherwise. |
| `Quiz.FeedbackButton` | app/src/main/java/com/joaobzao/s/MainActivity.kt:287-294 | The button performs Next when it reads "Next" and Retry when it reads "Retry". After correct feedback the index advances by one or the final screen shows. Otherwise the same question returns. |
| `Quiz.CelebrationFor` | app/src/main/java/com/joaobzao/s/MainActivity.kt:258-284 | A picture shows exactly after correct feedback. The bonus `xmas4` is chosen exactly when `showImage` holds and the question's picture is `me`. Otherwise the question's own picture is shown. The shake invitation shows exactly on `me` while the bonus is still locked. |
| `Quiz.ShakeDetected` | app/src/main/java/com/joaobzao/s/MainActivity.kt:46-50 | The shake callback raises `showImage` and changes no quiz field. |
| `Quiz.ShakeDetectedIdempotent` | app/src/main/java/com/joaobzao/s/MainActivity.kt:46-50 | Raising the flag twice equals raising it once. |
| `Quiz.Deliver` | app/src/main/java/com/joaobzao/s/MainActivity.kt:131-182 | An event from a widget that is not on screen changes nothing. A shake changes no quiz field and raises the flag, and no other event touches the flag. The index stays in bounds. |
| `Quiz.Run` | app/src/main/java/com/joaobzao/s/MainActivity.kt:99-182 | Over any sequence of events the index stays within `[0, 4)`. |
| `Quiz.DeliverKeepsConsistent` | app/src/main/java/com/joaobzao/s/MainActivity.kt:99-182 | Every event preserves the score/progress invariant `Consistent`. |
| `Quiz.RunKeepsConsistent` | app/src/main/java/com/joaobzao/s/MainActivity.kt:99-182 | Any sequence of events preserves `Consistent`. |
| `Quiz.ReachableInvariants` | app/src/main/java/com/joaobzao/s/MainActivity.kt:72-182 | In every reachable session the index is below the common length (4) of questions, answers, hints and pictures. While the question shows, score == index. After a correct submission, score == index + 1. On the final screen, score == 4. The score is always in `[0, 4]`. |
| `Quiz.RunConcat` | app/src/main/java/com/joaobzao/s/MainActivity.kt:99-182 | Delivering two batches of events in turn equals delivering their concatenation. |
| `Quiz.RunThree` | app/src/main/java/com/joaobzao/s/MainActivity.kt:99-182 | Running three events is delivering them one after another. |
| `Quiz.CorrectRound` | app/src/main/java/com/joaobzao/s/MainActivity.kt:107-129 | Typing a matching answer, submitting and pressing the button adds one point. It moves to the next question, or to the final screen on the last one. |
| `Quiz.WrongRound` | app/src/main/java/com/joaobzao/s/MainActivity.kt:107-180 | Typing a wrong answer, submitting and pressing the button returns to the same question. The score is unchanged and `showHint` is still true (not shown on the question view). |
| `Quiz.OpeningRounds` | app/src/main/java/com/joaobzao/s/MainActivity.kt:87-129 | "Ball" then "wrong" leaves the second question on screen with score 1 and `showHint` still true (not shown on the question view). |
| `Quiz.SecondRound` | app/src/main/java/com/joaobzao/s/MainActivity.kt:87-129 | "CAR" on the second question moves to the third with score 2. |
| `Quiz.ThirdRound` | app/src/main/java/com/joaobzao/s/MainActivity.kt:87-129 | "true star" on the third question moves to the fourth with score 3. |
| `Quiz.LastRound` | app/src/main/java/com/joaobzao/s/MainActivity.kt:87-129 | "You" on the last question reaches the final screen with score 4. |
| `Quiz.RunFiveRounds` | app/src/main/java/com/joaobzao/s/MainActivity.kt:99-182 | Five rounds and a shake, delivered together, equal the rounds delivered one by one followed by the shake callback. |
| `Quiz.ShakeDuringLastFeedback` | app/src/main/java/com/joaobzao/s/MainActivity.kt:258-284 | From the last question with the flag down, a correct answer shows `me` with the shake prompt; a shake during that feedback switches the same screen to the bonus `xmas4` without the prompt, and the answer has scored one point. |
| `Quiz.LastAnswerThenShake` | app/src/main/java/com/joaobzao/s/MainActivity.kt:258-284 | From the last question with three points and the flag down, typing "You", submitting and shaking shows the bonus `xmas4` without the prompt, with a full score. |
| `Quiz.BonusDuringPlay` | app/src/main/java/com/joaobzao/s/MainActivity.kt:258-284 | In the game of `PlayThrough`, a shake while the last answer's feedback shows unlocks the bonus picture, with a full score. |
| `Quiz.DoubleSubmitScoresTwice` | app/src/main/java/com/joaobzao/s/MainActivity.kt:107-117 | Two submissions of the same correct first answer would score 2, and the feedback view that follows a submission does not take Submit clicks. |
| `Quiz.PlayThrough` | app/src/main/java/com/joaobzao/s/MainActivity.kt:46-129 | A whole game, with one wrong guess and a shake, ends on the final screen with a full score and the bonus unlocked. |
| `Quiz.MainActivity.constructor` | app/src/main/java/com/joaobzao/s/MainActivity.kt:63-66 | The `showImage` flag starts false. |
| `Quiz.MainActivity.OnShakeDetected` | app/src/main/java/com/joaobzao/s/MainActivity.kt:46-50 | The flag is true afterwards whatever it was before, and only the activity object is modified. |
| `Quiz.JourneyQuiz.constructor` | app/src/main/java/com/joaobzao/s/MainActivity.kt:99-105 | Index 0, empty answer and feedback, question shown, hint hidden, score 0, no final screen. |
| `Quiz.JourneyQuiz.OnAnswerChange` | app/src/main/java/com/joaobzao/s/MainActivity.kt:164 | Only the typed text changes. |
| `Quiz.JourneyQuiz.OnSubmitAnswer` | app/src/main/java/com/joaobzao/s/MainActivity.kt:107-118 | The fields become `SubmitAnswer` of the old fields. |
| `Quiz.JourneyQuiz.OnNextQuestion` | app/src/main/java/com/joaobzao/s/MainActivity.kt:120-129 | The fields become `NextQuestion` of the old fields, and the index stays in bounds. |
| `Quiz.JourneyQuiz.OnRetryQuestion` | app/src/main/java/com/joaobzao/s/MainActivity.kt:176-180 | The fields become `RetryQuestion` of the old fields. |
| `Quiz.JourneyQuiz.OnFeedbackButton` | app/src/main/java/com/joaobzao/s/MainActivity.kt:287-294 | The button's dispatch calls Next or Retry, and the fields become `FeedbackButton` of the old fields. |

## Left out

- Computing the g-force (the division by `GRAVITY_EARTH`, the square root and the strict comparison with 2.7f) and the sensor-type test are floating-point and platform work. Both are folded into the input `isCandidate`.
- `System.currentTimeMillis()` is a foreign clock. It is the parameter `now`.
- `onAccuracyChanged` is an empty platform callback.
- `onCreate`, `onResume` and `onPause`, and sensor registration, are Android lifecycle plumbing. A detached detector keeps its state, which the model's objects do trivially.
- All Compose rendering and animation are left out: the question text, the "My biscuit" header, the progress bar and its float value, the text field's look, and the final screen's texts. The `println` in the shake callback is left out as well.
- `AnimatedContent` is not modelled: the model assumes only the target view receives clicks, even during the 500 ms cross-fade. If the fading question view did take a second Submit tap, `onSubmitAnswer` would run twice and one correct answer would score 2 (`Quiz.DoubleSubmitScoresTwice`); `Quiz.ReachableInvariants`' `score == index` holds only under this assumption. Whether Compose delivers clicks to exiting content is not settled here.
- Of `TextFieldValue` only the text is modelled. Selection and composition are not.
- The threading and visibility of the companion's `mutableStateOf` are not modelled. `showImage` is a plain boolean field.
- Text.EqualsIgnoreCase: folds only ASCII letters. Kotlin's `equals(ignoreCase = true)` also folds non-ASCII letters in the typed text: the long s 'ſ' (U+017F) upper-cases to 'S', so "true ſtar" matches the third answer in the app but not in the model (`Text.LongSIsNotFolded`).
- ShakeDetection.Transition: does not model 64-bit overflow of `shakeTimestamp + 500` or `shakeTimestamp + 3000`. The timestamp is a clock reading far from the Long range.
- ShakeDetection.ShakeDetector.OnSensorChanged: does not model the 32-bit wrap-around of `shakeCount++`. The count is an unbounded integer.
- Quiz.SubmitAnswer: the score is an unbounded integer. `Quiz.ReachableInvariants` shows it never exceeds 4 in reachable states, so Int overflow cannot occur there.

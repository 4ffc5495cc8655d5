/**
 * The quiz screen's state machine: which question is on screen, what the
 * player typed, the feedback after a submission, whether the hint shows, the
 * score and whether the final screen has been reached, plus the app-wide
 * `showImage` flag that a shake raises to unlock the bonus picture.
 */
module Quiz {
  import opened Text

  datatype Option<T> = None | Some(value: T)

  /** The picture resources the screen can show. */
  datatype Drawable = Xmas1 | Xmas2 | Xmas3 | Xmas4 | Me | Sjzxmas

  const Questions: seq<string> := [
    "In a court where love first hit the net, round and small, with spins we met. Bouncing back with every sway, What am I that led to this day?",
    "The first neck kiss,\nSweaty and sweet, with a cereal treat.\nI have wheels and I'm always outside. \nWhat am I it's up to you to decide",
    "A testament to effort, honest and true,\nA hidden gem, much like my Biscuit, you \U{1F9E1}.\nWhat am I?",
    "I sparkle on the tree, a cozy sight,\nWith windows aglow in the holiday night.\nA little thing with lights so bright,\nWhat am I you wanted so much at first sight?"
  ]
  const Answers: seq<string> := ["ball", "car", "true star", "you"]
  const Hints: seq<string> := [
    "You can find me in the word 'football'",
    "I was once scratched but now I'm painted like new.",
    "JZ recognition, Biscuit \U{1F36A} version",
    "How couldn't you immediately said 'you'? You owe me a massage!! (72h)"
  ]
  /** The picture shown with the feedback for each question. */
  const DrawableIds: seq<Drawable> := [Xmas1, Xmas2, Xmas3, Me]

  const CorrectFeedback: string := "Correct! On to the next \U{1F385}\U{1F381}..."
  const WrongFeedback: string := "Oops! Kiss me to try again."

  /** The seven state variables of the quiz screen. */
  datatype QuizState = QuizState(
    currentQuestionIndex: nat,
    userAnswer: string,
    feedback: string,
    showQuestion: bool,
    showHint: bool,
    score: int,
    showFinalScreen: bool)

  /** The values the screen remembers when it is first composed. */
  const InitialQuiz: QuizState := QuizState(0, "", "", true, false, 0, false)

  /** The current index selects a question, an answer, a hint and a picture. */
  predicate InBounds(q: QuizState)
  {
    q.currentQuestionIndex < |Questions|
  }

  /** The correct-answer feedback is recognised as such, the wrong-answer one is not. */
  lemma FeedbackMessages()
    ensures StartsWith(CorrectFeedback, "Correct")
    ensures !StartsWith(WrongFeedback, "Correct")
    ensures !StartsWith("", "Correct")
  {
    assert CorrectFeedback[..7] == "Correct";
    assert WrongFeedback[0] != 'C';
  }

  /** The Submit button: compares the typed text with the expected answer, ignoring case. */
  function SubmitAnswer(q: QuizState): (r: QuizState)
    requires InBounds(q)
    // A match scores a point, hides the hint and gives feedback the Next button recognises.
    ensures EqualsIgnoreCase(q.userAnswer, Answers[q.currentQuestionIndex]) ==>
      r.score == q.score + 1 && !r.showHint && StartsWith(r.feedback, "Correct")
    // Anything else keeps the score, shows the hint and leads to Retry.
    ensures !EqualsIgnoreCase(q.userAnswer, Answers[q.currentQuestionIndex]) ==>
      r.score == q.score && r.showHint && !StartsWith(r.feedback, "Correct")
    // Either way the feedback view replaces the question, and the question stays the same.
    ensures !r.showQuestion && r.feedback != ""
    ensures r.currentQuestionIndex == q.currentQuestionIndex && r.userAnswer == q.userAnswer
    ensures r.showFinalScreen == q.showFinalScreen
  {
    FeedbackMessages();
    if EqualsIgnoreCase(q.userAnswer, Answers[q.currentQuestionIndex]) then
      q.(feedback := CorrectFeedback, score := q.score + 1, showQuestion := false, showHint := false)
    else
      q.(feedback := WrongFeedback, showQuestion := false, showHint := true)
  }

  /** The Next action: the following question, or the final screen after the last one. */
  function NextQuestion(q: QuizState): (r: QuizState)
    // Before the last question the index moves on by exactly one: the modulo never wraps.
    ensures q.currentQuestionIndex + 1 < |Questions| ==>
      r.currentQuestionIndex == q.currentQuestionIndex + 1 && r.userAnswer == "" && r.feedback == ""
      && r.showQuestion && r.showFinalScreen == q.showFinalScreen
    // On the last question only the final screen is switched on.
    ensures q.currentQuestionIndex + 1 >= |Questions| ==> r == q.(showFinalScreen := true)
    ensures r.score == q.score && r.showHint == q.showHint
    ensures InBounds(q) ==> InBounds(r)
  {
    if q.currentQuestionIndex + 1 < |Questions| then
      q.(currentQuestionIndex := (q.currentQuestionIndex + 1) % |Questions|,
         userAnswer := "", feedback := "", showQuestion := true)
    else
      q.(showFinalScreen := true)
  }

  /** The Retry action: back to the same question with an empty answer; `showHint` stays as it was. */
  function RetryQuestion(q: QuizState): (r: QuizState)
    ensures r.userAnswer == "" && r.feedback == "" && r.showQuestion
    ensures r.currentQuestionIndex == q.currentQuestionIndex && r.score == q.score
    ensures r.showHint == q.showHint && r.showFinalScreen == q.showFinalScreen
  {
    q.(userAnswer := "", feedback := "", showQuestion := true)
  }

  /** The caption of the feedback view's button. */
  function ButtonLabel(q: QuizState): (caption: string)
    ensures caption == "Next" <==> StartsWith(q.feedback, "Correct")
    ensures caption == "Next" || caption == "Retry"
  {
    if StartsWith(q.feedback, "Correct") then "Next" else "Retry"
  }

  /** The feedback view's button: Next after correct feedback, Retry otherwise. */
  function FeedbackButton(q: QuizState): (r: QuizState)
    ensures ButtonLabel(q) == "Next" ==> r == NextQuestion(q)
    ensures ButtonLabel(q) == "Retry" ==> r == RetryQuestion(q)
    ensures StartsWith(q.feedback, "Correct") ==> r.currentQuestionIndex == q.currentQuestionIndex + 1 || r.showFinalScreen
    ensures !StartsWith(q.feedback, "Correct") ==> r.currentQuestionIndex == q.currentQuestionIndex && r.showQuestion
  {
    if StartsWith(q.feedback, "Correct") then NextQuestion(q) else RetryQuestion(q)
  }

  /** What the feedback view celebrates with: a picture, and whether it invites a shake. */
  datatype Celebration = Celebration(image: Option<Drawable>, shakePrompt: bool)

  /** The picture choice of the feedback view for the current question. */
  function CelebrationFor(q: QuizState, showImage: bool): (c: Celebration)
    requires InBounds(q)
    // Only correct feedback is illustrated.
    ensures c.image.Some? <==> StartsWith(q.feedback, "Correct")
    // The bonus picture needs the shake flag and the last question's picture.
    ensures c.image == Some(Xmas4) <==>
      StartsWith(q.feedback, "Correct") && showImage && DrawableIds[q.currentQuestionIndex] == Me
    ensures c.image.Some? && c.image != Some(Xmas4) ==> c.image == Some(DrawableIds[q.currentQuestionIndex])
    // The invitation to shake shows on the last question's picture until the bonus is unlocked.
    ensures c.shakePrompt <==>
      StartsWith(q.feedback, "Correct") && !showImage && DrawableIds[q.currentQuestionIndex] == Me
  {
    var drawableId := DrawableIds[q.currentQuestionIndex];
    if !StartsWith(q.feedback, "Correct") then Celebration(None, false)
    else if showImage && drawableId == Me then Celebration(Some(Xmas4), false)
    else Celebration(Some(drawableId), drawableId == Me)
  }

  /** The quiz screen together with the app-wide shake flag. */
  datatype Session = Session(quiz: QuizState, showImage: bool)

  const InitialSession: Session := Session(InitialQuiz, false)

  /** The shake callback: raises the flag and touches nothing else. */
  function ShakeDetected(s: Session): (r: Session)
    ensures r.showImage
    ensures r.quiz == s.quiz
  {
    s.(showImage := true)
  }

  /** Raising the flag twice is the same as raising it once. */
  lemma ShakeDetectedIdempotent(s: Session)
    ensures ShakeDetected(ShakeDetected(s)) == ShakeDetected(s)
  {
  }

  /** What can happen to the screen: typing, the two buttons, and a shake. */
  datatype Event = AnswerChanged(text: string) | SubmitClicked | FeedbackButtonClicked | ShakeSignal

  /**
   * Whether the widget an event comes from is on screen: the text field and
   * Submit in the question view, the feedback button in the feedback view,
   * none of them on the final screen. A shake can come at any time.
   */
  predicate OnScreen(q: QuizState, e: Event)
  {
    match e
    case AnswerChanged(_) => !q.showFinalScreen && q.showQuestion
    case SubmitClicked => !q.showFinalScreen && q.showQuestion
    case FeedbackButtonClicked => !q.showFinalScreen && !q.showQuestion
    case ShakeSignal => true
  }

  /** The effect of one event; an event from a widget that is not shown cannot happen. */
  function Deliver(s: Session, e: Event): (r: Session)
    requires InBounds(s.quiz)
    ensures InBounds(r.quiz)
    ensures !OnScreen(s.quiz, e) ==> r == s
    // A shake changes no quiz field, and nothing but a shake touches the flag.
    ensures e.ShakeSignal? ==> r.quiz == s.quiz && r.showImage
    ensures !e.ShakeSignal? ==> r.showImage == s.showImage
  {
    if !OnScreen(s.quiz, e) then s
    else
      match e
      case AnswerChanged(text) => s.(quiz := s.quiz.(userAnswer := text))
      case SubmitClicked => s.(quiz := SubmitAnswer(s.quiz))
      case FeedbackButtonClicked => s.(quiz := FeedbackButton(s.quiz))
      case ShakeSignal => ShakeDetected(s)
  }

  /** Delivers `events` in order. */
  function Run(s: Session, events: seq<Event>): (r: Session)
    requires InBounds(s.quiz)
    ensures InBounds(r.quiz)
    decreases |events|
  {
    if events == [] then s else Run(Deliver(s, events[0]), events[1..])
  }

  /**
   * The relation between progress and score that the screen keeps: on the
   * question view every earlier question has been answered correctly, the
   * feedback view follows a submission that scored exactly when it was
   * correct, and the final screen comes after all questions were answered.
   */
  ghost predicate Consistent(q: QuizState)
  {
    && InBounds(q)
    && (q.showFinalScreen ==>
          q.score == |Questions| && q.currentQuestionIndex == |Questions| - 1
          && !q.showQuestion && q.feedback == CorrectFeedback)
    && (!q.showFinalScreen && q.showQuestion ==>
          q.score == q.currentQuestionIndex && q.feedback == "")
    && (!q.showFinalScreen && !q.showQuestion ==>
          || (q.feedback == CorrectFeedback && q.score == q.currentQuestionIndex + 1 && !q.showHint)
          || (q.feedback == WrongFeedback && q.score == q.currentQuestionIndex && q.showHint))
  }

  lemma DeliverKeepsConsistent(s: Session, e: Event)
    requires Consistent(s.quiz)
    ensures Consistent(Deliver(s, e).quiz)
  {
    FeedbackMessages();
  }

  lemma {:induction false} RunKeepsConsistent(s: Session, events: seq<Event>)
    requires Consistent(s.quiz)
    ensures Consistent(Run(s, events).quiz)
    decreases |events|
  {
    if events != [] {
      DeliverKeepsConsistent(s, events[0]);
      RunKeepsConsistent(Deliver(s, events[0]), events[1..]);
    }
  }

  /** The sessions the screen can get into from its first composition. */
  ghost predicate Reachable(s: Session)
  {
    exists events :: s == Run(InitialSession, events)
  }

  /**
   * In every reachable session: the index selects a question, an answer, a
   * hint and a picture; while the question shows, the score equals the
   * index; after a correct submission it is one more; the final screen shows
   * a full score.
   */
  lemma ReachableInvariants(s: Session)
    requires Reachable(s)
    ensures s.quiz.currentQuestionIndex < |Questions| == |Answers| == |Hints| == |DrawableIds|
    ensures s.quiz.showQuestion ==> s.quiz.score == s.quiz.currentQuestionIndex
    ensures !s.quiz.showFinalScreen && !s.quiz.showQuestion && StartsWith(s.quiz.feedback, "Correct") ==>
      s.quiz.score == s.quiz.currentQuestionIndex + 1
    ensures s.quiz.showFinalScreen ==> s.quiz.score == |Questions|
    ensures 0 <= s.quiz.score <= |Questions|
  {
    var events :| s == Run(InitialSession, events);
    RunKeepsConsistent(InitialSession, events);
    FeedbackMessages();
  }

  /**
   * The `showHint` that Retry keeps is never seen: the question view does not
   * draw the hint, and the next Submit sets `showHint` from the answer alone.
   */
  lemma RetryHintOverwritten(q: QuizState, text: string)
    requires InBounds(q)
    ensures SubmitAnswer(RetryQuestion(q).(userAnswer := text)).showHint
        == !EqualsIgnoreCase(text, Answers[q.currentQuestionIndex])
  {
  }

  /** Case does not matter when answering, but surrounding spaces do: nothing is trimmed. */
  lemma AnswerMatching()
    ensures EqualsIgnoreCase("BALL", Answers[0]) && EqualsIgnoreCase("Ball", Answers[0])
    ensures !EqualsIgnoreCase(" ball ", Answers[0]) && !EqualsIgnoreCase("ball ", Answers[0])
  {
    EqualsIgnoreCaseIsLowerEquality("BALL", "ball");
    EqualsIgnoreCaseIsLowerEquality("Ball", "ball");
    assert ToLowerAscii("BALL") == "ball";
    assert ToLowerAscii("Ball") == "ball";
  }

  /** Delivering two batches of events one after the other is delivering them together. */
  lemma {:induction false} RunConcat(s: Session, a: seq<Event>, b: seq<Event>)
    requires InBounds(s.quiz)
    ensures Run(s, a + b) == Run(Run(s, a), b)
    decreases |a|
  {
    if a == [] {
      assert a + b == b;
    } else {
      assert (a + b)[0] == a[0] && (a + b)[1..] == a[1..] + b;
      RunConcat(Deliver(s, a[0]), a[1..], b);
    }
  }

  /** Three events delivered in turn. */
  lemma RunThree(s: Session, e0: Event, e1: Event, e2: Event)
    requires InBounds(s.quiz)
    ensures Run(s, [e0, e1, e2]) == Deliver(Deliver(Deliver(s, e0), e1), e2)
  {
    var t1 := Deliver(s, e0);
    var t2 := Deliver(t1, e1);
    var t3 := Deliver(t2, e2);
    assert [e0, e1, e2][1..] == [e1, e2];
    assert [e1, e2][1..] == [e2];
    assert [e2][1..] == [];
    assert Run(t3, []) == t3;
    assert Run(t2, [e2]) == t3;
    assert Run(t1, [e1, e2]) == t3;
  }

  /** The events of one round on the question view: type, submit, press the feedback button. */
  function Round(text: string): seq<Event>
  {
    [AnswerChanged(text), SubmitClicked, FeedbackButtonClicked]
  }

  /** A right answer moves on to the next question with one more point, or ends the game on the last. */
  lemma CorrectRound(s: Session, text: string)
    requires InBounds(s.quiz) && s.quiz.showQuestion && !s.quiz.showFinalScreen
    requires EqualsIgnoreCase(text, Answers[s.quiz.currentQuestionIndex])
    ensures var r := Run(s, Round(text));
      && r.showImage == s.showImage
      && r.quiz.score == s.quiz.score + 1
      && (s.quiz.currentQuestionIndex + 1 < |Questions| ==>
            r.quiz.currentQuestionIndex == s.quiz.currentQuestionIndex + 1
            && r.quiz.showQuestion && !r.quiz.showFinalScreen)
      && (s.quiz.currentQuestionIndex + 1 == |Questions| ==> r.quiz.showFinalScreen)
  {
    RunThree(s, AnswerChanged(text), SubmitClicked, FeedbackButtonClicked);
  }

  /** A wrong answer comes back to the same question, with the same score and `showHint` still true. */
  lemma WrongRound(s: Session, text: string)
    requires InBounds(s.quiz) && s.quiz.showQuestion && !s.quiz.showFinalScreen
    requires !EqualsIgnoreCase(text, Answers[s.quiz.currentQuestionIndex])
    ensures var r := Run(s, Round(text));
      && r.showImage == s.showImage
      && r.quiz.score == s.quiz.score
      && r.quiz.currentQuestionIndex == s.quiz.currentQuestionIndex
      && r.quiz.showQuestion && r.quiz.showHint && !r.quiz.showFinalScreen
  {
    RunThree(s, AnswerChanged(text), SubmitClicked, FeedbackButtonClicked);
  }

  /** The first question answered in another case, then a wrong guess at the second. */
  lemma OpeningRounds()
    ensures var s := Run(Run(InitialSession, Round("Ball")), Round("wrong"));
      && InBounds(s.quiz) && s.quiz.currentQuestionIndex == 1 && s.quiz.score == 1
      && s.quiz.showQuestion && s.quiz.showHint && !s.quiz.showFinalScreen && !s.showImage
  {
    var s1 := Run(InitialSession, Round("Ball"));
    AnswerMatching();
    CorrectRound(InitialSession, "Ball");
    assert !EqualsIgnoreCase("wrong", "car");
    WrongRound(s1, "wrong");
  }

  /** The second question answered in capitals. */
  lemma SecondRound(s: Session)
    requires InBounds(s.quiz) && s.quiz.currentQuestionIndex == 1 && s.quiz.score == 1
    requires s.quiz.showQuestion && !s.quiz.showFinalScreen
    ensures var r := Run(s, Round("CAR"));
      && InBounds(r.quiz) && r.quiz.currentQuestionIndex == 2 && r.quiz.score == 2
      && r.quiz.showQuestion && !r.quiz.showFinalScreen && r.showImage == s.showImage
  {
    EqualsIgnoreCaseIsLowerEquality("CAR", "car");
    assert ToLowerAscii("CAR") == "car";
    CorrectRound(s, "CAR");
  }

  /** The third question answered exactly. */
  lemma ThirdRound(s: Session)
    requires InBounds(s.quiz) && s.quiz.currentQuestionIndex == 2 && s.quiz.score == 2
    requires s.quiz.showQuestion && !s.quiz.showFinalScreen
    ensures var r := Run(s, Round("true star"));
      && InBounds(r.quiz) && r.quiz.currentQuestionIndex == 3 && r.quiz.score == 3
      && r.quiz.showQuestion && !r.quiz.showFinalScreen && r.showImage == s.showImage
  {
    EqualsIgnoreCaseIsEquivalence("true star", "true star", "true star");
    CorrectRound(s, "true star");
  }

  /** The last question answered with a capital: the final screen, with a full score. */
  lemma LastRound(s: Session)
    requires InBounds(s.quiz) && s.quiz.currentQuestionIndex == 3 && s.quiz.score == 3
    requires s.quiz.showQuestion && !s.quiz.showFinalScreen
    ensures var r := Run(s, Round("You"));
      InBounds(r.quiz) && r.quiz.showFinalScreen && r.quiz.score == |Questions| && r.showImage == s.showImage
  {
    EqualsIgnoreCaseIsLowerEquality("You", "you");
    assert ToLowerAscii("You") == "you";
    CorrectRound(s, "You");
  }

  /** Five rounds and a shake, delivered together, are delivered round by round. */
  lemma RunFiveRounds(s: Session, a: string, b: string, c: string, d: string, e: string)
    requires InBounds(s.quiz)
    ensures Run(s, Round(a) + Round(b) + Round(c) + Round(d) + Round(e) + [ShakeSignal])
         == ShakeDetected(Run(Run(Run(Run(Run(s, Round(a)), Round(b)), Round(c)), Round(d)), Round(e)))
  {
    var x1 := Round(a);
    var x2 := x1 + Round(b);
    var x3 := x2 + Round(c);
    var x4 := x3 + Round(d);
    var x5 := x4 + Round(e);
    RunConcat(s, x1, Round(b));
    RunConcat(s, x2, Round(c));
    RunConcat(s, x3, Round(d));
    RunConcat(s, x4, Round(e));
    RunConcat(s, x5, [ShakeSignal]);
    var t := Run(s, x5);
    assert [ShakeSignal][1..] == [];
    assert Run(t, [ShakeSignal]) == Run(Deliver(t, ShakeSignal), []);
  }

  /**
   * A whole game: every answer typed in some mix of case, one wrong guess
   * and a retry on the second question, then a shake. The final screen
   * shows with a full score and the bonus unlocked.
   */
  lemma PlayThrough()
    ensures var s := Run(InitialSession,
        Round("Ball") + Round("wrong") + Round("CAR") + Round("true star") + Round("You") + [ShakeSignal]);
      s.quiz.showFinalScreen && s.quiz.score == |Questions| && s.showImage
  {
    var s2 := Run(Run(InitialSession, Round("Ball")), Round("wrong"));
    OpeningRounds();
    SecondRound(s2);
    var s3 := Run(s2, Round("CAR"));
    ThirdRound(s3);
    var s4 := Run(s3, Round("true star"));
    LastRound(s4);
    RunFiveRounds(InitialSession, "Ball", "wrong", "CAR", "true star", "You");
  }

  /**
   * A correct answer to the last question, then a shake while its feedback
   * shows: the prompt to shake gives way to the bonus picture at once.
   */
  lemma ShakeDuringLastFeedback(s: Session, text: string)
    requires InBounds(s.quiz) && s.quiz.showQuestion && !s.quiz.showFinalScreen && !s.showImage
    requires s.quiz.currentQuestionIndex == |Questions| - 1
    requires EqualsIgnoreCase(text, Answers[|Questions| - 1])
    ensures var r := Run(s, [AnswerChanged(text), SubmitClicked, ShakeSignal]);
      && !r.quiz.showQuestion && !r.quiz.showFinalScreen && r.quiz.score == s.quiz.score + 1
      && CelebrationFor(r.quiz, r.showImage) == Celebration(Some(Xmas4), false)
    ensures var r := Deliver(Deliver(s, AnswerChanged(text)), SubmitClicked);
      CelebrationFor(r.quiz, r.showImage) == Celebration(Some(Me), true)
  {
    RunThree(s, AnswerChanged(text), SubmitClicked, ShakeSignal);
    var t := Deliver(Deliver(s, AnswerChanged(text)), SubmitClicked);
    assert StartsWith(t.quiz.feedback, "Correct") by {
      assert t.quiz.feedback == CorrectFeedback;
      assert CorrectFeedback == "Correct" + CorrectFeedback[7..];
    }
  }

  /** The last answer typed as "You" and a shake, from the last question with three points and the flag down. */
  lemma LastAnswerThenShake(s: Session)
    requires InBounds(s.quiz) && s.quiz.showQuestion && !s.quiz.showFinalScreen && !s.showImage
    requires s.quiz.currentQuestionIndex == 3 && s.quiz.score == 3
    ensures var r := Run(s, [AnswerChanged("You"), SubmitClicked, ShakeSignal]);
      CelebrationFor(r.quiz, r.showImage) == Celebration(Some(Xmas4), false) && r.quiz.score == |Questions|
  {
    EqualsIgnoreCaseIsLowerEquality("You", "you");
    assert ToLowerAscii("You") == "you";
    ShakeDuringLastFeedback(s, "You");
  }

  /** In the game of `PlayThrough`, a shake while "You" is being congratulated unlocks the bonus picture. */
  lemma BonusDuringPlay()
    ensures var s4 := Run(Run(Run(Run(InitialSession, Round("Ball")), Round("wrong")), Round("CAR")), Round("true star"));
      var r := Run(s4, [AnswerChanged("You"), SubmitClicked, ShakeSignal]);
      CelebrationFor(r.quiz, r.showImage) == Celebration(Some(Xmas4), false) && r.quiz.score == |Questions|
  {
    var s2 := Run(Run(InitialSession, Round("Ball")), Round("wrong"));
    OpeningRounds();
    SecondRound(s2);
    var s3 := Run(s2, Round("CAR"));
    ThirdRound(s3);
    LastAnswerThenShake(Run(s3, Round("true star")));
  }

  /**
   * Without the rule that only the view on screen takes clicks, a second
   * Submit tap on the same correct answer would score it twice.
   */
  lemma DoubleSubmitScoresTwice()
    ensures SubmitAnswer(SubmitAnswer(InitialQuiz.(userAnswer := "ball"))).score == 2
    ensures !OnScreen(SubmitAnswer(InitialQuiz.(userAnswer := "ball")), SubmitClicked)
  {
    EqualsIgnoreCaseIsLowerEquality("ball", "ball");
  }

  /** The app-wide flag that the shake callback raises (a companion-object property). */
  class MainActivity {
    var showImage: bool

    constructor ()
      ensures !showImage
    {
      showImage := false;
    }

    /** The shake callback: raises the flag, whatever it was. */
    method OnShakeDetected()
      modifies this
      ensures showImage
    {
      showImage := true;
    }
  }

  /** The quiz screen's remembered state and the actions its widgets trigger. */
  class JourneyQuiz {
    var currentQuestionIndex: nat
    var userAnswer: string
    var feedback: string
    var showQuestion: bool
    var showHint: bool
    var score: int
    var showFinalScreen: bool

    function State(): QuizState
      reads this
    {
      QuizState(currentQuestionIndex, userAnswer, feedback, showQuestion, showHint, score, showFinalScreen)
    }

    ghost predicate Valid()
      reads this
    {
      InBounds(State())
    }

    constructor ()
      ensures Valid() && State() == InitialQuiz
    {
      currentQuestionIndex := 0;
      userAnswer := "";
      feedback := "";
      showQuestion := true;
      showHint := false;
      score := 0;
      showFinalScreen := false;
    }

    /** The text field's change callback. */
    method OnAnswerChange(text: string)
      requires Valid()
      modifies this
      ensures Valid() && State() == old(State()).(userAnswer := text)
    {
      userAnswer := text;
    }

    method OnSubmitAnswer()
      requires Valid()
      modifies this
      ensures Valid() && State() == SubmitAnswer(old(State()))
    {
      if EqualsIgnoreCase(userAnswer, Answers[currentQuestionIndex]) {
        feedback := CorrectFeedback;
        score := score + 1;
        showQuestion := false;
        showHint := false;
      } else {
        feedback := WrongFeedback;
        showQuestion := false;
        showHint := true;
      }
    }

    method OnNextQuestion()
      requires Valid()
      modifies this
      ensures Valid() && State() == NextQuestion(old(State()))
    {
      if currentQuestionIndex + 1 < |Questions| {
        currentQuestionIndex := (currentQuestionIndex + 1) % |Questions|;
        userAnswer := "";
        feedback := "";
        showQuestion := true;
      } else {
        showFinalScreen := true;
      }
    }

    method OnRetryQuestion()
      requires Valid()
      modifies this
      ensures Valid() && State() == RetryQuestion(old(State()))
    {
      userAnswer := "";
      feedback := "";
      showQuestion := true;
    }

    /** The feedback view's button. */
    method OnFeedbackButton()
      requires Valid()
      modifies this
      ensures Valid() && State() == FeedbackButton(old(State()))
    {
      if StartsWith(feedback, "Correct") {
        OnNextQuestion();
      } else {
        OnRetryQuestion();
      }
    }
  }
}

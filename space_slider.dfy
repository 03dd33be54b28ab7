/**
 * Space Slider: a reflex game. A coloured shape falls two units per 50 ms
 * tick; when it reaches the bottom it is judged against the lane the player
 * stands in (green wants right, yellow left, red the middle). A correct
 * verdict scores a point, a wrong one costs one of three lives. After a
 * 1.5 s feedback pause the game either ends (third life lost, or twelfth
 * round judged) or spawns the next shape.
 *
 * The random colour is a parameter of the spawn, and the feedback timeout is
 * the explicit step `FeedbackDoneStep`. The spawn effect fires in the same
 * commit as the state change that triggers it (pressing Start, or the end of
 * a feedback pause), so those two steps spawn directly.
 */
module SpaceSlider {
  import opened Rewards

  datatype Color = Green | Yellow | Red
  datatype Lane = Left | Middle | Right
  datatype Verdict = Correct | Incorrect
  datatype Key = ArrowLeft | ArrowRight | OtherKey

  datatype Shape = Shape(id: int, color: Color, position: int)

  /** The values of `score`, `lives` and `round` (and the verdict) that the feedback timeout captures when a shape is judged. */
  datatype Judgment = Judgment(correct: bool, score: int, lives: int, round: int)

  const TotalRounds: int := 12
  const StartLives: int := 3
  const FallStep: int := 2
  const DragThreshold: int := 50
  const RocketBadge: string := "🚀"

  /** A snapshot of the component's state; `pending` is the feedback timeout that has been scheduled. */
  datatype SliderState = SliderState(
    isPlaying: bool,
    shape: Option<Shape>,
    round: int,
    score: int,
    lives: int,
    feedback: Option<Verdict>,
    lane: Lane,
    isDragging: bool,
    dragStartX: int,
    pending: Option<Judgment>)

  const Initial: SliderState := SliderState(false, None, 0, 0, StartLives, None, Middle, false, 0, None)

  // ---------------------------------------------------------------------
  // The verdict table

  /** Whether a shape of colour `c` judged with the player in lane `l` is a correct answer. */
  predicate IsCorrect(c: Color, l: Lane)
  {
    (c == Green && l == Right) || (c == Yellow && l == Left) || (c == Red && l == Middle)
  }

  /** The lane each colour asks for, as the instructions state it. */
  function CorrectLane(c: Color): Lane
  {
    match c
    case Green => Right
    case Yellow => Left
    case Red => Middle
  }

  /** A lane that answers colour `c` wrongly. */
  function WrongLane(c: Color): (l: Lane)
    ensures !IsCorrect(c, l)
  {
    if c == Red then Left else Middle
  }

  /** A verdict is correct exactly in the player's lane the colour asks for, so each colour has exactly one correct lane. */
  lemma VerdictTable(c: Color, l: Lane)
    ensures IsCorrect(c, l) <==> l == CorrectLane(c)
    ensures forall l2: Lane :: IsCorrect(c, l) && IsCorrect(c, l2) ==> l == l2
  {
  }

  // ---------------------------------------------------------------------
  // Steps

  /** The spawn effect: while playing and not showing feedback, a fresh shape of colour `color` appears at the top and the player returns to the middle. */
  function SpawnStep(s: SliderState, color: Color): SliderState
  {
    if s.isPlaying && s.feedback.None? then s.(shape := Some(Shape(s.round, color, 0)), lane := Middle)
    else s
  }

  /** The "Launch Mission!" button, followed by the spawn it triggers. */
  function StartStep(s: SliderState, color: Color): SliderState
  {
    SpawnStep(s.(isPlaying := true), color)
  }

  /** `checkAnswer`: judge the current shape against the player's lane and schedule the feedback timeout. */
  function JudgeStep(s: SliderState): SliderState
    requires s.shape.Some?
  {
    var ok := IsCorrect(s.shape.value.color, s.lane);
    s.(score := if ok then s.score + 1 else s.score,
       lives := if ok then s.lives else s.lives - 1,
       feedback := Some(if ok then Correct else Incorrect),
       pending := Some(Judgment(ok, s.score, s.lives, s.round)))
  }

  /**
   * One firing of the 50 ms fall interval, which runs only while a shape is
   * shown and no feedback is. The shape moves two units down; when it would
   * reach 100 it is judged instead and its position is left as it was.
   */
  function FallTickStep(s: SliderState): SliderState
  {
    if s.shape.None? || s.feedback.Some? then s
    else
      var p := s.shape.value.position + FallStep;
      if p >= 100 then JudgeStep(s)
      else s.(shape := Some(s.shape.value.(position := p)))
  }

  /** The reward at the end of the game: `max(minimum, floor(score / 12 * 5))` stars, and the rocket badge from ten points on. */
  function EndReward(minimum: int, score: int): Reward
  {
    Reward(Max(minimum, score * 5 / TotalRounds), if score >= 10 then Some(RocketBadge) else None)
  }

  /**
   * The end of the 1.5 s feedback pause. The feedback is cleared; a wrong
   * answer on the last life ends the game with at least two stars, the
   * twelfth judgment ends it with at least three, and otherwise the next
   * round starts with a shape of colour `next`. The reward is computed from
   * the score after this round's judgment.
   */
  function FeedbackDoneStep(s: SliderState, next: Color): (SliderState, Option<Reward>)
    requires s.pending.Some?
  {
    var j := s.pending.value;
    var cleared := s.(feedback := None, pending := None);
    if j.lives <= 1 && !j.correct then (cleared, Some(EndReward(2, s.score)))
    else if j.round + 1 >= TotalRounds then (cleared, Some(EndReward(3, s.score)))
    else (SpawnStep(cleared.(round := j.round + 1), next), None)
  }

  /**
   * The feedback timeout as the source writes it: the closure reads the
   * `score` captured when the shape was judged, before that judgment's
   * point was added.
   */
  function FeedbackDoneAsWritten(s: SliderState, next: Color): (SliderState, Option<Reward>)
    requires s.pending.Some?
  {
    var j := s.pending.value;
    var cleared := s.(feedback := None, pending := None);
    if j.lives <= 1 && !j.correct then (cleared, Some(EndReward(2, j.score)))
    else if j.round + 1 >= TotalRounds then (cleared, Some(EndReward(3, j.score)))
    else (SpawnStep(cleared.(round := j.round + 1), next), None)
  }

  /** The window key handler: ignored while not playing or while feedback is shown. */
  function KeyStep(s: SliderState, key: Key): SliderState
  {
    if !s.isPlaying || s.feedback.Some? then s
    else if key == ArrowLeft && s.lane != Left then s.(lane := Left)
    else if key == ArrowRight && s.lane != Right then s.(lane := Right)
    else s
  }

  /** Mouse down or touch start on the track at horizontal coordinate `x`. */
  function DragStartStep(s: SliderState, x: int): SliderState
  {
    s.(isDragging := true, dragStartX := x)
  }

  /**
   * Mouse or touch move to coordinate `x`. The track exists only while
   * playing. A move more than 50 pixels right of the drag origin snaps to
   * the right lane, more than 50 left to the left lane, and restarts the
   * drag from `x`.
   */
  function DragMoveStep(s: SliderState, x: int): SliderState
  {
    if !s.isDragging || !s.isPlaying then s
    else
      var deltaX := x - s.dragStartX;
      if deltaX > DragThreshold && s.lane != Right then s.(lane := Right, dragStartX := x)
      else if deltaX < -DragThreshold && s.lane != Left then s.(lane := Left, dragStartX := x)
      else s
  }

  /** Mouse up, mouse leave or touch end. */
  function DragEndStep(s: SliderState): SliderState
  {
    s.(isDragging := false)
  }

  // ---------------------------------------------------------------------
  // The invariant

  /** Points plus lives lost equal the number of shapes judged. */
  predicate Tally(score: int, lives: int, judged: int)
  {
    score >= 0 && 1 <= lives <= StartLives && score + (StartLives - lives) == judged
  }

  predicate ShapeOk(s: SliderState)
  {
    s.isPlaying ==>
      s.shape.Some? && s.shape.value.id == s.round &&
      0 <= s.shape.value.position <= 98 && s.shape.value.position % 2 == 0
  }

  predicate Inv(s: SliderState)
  {
    && 0 <= s.round < TotalRounds
    && (!s.isPlaying ==> s.shape.None? && s.pending.None? && s.round == 0 && s.score == 0 && s.lives == StartLives)
    && ShapeOk(s)
    && (s.feedback.Some? <==> s.pending.Some?)
    && (s.pending.None? ==> Tally(s.score, s.lives, s.round))
    && (s.pending.Some? ==>
          var j := s.pending.value;
          && j.round == s.round
          && Tally(j.score, j.lives, s.round)
          && s.feedback == Some(if j.correct then Correct else Incorrect)
          && s.score == j.score + (if j.correct then 1 else 0)
          && s.lives == j.lives - (if j.correct then 0 else 1))
  }

  lemma InitialInv(c: Color)
    ensures Inv(Initial) && Inv(StartStep(Initial, c))
    ensures StartStep(Initial, c).lives == 3 && StartStep(Initial, c).shape == Some(Shape(0, c, 0))
  {
  }

  /** Every step except the end of the game keeps the invariant. */
  lemma StepsKeepInv(s: SliderState, c: Color, k: Key, x: int)
    requires Inv(s)
    ensures !s.isPlaying ==> Inv(StartStep(s, c))
    ensures Inv(FallTickStep(s))
    ensures Inv(KeyStep(s, k)) && Inv(DragStartStep(s, x)) && Inv(DragMoveStep(s, x)) && Inv(DragEndStep(s))
    ensures s.pending.Some? && FeedbackDoneStep(s, c).1.None? ==> Inv(FeedbackDoneStep(s, c).0)
  {
    FallTickKeepsInv(s);
    InputKeepsInv(s, k, x);
    if s.pending.Some? && FeedbackDoneStep(s, c).1.None? {
      FeedbackDoneKeepsInv(s, c);
    }
  }

  lemma FallTickKeepsInv(s: SliderState)
    requires Inv(s)
    ensures Inv(FallTickStep(s))
  {
  }

  lemma InputKeepsInv(s: SliderState, k: Key, x: int)
    requires Inv(s)
    ensures Inv(KeyStep(s, k)) && Inv(DragStartStep(s, x)) && Inv(DragMoveStep(s, x)) && Inv(DragEndStep(s))
  {
  }

  lemma FeedbackDoneKeepsInv(s: SliderState, c: Color)
    requires Inv(s) && s.pending.Some? && FeedbackDoneStep(s, c).1.None?
    ensures Inv(FeedbackDoneStep(s, c).0)
  {
  }

  /** Lives never grow, and stay within [0, 3]. */
  lemma LivesOnlyDecrease(s: SliderState, c: Color, k: Key, x: int)
    requires Inv(s)
    ensures 0 <= s.lives <= 3
    ensures FallTickStep(s).lives <= s.lives && KeyStep(s, k).lives == s.lives && DragMoveStep(s, x).lives == s.lives
    ensures s.pending.Some? ==> FeedbackDoneStep(s, c).0.lives == s.lives
  {
  }

  /** A spawn resets the lane to the middle and drops a new shape of the given colour from the top. */
  lemma SpawnFacts(s: SliderState, c: Color)
    requires s.isPlaying && s.feedback.None?
    ensures SpawnStep(s, c).lane == Middle && SpawnStep(s, c).shape == Some(Shape(s.round, c, 0))
  {
  }

  /**
   * A judgment adds exactly one point or removes exactly one life, never
   * both and never neither, and shows the matching feedback.
   */
  lemma JudgeScoresOrCostsLife(s: SliderState)
    requires s.shape.Some?
    ensures var t := JudgeStep(s);
      (t.score == s.score + 1 && t.lives == s.lives && t.feedback == Some(Correct) && IsCorrect(s.shape.value.color, s.lane)) ||
      (t.score == s.score && t.lives == s.lives - 1 && t.feedback == Some(Incorrect) && !IsCorrect(s.shape.value.color, s.lane))
  {
  }

  /** A fall tick either moves the shape two units down, or judges it without storing the new position. */
  lemma FallTickFacts(s: SliderState)
    requires Inv(s) && s.isPlaying && s.feedback.None?
    ensures var p := s.shape.value.position;
      FallTickStep(s) == (if p + 2 >= 100 then JudgeStep(s) else s.(shape := Some(s.shape.value.(position := p + 2))))
    ensures FallTickStep(s).shape == s.shape || FallTickStep(s).shape.value.position == s.shape.value.position + 2
    ensures FallTickStep(s).pending.Some? <==> s.shape.value.position == 98
  {
  }

  /** Keyboard and drag input only ever move the player to the left or right lane; neither moves during feedback. */
  lemma InputOnlySnapsSideways(s: SliderState, k: Key, x: int)
    ensures KeyStep(s, k).lane != s.lane ==> KeyStep(s, k).lane in {Left, Right}
    ensures DragMoveStep(s, x).lane != s.lane ==> DragMoveStep(s, x).lane in {Left, Right}
    ensures !s.isPlaying || s.feedback.Some? ==> KeyStep(s, k) == s
    ensures k == ArrowLeft && s.isPlaying && s.feedback.None? ==> KeyStep(s, k).lane == Left
    ensures k == ArrowRight && s.isPlaying && s.feedback.None? ==> KeyStep(s, k).lane == Right
  {
  }

  /** Input after the judgment cannot change its verdict: the judgment is already scheduled with the score and lives it produced. */
  lemma InputAfterJudgment(s: SliderState, k: Key, x: int, c: Color)
    requires Inv(s) && s.pending.Some?
    ensures FeedbackDoneStep(KeyStep(s, k), c) == FeedbackDoneStep(s, c)
    ensures FeedbackDoneStep(DragMoveStep(s, x), c).1 == FeedbackDoneStep(s, c).1
  {
  }

  /**
   * The game ends exactly when the last life is lost (checked first) or when
   * the twelfth round has been judged; the stars lie in [2, 5], and the
   * rocket badge is given exactly from ten points on. Losing the last life
   * never gives the badge and at most three stars.
   */
  lemma EndOfGame(s: SliderState, c: Color)
    requires Inv(s) && s.pending.Some?
    ensures var j := s.pending.value;
      var (t, r) := FeedbackDoneStep(s, c);
      && (r.Some? <==> (s.lives == 0 || s.round == TotalRounds - 1))
      && (s.lives == 0 ==> r == Some(EndReward(2, s.score)) && r.value.badge.None? && 2 <= r.value.stars <= 3)
      && (s.lives > 0 && s.round == TotalRounds - 1 ==> r == Some(EndReward(3, s.score)) && 3 <= r.value.stars <= 5)
      && (r.Some? ==> 2 <= r.value.stars <= 5 && (r.value.badge.Some? <==> s.score >= 10))
      && (r.None? ==> t.round == s.round + 1 && t.feedback.None? && t.pending.None?)
  {
    var j := s.pending.value;
    assert 0 <= s.score <= 12;
    assert s.lives == 0 ==> s.score <= 9;
  }

  // ---------------------------------------------------------------------
  // Whole rounds and whole games

  /** `n` consecutive fall ticks. */
  function FallRun(s: SliderState, n: nat): SliderState
    decreases n
  {
    if n == 0 then s else FallRun(FallTickStep(s), n - 1)
  }

  /** From a falling shape at position `p`, `(98 - p) / 2` ticks bring it to 98 and one more judges it. */
  lemma {:induction false} FallToBottom(s: SliderState)
    requires Inv(s) && s.isPlaying && s.feedback.None?
    ensures var p := s.shape.value.position;
      var bottom := s.(shape := Some(s.shape.value.(position := 98)));
      FallRun(s, (98 - p) / 2) == bottom &&
      FallRun(s, (98 - p) / 2 + 1) == JudgeStep(bottom)
    decreases 98 - s.shape.value.position
  {
    var p := s.shape.value.position;
    var bottom := s.(shape := Some(s.shape.value.(position := 98)));
    if p < 98 {
      var t := FallTickStep(s);
      assert t == s.(shape := Some(s.shape.value.(position := p + 2)));
      FallToBottom(t);
      assert (98 - p) / 2 == (98 - (p + 2)) / 2 + 1;
      assert t.(shape := Some(t.shape.value.(position := 98))) == bottom;
    } else {
      assert s == bottom;
      assert FallRun(s, 1) == FallTickStep(s);
    }
  }

  /**
   * One whole round with the player answering `ok`: the player stands in the
   * right or a wrong lane when the shape reaches the bottom, it is judged and
   * the feedback pause ends with the next colour `next`.
   */
  function RoundStep(s: SliderState, ok: bool, next: Color): (SliderState, Option<Reward>)
    requires s.shape.Some? && s.pending.None?
  {
    var c := s.shape.value.color;
    var bottom := s.(lane := if ok then CorrectLane(c) else WrongLane(c), shape := Some(s.shape.value.(position := 98)));
    FeedbackDoneStep(JudgeStep(bottom), next)
  }

  /** A round is what the fall ticks and the feedback timeout do once the player has moved. */
  lemma RoundIsFallAndFeedback(s: SliderState, ok: bool, next: Color)
    requires Inv(s) && s.isPlaying && s.feedback.None?
    ensures var c := s.shape.value.color;
      var moved := s.(lane := if ok then CorrectLane(c) else WrongLane(c));
      var n := (98 - s.shape.value.position) / 2 + 1;
      FallRun(moved, n).pending.Some? &&
      FeedbackDoneStep(FallRun(moved, n), next) == RoundStep(s, ok, next)
  {
    var c := s.shape.value.color;
    var moved := s.(lane := if ok then CorrectLane(c) else WrongLane(c));
    FallToBottom(moved);
  }

  predicate Falling(s: SliderState)
  {
    Inv(s) && s.isPlaying && s.pending.None?
  }

  lemma RoundKeepsFalling(s: SliderState, ok: bool, next: Color)
    requires Falling(s)
    ensures RoundStep(s, ok, next).1.None? ==> Falling(RoundStep(s, ok, next).0)
  {
    var c := s.shape.value.color;
    var bottom := s.(lane := if ok then CorrectLane(c) else WrongLane(c), shape := Some(s.shape.value.(position := 98)));
    assert Inv(bottom);
    JudgeKeepsInv(bottom);
    if FeedbackDoneStep(JudgeStep(bottom), next).1.None? {
      FeedbackDoneKeepsInv(JudgeStep(bottom), next);
    }
  }

  lemma JudgeKeepsInv(s: SliderState)
    requires Falling(s)
    ensures Inv(JudgeStep(s)) && JudgeStep(s).pending.Some?
  {
  }

  /**
   * Plays rounds with the answers `oks` and next colours `nexts` until the
   * game ends or the answers run out: the final state, the reward if the game
   * ended, and the number of rounds played.
   */
  function Play(s: SliderState, oks: seq<bool>, nexts: seq<Color>): (SliderState, Option<Reward>, nat)
    requires Falling(s) && |oks| == |nexts|
    decreases |oks|
  {
    if oks == [] then (s, None, 0)
    else
      var (t, r) := RoundStep(s, oks[0], nexts[0]);
      if r.Some? then (t, r, 1)
      else
        RoundKeepsFalling(s, oks[0], nexts[0]);
        var (u, r2, n) := Play(t, oks[1..], nexts[1..]);
        (u, r2, n + 1)
  }

  function Repeat<T>(x: T, n: nat): (r: seq<T>)
    ensures |r| == n && forall i :: 0 <= i < n ==> r[i] == x
  {
    if n == 0 then [] else [x] + Repeat(x, n - 1)
  }

  /** A game can never outlast twelve rounds: twelve answers always end it. */
  lemma {:induction false} PlayEnds(s: SliderState, oks: seq<bool>, nexts: seq<Color>)
    requires Falling(s) && |oks| == |nexts| && |oks| >= TotalRounds - s.round
    ensures Play(s, oks, nexts).1.Some? && Play(s, oks, nexts).2 <= TotalRounds - s.round
    decreases |oks|
  {
    var (t, r) := RoundStep(s, oks[0], nexts[0]);
    if r.None? {
      EndOfGame(JudgeStep(s.(lane := if oks[0] then CorrectLane(s.shape.value.color) else WrongLane(s.shape.value.color),
                             shape := Some(s.shape.value.(position := 98)))), nexts[0]);
      RoundKeepsFalling(s, oks[0], nexts[0]);
      PlayEnds(t, oks[1..], nexts[1..]);
    }
  }

  /** From round `r` with every answer so far right, answering the rest right ends after round twelve with `EndReward(3, 12)`. */
  lemma {:induction false} AllCorrectFrom(s: SliderState, nexts: seq<Color>)
    requires Falling(s) && s.score == s.round && s.lives == 3
    requires |nexts| == TotalRounds - s.round
    ensures Play(s, Repeat(true, |nexts|), nexts) == (Play(s, Repeat(true, |nexts|), nexts).0, Some(EndReward(3, 12)), |nexts|)
    decreases |nexts|
  {
    var oks := Repeat(true, |nexts|);
    var (t, r) := RoundStep(s, true, nexts[0]);
    if s.round + 1 < TotalRounds {
      RoundKeepsFalling(s, true, nexts[0]);
      assert oks[1..] == Repeat(true, |nexts| - 1);
      AllCorrectFrom(t, nexts[1..]);
    }
  }

  /** Twelve right answers give five stars and the rocket badge. */
  lemma AllCorrectGame(c0: Color, nexts: seq<Color>)
    requires |nexts| == 12
    ensures Play(StartStep(Initial, c0), Repeat(true, 12), nexts).1 == Some(Reward(5, Some("🚀")))
    ensures Play(StartStep(Initial, c0), Repeat(true, 12), nexts).2 == 12
  {
    var s0 := StartStep(Initial, c0);
    InitialInv(c0);
    AllCorrectFrom(s0, nexts);
    var p := Play(s0, Repeat(true, |nexts|), nexts);
    assert p.1 == Some(EndReward(3, 12)) && p.2 == 12;
    assert EndReward(3, 12) == Reward(5, Some("🚀"));
  }

  /** Three wrong answers from the start end the game after the third round with two stars and no badge. */
  lemma AllWrongGame(c0: Color, nexts: seq<Color>)
    requires |nexts| == 3
    ensures Play(StartStep(Initial, c0), [false, false, false], nexts).1 == Some(Reward(2, None))
    ensures Play(StartStep(Initial, c0), [false, false, false], nexts).2 == 3
  {
    var s0 := StartStep(Initial, c0);
    InitialInv(c0);
    var oks := [false, false, false];
    var (s1, r1) := RoundStep(s0, false, nexts[0]);
    RoundKeepsFalling(s0, false, nexts[0]);
    var (s2, r2) := RoundStep(s1, false, nexts[1]);
    RoundKeepsFalling(s1, false, nexts[1]);
    var (s3, r3) := RoundStep(s2, false, nexts[2]);
    assert s1.lives == 2 && s2.lives == 1 && r3 == Some(Reward(2, None));
    assert oks[1..] == [false, false] && oks[1..][1..] == [false];
  }

  /**
   * As written, the feedback timeout ends the game with the score from
   * before the last judgment: the twelfth right answer, on a score of
   * eleven, gives four stars although the final score is twelve.
   */
  lemma LastPointLostAsWritten()
    ensures var judged := SliderState(true, Some(Shape(11, Red, 98)), 11, 12, 3, Some(Correct), Middle, false, 0,
                                      Some(Judgment(true, 11, 3, 11)));
      Inv(judged) &&
      FeedbackDoneAsWritten(judged, Red).1 == Some(Reward(4, Some("🚀"))) &&
      FeedbackDoneStep(judged, Red).1 == Some(Reward(5, Some("🚀")))
  {
  }

  /** The state of `LastPointLostAsWritten` is where eleven right answers and a twelfth right judgment lead. */
  lemma {:induction false} EleventhRoundState(s: SliderState, nexts: seq<Color>)
    requires Falling(s) && s.score == s.round && s.lives == 3
    requires |nexts| == TotalRounds - 1 - s.round
    ensures var t := Play(s, Repeat(true, |nexts|), nexts);
      t.1.None? && t.2 == |nexts| && Falling(t.0) && t.0.round == 11 && t.0.score == 11 && t.0.lives == 3
    decreases |nexts|
  {
    var oks := Repeat(true, |nexts|);
    if nexts != [] {
      var (t, r) := RoundStep(s, true, nexts[0]);
      RoundKeepsFalling(s, true, nexts[0]);
      assert oks[1..] == Repeat(true, |nexts| - 1);
      EleventhRoundState(t, nexts[1..]);
    }
  }

  /** Playing twelve right answers against the feedback timeout as written gives four stars. */
  lemma AllCorrectGameAsWritten(c0: Color, nexts: seq<Color>, last: Color)
    requires |nexts| == 11
    ensures var t := Play(StartStep(Initial, c0), Repeat(true, 11), nexts).0;
      t.shape.Some? && t.pending.None? &&
      var c := t.shape.value.color;
      var judged := JudgeStep(t.(lane := CorrectLane(c), shape := Some(t.shape.value.(position := 98))));
      judged.score == 12 &&
      FeedbackDoneAsWritten(judged, last).1 == Some(Reward(4, Some("🚀"))) &&
      FeedbackDoneStep(judged, last).1 == Some(Reward(5, Some("🚀")))
  {
    var s0 := StartStep(Initial, c0);
    InitialInv(c0);
    EleventhRoundState(s0, nexts);
    TwelfthJudgment(Play(s0, Repeat(true, 11), nexts).0, last);
  }

  /** The twelfth right judgment, on eleven points and three lives, as written and as intended. */
  lemma TwelfthJudgment(t: SliderState, last: Color)
    requires Falling(t) && t.round == 11 && t.score == 11 && t.lives == 3
    ensures t.shape.Some? && t.pending.None? &&
      var c := t.shape.value.color;
      var judged := JudgeStep(t.(lane := CorrectLane(c), shape := Some(t.shape.value.(position := 98))));
      judged.score == 12 &&
      FeedbackDoneAsWritten(judged, last).1 == Some(Reward(4, Some("🚀"))) &&
      FeedbackDoneStep(judged, last).1 == Some(Reward(5, Some("🚀")))
  {
    var c := t.shape.value.color;
    var judged := JudgeStep(t.(lane := CorrectLane(c), shape := Some(t.shape.value.(position := 98))));
    assert judged.pending == Some(Judgment(true, 11, 3, 11));
    assert EndReward(3, 11) == Reward(4, Some("🚀"));
    assert EndReward(3, 12) == Reward(5, Some("🚀"));
  }

  /**
   * The end of the game under the timeout as written: the same endings, but
   * stars and badge come from the score before the last judgment, so the
   * stars stay in [2, 4] and five stars are never awarded.
   */
  lemma EndOfGameAsWritten(s: SliderState, c: Color)
    requires Inv(s) && s.pending.Some?
    ensures var j := s.pending.value;
      var (t, r) := FeedbackDoneAsWritten(s, c);
      && (r.Some? <==> (s.lives == 0 || s.round == TotalRounds - 1))
      && (s.lives == 0 ==> r == Some(EndReward(2, j.score)) && r.value.badge.None? && 2 <= r.value.stars <= 3)
      && (s.lives > 0 && s.round == TotalRounds - 1 ==> r == Some(EndReward(3, j.score)) && 3 <= r.value.stars <= 4)
      && (r.Some? ==> 2 <= r.value.stars <= 4 && (r.value.badge.Some? <==> j.score >= 10))
      && (r.None? ==> t.round == s.round + 1 && t.feedback.None? && t.pending.None?)
  {
    var j := s.pending.value;
    assert 0 <= j.score <= 11;
    assert s.lives == 0 ==> j.score <= 9;
  }

  /** The feedback timeout as written and as intended only differ in the stars and badge at the end of twelve rounds. */
  lemma AsWrittenDiffersOnlyAtTheEnd(s: SliderState, c: Color)
    requires Inv(s) && s.pending.Some?
    ensures FeedbackDoneAsWritten(s, c).0 == FeedbackDoneStep(s, c).0
    ensures FeedbackDoneAsWritten(s, c).1.Some? == FeedbackDoneStep(s, c).1.Some?
    ensures s.lives == 0 || !s.pending.value.correct ==> FeedbackDoneAsWritten(s, c) == FeedbackDoneStep(s, c)
  {
  }

  // ---------------------------------------------------------------------
  // The component

  class Game {
    var isPlaying: bool
    var shape: Option<Shape>
    var round: int
    var score: int
    var lives: int
    var feedback: Option<Verdict>
    var lane: Lane
    var isDragging: bool
    var dragStartX: int
    var pending: Option<Judgment>

    function State(): SliderState
      reads this
    {
      SliderState(isPlaying, shape, round, score, lives, feedback, lane, isDragging, dragStartX, pending)
    }

    ghost predicate Valid()
      reads this
    {
      Inv(State())
    }

    constructor ()
      ensures State() == Initial && Valid()
    {
      isPlaying, shape, round, score, lives := false, None, 0, 0, StartLives;
      feedback, lane, isDragging, dragStartX, pending := None, Middle, false, 0, None;
    }

    /**
     * The spawn effect, run by Start and FeedbackDone after their own updates.
     * It starts from their intermediate state, which need not be Valid, so its
     * contract is SpawnStep alone; those callers restore Valid.
     */
    method Spawn(color: Color)
      modifies this
      ensures State() == SpawnStep(old(State()), color)
    {
      if isPlaying && feedback.None? {
        shape := Some(Shape(round, color, 0));
        lane := Middle;
      }
    }

    /** The launch button is shown only while not playing. */
    method Start(color: Color)
      requires Valid() && !isPlaying
      modifies this
      ensures State() == StartStep(old(State()), color) && Valid()
    {
      StepsKeepInv(State(), color, OtherKey, 0);
      isPlaying := true;
      Spawn(color);
    }

    method FallTick()
      requires Valid()
      modifies this
      ensures State() == FallTickStep(old(State())) && Valid()
    {
      StepsKeepInv(State(), Red, OtherKey, 0);
      if shape.None? || feedback.Some? {
        return;
      }
      var p := shape.value.position + FallStep;
      if p >= 100 {
        CheckAnswer();
      } else {
        shape := Some(shape.value.(position := p));
      }
    }

    /** checkAnswer, called by FallTick when the shape reaches the bottom; it is never called during feedback. */
    method CheckAnswer()
      requires Valid() && shape.Some? && feedback.None?
      modifies this
      ensures State() == JudgeStep(old(State())) && Valid() && pending.Some?
    {
      JudgeKeepsInv(State());
      var ok := IsCorrect(shape.value.color, lane);
      pending := Some(Judgment(ok, score, lives, round));
      if ok {
        score := score + 1;
        feedback := Some(Correct);
      } else {
        lives := lives - 1;
        feedback := Some(Incorrect);
      }
    }

    /** The feedback timeout; it exists only once a shape has been judged. When it reports a reward the host leaves the game. */
    method FeedbackDone(next: Color) returns (reward: Option<Reward>)
      requires Valid() && pending.Some?
      modifies this
      ensures (State(), reward) == FeedbackDoneStep(old(State()), next)
      ensures reward.None? ==> Valid()
    {
      if FeedbackDoneStep(State(), next).1.None? {
        FeedbackDoneKeepsInv(State(), next);
      }
      var j := pending.value;
      feedback, pending := None, None;
      if j.lives <= 1 && !j.correct {
        reward := Some(EndReward(2, score));
      } else if j.round + 1 >= TotalRounds {
        reward := Some(EndReward(3, score));
      } else {
        reward := None;
        round := j.round + 1;
        Spawn(next);
      }
    }

    method KeyDown(key: Key)
      requires Valid()
      modifies this
      ensures State() == KeyStep(old(State()), key) && Valid()
    {
      StepsKeepInv(State(), Red, key, 0);
      if !isPlaying || feedback.Some? {
        return;
      }
      if key == ArrowLeft && lane != Left {
        lane := Left;
      } else if key == ArrowRight && lane != Right {
        lane := Right;
      }
    }

    method DragStart(x: int)
      requires Valid()
      modifies this
      ensures State() == DragStartStep(old(State()), x) && Valid()
    {
      StepsKeepInv(State(), Red, OtherKey, x);
      isDragging, dragStartX := true, x;
    }

    method DragMove(x: int)
      requires Valid()
      modifies this
      ensures State() == DragMoveStep(old(State()), x) && Valid()
    {
      StepsKeepInv(State(), Red, OtherKey, x);
      if !isDragging || !isPlaying {
        return;
      }
      var deltaX := x - dragStartX;
      if deltaX > DragThreshold && lane != Right {
        lane, dragStartX := Right, x;
      } else if deltaX < -DragThreshold && lane != Left {
        lane, dragStartX := Left, x;
      }
    }

    method DragEnd()
      requires Valid()
      modifies this
      ensures State() == DragEndStep(old(State())) && Valid()
    {
      StepsKeepInv(State(), Red, OtherKey, 0);
      isDragging := false;
    }
  }
}

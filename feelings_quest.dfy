/**
 * Feelings Quest: a story game of five scenarios. In each the child picks
 * one of three responses worth 1 to 3 points; the chosen response stays
 * highlighted for three seconds, then the next scenario appears, and after
 * the fifth the results card offers "Finish & Collect Stars" or "Play Again".
 * The three-second timeout is the explicit step `AdvanceStep`.
 */
module FeelingsQuest {
  import opened Rewards

  /** A response; its text, emoji and feedback sentence are display-only. */
  datatype Choice = Choice(emotion: string, points: nat)
  datatype Scenario = Scenario(scene: string, choices: seq<Choice>)

  const Scenarios: seq<Scenario> := [
    Scenario("The Playground", [Choice("Kindness", 3), Choice("Indifference", 1), Choice("Shyness", 2)]),
    Scenario("The Lost Toy", [Choice("Anger", 1), Choice("Calm Communication", 3), Choice("Hiding Feelings", 2)]),
    Scenario("The Test Result", [Choice("Defeat", 1), Choice("Growth Mindset", 3), Choice("Isolation", 2)]),
    Scenario("The Birthday Party", [Choice("Hurt", 1), Choice("Honest Communication", 3), Choice("Avoidance", 2)]),
    Scenario("The Big Performance", [Choice("Fear Avoidance", 1), Choice("Courage", 3), Choice("Anxiety", 2)])
  ]

  const ScenarioCount: nat := 5
  const MaxPoints: nat := 15
  const MapBadge: string := "🗺️"

  /** Each scenario offers three responses worth 1, 2 and 3 points in some order, so exactly one of them is the best. */
  lemma ScenarioTable()
    ensures |Scenarios| == ScenarioCount && MaxPoints == ScenarioCount * 3
    ensures forall i :: 0 <= i < |Scenarios| ==> |Scenarios[i].choices| == 3
    ensures forall i, k :: 0 <= i < |Scenarios| && 0 <= k < |Scenarios[i].choices| ==> 1 <= Scenarios[i].choices[k].points <= 3
    ensures forall i :: 0 <= i < |Scenarios| ==>
      && Scenarios[i].choices[0].points != Scenarios[i].choices[1].points
      && Scenarios[i].choices[0].points != Scenarios[i].choices[2].points
      && Scenarios[i].choices[1].points != Scenarios[i].choices[2].points
    ensures forall i :: 0 <= i < |Scenarios| ==> BestChoice(i) < 3 && Scenarios[i].choices[BestChoice(i)].points == 3
  {
    forall i | 0 <= i < |Scenarios|
      ensures WellFormed(Scenarios[i], BestChoice(i))
    {
      if i == 0 { assert WellFormed(Scenarios[0], 0); }
      else if i == 1 { assert WellFormed(Scenarios[1], 1); }
      else if i == 2 { assert WellFormed(Scenarios[2], 1); }
      else if i == 3 { assert WellFormed(Scenarios[3], 1); }
      else { assert WellFormed(Scenarios[4], 1); }
    }
  }

  /** Three responses with distinct points from 1 to 3, so worth 1, 2 and 3 in some order; the one at `best` is worth 3. */
  predicate WellFormed(sc: Scenario, best: nat)
  {
    && |sc.choices| == 3
    && sc.choices[0].points != sc.choices[1].points && sc.choices[0].points != sc.choices[2].points
    && sc.choices[1].points != sc.choices[2].points
    && (forall k :: 0 <= k < 3 ==> 1 <= sc.choices[k].points <= 3)
    && best < 3 && sc.choices[best].points == 3
  }

  /** Response `k` of scenario `i`. */
  function ChoiceAt(i: nat, k: nat): Choice
    requires i < |Scenarios| && k < 3
  {
    ScenarioTable();
    Scenarios[i].choices[k]
  }

  /** The position of the three-point response in scenario `i`. */
  function BestChoice(i: nat): nat
  {
    if i == 0 then 0 else 1
  }

  /**
   * A snapshot of the component's state. `feedback` is the chosen response,
   * and `pending` is the scenario index captured by the scheduled timeout.
   */
  datatype QuestState = QuestState(
    isPlaying: bool,
    current: nat,
    totalPoints: nat,
    feedback: Option<Choice>,
    showResults: bool,
    pending: Option<nat>)

  const Initial: QuestState := QuestState(false, 0, 0, None, false, None)

  /** The start button, shown while not playing. */
  function StartStep(s: QuestState): QuestState
  {
    s.(isPlaying := true)
  }

  /** True when the scenario's responses are on screen. */
  predicate ChoicesShown(s: QuestState)
  {
    s.isPlaying && !s.showResults && s.current < |Scenarios|
  }

  /**
   * Clicking response `k` of the current scenario: ignored while a response
   * is held as feedback; otherwise it becomes the feedback, its points are
   * added and the three-second timeout is scheduled with the current index.
   */
  function ChooseStep(s: QuestState, k: nat): QuestState
    requires ChoicesShown(s) && k < 3
  {
    if s.feedback.Some? then s
    else
      var choice := ChoiceAt(s.current, k);
      s.(feedback := Some(choice), totalPoints := s.totalPoints + choice.points, pending := Some(s.current))
  }

  /** The three-second timeout: after the last scenario it shows the results; otherwise it moves on and clears the feedback. */
  function AdvanceStep(s: QuestState): QuestState
    requires s.pending.Some?
  {
    var idx := s.pending.value;
    if idx + 1 >= |Scenarios| then s.(showResults := true, pending := None)
    else s.(current := idx + 1, feedback := None, pending := None)
  }

  /** The nearest integer to `t / 3`; `t / 3` is never halfway between two integers. */
  function RoundThird(t: nat): nat
  {
    (2 * t + 3) / 6
  }

  /**
   * "Finish & Collect Stars": the percentage is `t / 15 * 100`, the stars are
   * `max(3, round(percentage / 100 * 5))`, that is the nearest integer to
   * `t / 3` but at least three, and the map badge is given from 80 percent.
   */
  function QuestReward(t: nat): Reward
  {
    Reward(Max(3, RoundThird(t)), if t * 100 >= 80 * MaxPoints then Some(MapBadge) else None)
  }

  /** The message on the results card. */
  function ResultsMessage(t: nat): string
  {
    if t * 10 >= MaxPoints * 8 then "🌟 Outstanding! You really understand emotions!"
    else if t * 10 >= MaxPoints * 6 then "😊 Great job! You're learning well!"
    else "💪 Good effort! Keep practicing and you'll get even better!"
  }

  /** `RoundThird` rounds to the nearest integer: `t / 3` lies within half a unit of it. */
  lemma RoundThirdIsNearest(t: nat)
    ensures 6 * RoundThird(t) - 3 <= 2 * t < 6 * RoundThird(t) + 3
  {
  }

  /**
   * Over the reachable totals the stars lie in [3, 5], the badge is given
   * exactly from 12 points, and the results card says "Outstanding" exactly
   * when the badge is given; the full score gives five stars.
   */
  lemma QuestRewardFacts(t: nat)
    requires t <= MaxPoints
    ensures 3 <= QuestReward(t).stars <= 5
    ensures QuestReward(t).badge.Some? <==> t >= 12
    ensures QuestReward(t).badge.Some? <==> ResultsMessage(t) == "🌟 Outstanding! You really understand emotions!"
    ensures 9 <= t < 12 <==> ResultsMessage(t) == "😊 Great job! You're learning well!"
    ensures t <= 8 ==> QuestReward(t).stars == 3
    ensures QuestReward(MaxPoints) == Reward(5, Some(MapBadge))
  {
  }

  /** More points never give fewer stars. */
  lemma QuestRewardMonotone(t1: nat, t2: nat)
    requires t1 <= t2
    ensures QuestReward(t1).stars <= QuestReward(t2).stars
    ensures QuestReward(t1).badge.Some? ==> QuestReward(t2).badge.Some?
  {
  }

  /** "Play Again" as written: back to the start screen, but the feedback response is not cleared. */
  function PlayAgainAsWritten(s: QuestState): QuestState
  {
    s.(isPlaying := false, current := 0, totalPoints := 0, showResults := false)
  }

  /** "Play Again" with the feedback cleared as well. */
  function PlayAgainStep(s: QuestState): QuestState
  {
    s.(isPlaying := false, current := 0, totalPoints := 0, showResults := false, feedback := None)
  }

  /** True when the results card, with its two buttons, is on screen. */
  predicate ResultsShown(s: QuestState)
  {
    s.isPlaying && s.showResults
  }

  /** Points lie between one and three per answered scenario. */
  predicate PointsInRange(s: QuestState)
  {
    var answered := s.current + (if s.feedback.Some? then 1 else 0);
    answered <= s.totalPoints <= 3 * answered
  }

  predicate Inv(s: QuestState)
  {
    && s.current < ScenarioCount
    && (!s.isPlaying ==> s.current == 0 && s.totalPoints == 0 && !s.showResults && s.pending.None? && s.feedback.None?)
    && (s.showResults ==> s.current == ScenarioCount - 1 && s.pending.None? && s.feedback.Some?)
    && (s.pending.Some? ==> s.pending.value == s.current && s.feedback.Some? && !s.showResults)
    && (s.feedback.Some? ==> s.pending.Some? || s.showResults)
    && PointsInRange(s)
  }

  lemma InitialInv()
    ensures Inv(Initial)
  {
  }

  /** Every step, with "Play Again" as intended, keeps the invariant. */
  lemma StepsKeepInv(s: QuestState, k: nat)
    requires Inv(s)
    ensures !s.isPlaying ==> Inv(StartStep(s))
    ensures ChoicesShown(s) && k < 3 ==> Inv(ChooseStep(s, k))
    ensures s.pending.Some? ==> Inv(AdvanceStep(s))
    ensures ResultsShown(s) ==> Inv(PlayAgainStep(s)) && PlayAgainStep(s) == Initial
  {
    ScenarioTable();
  }

  /**
   * A choice is taken exactly when no feedback is held; it then adds
   * that response's points and schedules the timeout for this scenario.
   */
  lemma ChooseFacts(s: QuestState, k: nat)
    requires Inv(s) && ChoicesShown(s) && k < 3
    ensures ChooseStep(s, k) != s <==> s.feedback.None?
    ensures s.feedback.None? ==>
      ChooseStep(s, k).totalPoints == s.totalPoints + ChoiceAt(s.current, k).points &&
      ChooseStep(s, k).pending == Some(s.current) && ChooseStep(s, k).current == s.current
  {
    ScenarioTable();
  }

  /** The results appear only once the fifth scenario's timeout has fired, and then the total lies in [5, 15]. */
  lemma ResultsFacts(s: QuestState)
    requires Inv(s) && ResultsShown(s)
    ensures s.current == ScenarioCount - 1
    ensures ScenarioCount <= s.totalPoints <= MaxPoints
    ensures 3 <= QuestReward(s.totalPoints).stars <= 5
  {
    QuestRewardFacts(s.totalPoints);
  }

  /** The sum of the points of the responses `ks`, the `i`-th chosen in scenario `i`. */
  function SumPoints(ks: seq<nat>): nat
    requires |ks| <= |Scenarios| && forall i :: 0 <= i < |ks| ==> ks[i] < 3
  {
    if ks == [] then 0 else SumPoints(ks[..|ks| - 1]) + ChoiceAt(|ks| - 1, ks[|ks| - 1]).points
  }

  /** Plays the responses `ks` from a state showing scenario `s.current`, each choice followed by its timeout. */
  function PlayFrom(s: QuestState, ks: seq<nat>): QuestState
    requires Inv(s) && ChoicesShown(s) && s.feedback.None?
    requires |ks| <= ScenarioCount - s.current && forall i :: 0 <= i < |ks| ==> ks[i] < 3
    decreases |ks|
  {
    if ks == [] then s
    else
      StepsKeepInv(s, ks[0]);
      var t := ChooseStep(s, ks[0]);
      StepsKeepInv(t, ks[0]);
      var u := AdvanceStep(t);
      if u.showResults then u else PlayFrom(u, ks[1..])
  }

  /** One scenario: the response `k` and its timeout add its points, and show the next scenario or, after the last, the results. */
  lemma OneScenario(s: QuestState, k: nat, answered: seq<nat>)
    requires Inv(s) && ChoicesShown(s) && s.feedback.None? && k < 3
    requires |answered| == s.current && (forall i :: 0 <= i < |answered| ==> answered[i] < 3)
    requires s.totalPoints == SumPoints(answered)
    ensures var u := AdvanceStep(ChooseStep(s, k));
      && Inv(u)
      && u.totalPoints == SumPoints(answered + [k])
      && (u.showResults <==> s.current == ScenarioCount - 1)
      && (u.showResults ==> ResultsShown(u))
      && (!u.showResults ==> ChoicesShown(u) && u.feedback.None? && u.current == s.current + 1)
  {
    StepsKeepInv(s, k);
    var t := ChooseStep(s, k);
    StepsKeepInv(t, k);
    var answered' := answered + [k];
    assert answered'[..|answered'| - 1] == answered;
  }

  /**
   * Answering scenarios `s.current ..` with `ks` adds their points; after
   * the last scenario the results are shown.
   */
  lemma {:induction false} PlayFromFacts(s: QuestState, ks: seq<nat>, answered: seq<nat>)
    requires Inv(s) && ChoicesShown(s) && s.feedback.None?
    requires |answered| == s.current && (forall i :: 0 <= i < |answered| ==> answered[i] < 3)
    requires s.totalPoints == SumPoints(answered)
    requires |ks| == ScenarioCount - s.current && forall i :: 0 <= i < |ks| ==> ks[i] < 3
    ensures var e := PlayFrom(s, ks);
      ResultsShown(e) && Inv(e) && e.totalPoints == SumPoints(answered + ks)
    decreases |ks|
  {
    OneScenario(s, ks[0], answered);
    var u := AdvanceStep(ChooseStep(s, ks[0]));
    if !u.showResults {
      assert answered + [ks[0]] + ks[1..] == answered + ks;
      PlayFromFacts(u, ks[1..], answered + [ks[0]]);
    } else {
      assert ks == [ks[0]];
    }
  }

  /** A whole quest from the start screen: the total is the sum of the chosen responses' points. */
  lemma QuestTotal(ks: seq<nat>)
    requires |ks| == ScenarioCount && forall i :: 0 <= i < |ks| ==> ks[i] < 3
    ensures ResultsShown(PlayFrom(StartStep(Initial), ks)) && Inv(PlayFrom(StartStep(Initial), ks))
    ensures PlayFrom(StartStep(Initial), ks).totalPoints == SumPoints(ks)
  {
    PlayFromFacts(StartStep(Initial), ks, []);
    assert [] + ks == ks;
  }

  /** Always taking the three-point response earns the full score, five stars and the map badge. */
  lemma BestQuest()
    ensures var best := [0, 1, 1, 1, 1];
      PlayFrom(StartStep(Initial), best).totalPoints == MaxPoints &&
      QuestReward(PlayFrom(StartStep(Initial), best).totalPoints) == Reward(5, Some(MapBadge))
  {
    var best: seq<nat> := [0, 1, 1, 1, 1];
    QuestTotal(best);
    ScenarioTable();
    assert SumPoints([0]) == 3 by { assert [0][..0] == []; }
    assert SumPoints([0, 1]) == 6 by { assert [0, 1][..1] == [0]; }
    assert SumPoints([0, 1, 1]) == 9 by { assert [0, 1, 1][..2] == [0, 1]; }
    assert SumPoints([0, 1, 1, 1]) == 12 by { assert [0, 1, 1, 1][..3] == [0, 1, 1]; }
    assert SumPoints(best) == 15 by { assert best[..4] == [0, 1, 1, 1]; }
    QuestRewardFacts(15);
  }

  /**
   * As written, "Play Again" keeps the last quest's response as feedback, so
   * in the next quest all three responses are shown dimmed under the old
   * feedback card, every click on a response is ignored, and the quest can
   * never be finished again.
   */
  lemma ReplayStuckAsWritten(ks: seq<nat>, k: nat)
    requires |ks| == ScenarioCount && forall i :: 0 <= i < |ks| ==> ks[i] < 3
    requires k < 3
    ensures var replay := StartStep(PlayAgainAsWritten(PlayFrom(StartStep(Initial), ks)));
      ChoicesShown(replay) && replay.current == 0 && replay.pending.None? &&
      ChooseStep(replay, k) == replay
  {
    PlayFromFacts(StartStep(Initial), ks, []);
    ScenarioTable();
  }

  /** With the feedback cleared, the replay starts exactly like the first quest and takes the first click. */
  lemma ReplayAcceptsChoice(ks: seq<nat>, k: nat)
    requires |ks| == ScenarioCount && forall i :: 0 <= i < |ks| ==> ks[i] < 3
    requires k < 3
    ensures var replay := StartStep(PlayAgainStep(PlayFrom(StartStep(Initial), ks)));
      replay == StartStep(Initial) &&
      ChooseStep(replay, k).feedback == Some(ChoiceAt(0, k))
  {
    QuestTotal(ks);
    StepsKeepInv(PlayFrom(StartStep(Initial), ks), k);
    ScenarioTable();
  }

  class Game {
    var isPlaying: bool
    var current: nat
    var totalPoints: nat
    var feedback: Option<Choice>
    var showResults: bool
    var pending: Option<nat>

    function State(): QuestState
      reads this
    {
      QuestState(isPlaying, current, totalPoints, feedback, showResults, pending)
    }

    ghost predicate Valid()
      reads this
    {
      Inv(State())
    }

    constructor ()
      ensures State() == Initial && Valid()
    {
      isPlaying, current, totalPoints, feedback, showResults, pending := false, 0, 0, None, false, None;
    }

    method Start()
      requires Valid() && !isPlaying
      modifies this
      ensures State() == StartStep(old(State())) && Valid()
    {
      StepsKeepInv(State(), 0);
      isPlaying := true;
    }

    /** A click on response `k`; the responses are shown only while the scenario is. */
    method Choose(k: nat)
      requires Valid() && ChoicesShown(State()) && k < 3
      modifies this
      ensures State() == ChooseStep(old(State()), k) && Valid()
    {
      ScenarioTable();
      StepsKeepInv(State(), k);
      if feedback.Some? {
        return;
      }
      var choice := ChoiceAt(current, k);
      feedback := Some(choice);
      totalPoints := totalPoints + choice.points;
      pending := Some(current);
    }

    method AdvanceAfterDelay()
      requires Valid() && pending.Some?
      modifies this
      ensures State() == AdvanceStep(old(State())) && Valid()
    {
      StepsKeepInv(State(), 0);
      var idx := pending.value;
      pending := None;
      if idx + 1 >= |Scenarios| {
        showResults := true;
      } else {
        current := idx + 1;
        feedback := None;
      }
    }

    /** "Finish & Collect Stars": the reward handed to the host, which then leaves the game. */
    method Finish() returns (reward: Reward)
      requires Valid() && ResultsShown(State())
      ensures reward == QuestReward(totalPoints)
      ensures 3 <= reward.stars <= 5 && (reward.badge.Some? <==> totalPoints >= 12)
    {
      ResultsFacts(State());
      QuestRewardFacts(totalPoints);
      reward := QuestReward(totalPoints);
    }

    method PlayAgain()
      requires Valid() && ResultsShown(State())
      modifies this
      ensures State() == PlayAgainStep(old(State())) && State() == Initial && Valid()
    {
      StepsKeepInv(State(), 0);
      isPlaying, current, totalPoints, showResults, feedback := false, 0, 0, false, None;
    }
  }
}

/**
 * Mood Mirror: six short situations; for each the child picks one of six
 * emotion cards. The expected emotion scores two points, any other one
 * point; the explanation then replaces the cards until "Next!" (or, on the
 * last situation, "Finish!") is pressed.
 */
module MoodMirror {
  import opened Rewards

  /** An emotion card; its emoji and colour are display-only. */
  datatype EmotionCard = EmotionCard(id: string, name: string)

  const Emotions: seq<EmotionCard> := [
    EmotionCard("happy", "Happy"), EmotionCard("sad", "Sad"), EmotionCard("angry", "Angry"),
    EmotionCard("scared", "Scared"), EmotionCard("excited", "Excited"), EmotionCard("calm", "Calm")
  ]

  /** The expected emotion of each situation, in order; the situation texts and explanations are display-only. */
  const CorrectEmotions: seq<string> := ["happy", "sad", "angry", "scared", "excited", "calm"]

  const ScenarioCount: nat := 6
  const MirrorBadge: string := "🪞"

  /** The first card with identifier `id`, as `emotions.find` returns it. */
  function FindEmotion(cards: seq<EmotionCard>, id: string): (r: Option<EmotionCard>)
  {
    if cards == [] then None
    else if cards[0].id == id then Some(cards[0])
    else FindEmotion(cards[1..], id)
  }

  /** The lookup finds a card exactly when one has the identifier, and returns the first such card. */
  lemma {:induction false} FindEmotionSpec(cards: seq<EmotionCard>, id: string)
    ensures FindEmotion(cards, id).Some? <==> exists i :: 0 <= i < |cards| && cards[i].id == id
    ensures FindEmotion(cards, id).Some? ==>
      exists i :: 0 <= i < |cards| && cards[i] == FindEmotion(cards, id).value &&
        cards[i].id == id && forall j :: 0 <= j < i ==> cards[j].id != id
  {
    if cards != [] && cards[0].id != id {
      FindEmotionSpec(cards[1..], id);
      if FindEmotion(cards[1..], id).Some? {
        var i :| 0 <= i < |cards[1..]| && cards[1..][i] == FindEmotion(cards[1..], id).value &&
          cards[1..][i].id == id && forall j :: 0 <= j < i ==> cards[1..][j].id != id;
        assert cards[i + 1] == cards[1..][i];
        assert forall j :: 0 <= j < i + 1 ==> cards[j].id != id by {
          forall j | 0 <= j < i + 1 ensures cards[j].id != id {
            if j > 0 { assert cards[j] == cards[1..][j - 1]; }
          }
        }
      }
      if exists i :: 0 <= i < |cards| && cards[i].id == id {
        var i :| 0 <= i < |cards| && cards[i].id == id;
        assert i > 0 && cards[1..][i - 1] == cards[i];
      }
    }
  }

  /** The six situations expect the six emotions, each one once, and each has a card to explain it. */
  lemma ScenarioTable()
    ensures |CorrectEmotions| == ScenarioCount && |Emotions| == ScenarioCount
    ensures forall i :: 0 <= i < ScenarioCount ==> CorrectEmotions[i] == Emotions[i].id
    ensures forall i :: 0 <= i < ScenarioCount ==> FindEmotion(Emotions, CorrectEmotions[i]) == Some(Emotions[i])
    ensures forall i, j :: 0 <= i < j < ScenarioCount ==> Emotions[i].id != Emotions[j].id
  {
    assert DistinctIds(Emotions);
    forall i | 0 <= i < ScenarioCount
      ensures FindEmotion(Emotions, CorrectEmotions[i]) == Some(Emotions[i])
    {
      FindDistinct(Emotions, i);
    }
  }

  predicate DistinctIds(cards: seq<EmotionCard>)
  {
    forall i, j :: 0 <= i < j < |cards| ==> cards[i].id != cards[j].id
  }

  /** When the identifiers are distinct, the lookup of a card's identifier returns that card. */
  lemma {:induction false} FindDistinct(cards: seq<EmotionCard>, i: nat)
    requires DistinctIds(cards) && i < |cards|
    ensures FindEmotion(cards, cards[i].id) == Some(cards[i])
  {
    if i > 0 {
      assert cards[0].id != cards[i].id;
      assert cards[1..][i - 1] == cards[i];
      FindDistinct(cards[1..], i - 1);
    }
  }

  predicate IsEmotionId(id: string)
  {
    exists i :: 0 <= i < |Emotions| && Emotions[i].id == id
  }

  datatype Verdict = Correct | Incorrect

  /** A snapshot of the component's state. */
  datatype MirrorState = MirrorState(
    isPlaying: bool,
    current: nat,
    score: nat,
    feedback: Option<Verdict>,
    selected: Option<string>,
    showExplanation: bool)

  const Initial: MirrorState := MirrorState(false, 0, 0, None, None, false)

  function StartStep(s: MirrorState): MirrorState
  {
    s.(isPlaying := true)
  }

  /** True when the emotion cards are on screen. */
  predicate CardsShown(s: MirrorState)
  {
    s.isPlaying && !s.showExplanation && s.current < ScenarioCount
  }

  /** Points for picking `id` in situation `i`. */
  function PickPoints(i: nat, id: string): nat
    requires i < ScenarioCount
  {
    if id == CorrectEmotions[i] then 2 else 1
  }

  /**
   * A click on the card `id`: two points for the expected emotion and one for
   * any other. The cards are hidden once an answer is shown, so no click
   * reaches a situation twice.
   */
  function SelectStep(s: MirrorState, id: string): MirrorState
    requires CardsShown(s)
  {
    s.(selected := Some(id), score := s.score + PickPoints(s.current, id),
         feedback := Some(if id == CorrectEmotions[s.current] then Correct else Incorrect),
         showExplanation := true)
  }

  /** "Next!" advances and clears the answer; "Finish!" on the last situation reports `max(3, score)` stars and the mirror badge from five points, and changes nothing. */
  function NextStep(s: MirrorState): (MirrorState, Option<Reward>)
  {
    if s.current + 1 >= ScenarioCount then
      (s, Some(Reward(Max(3, s.score), if s.score >= 5 then Some(MirrorBadge) else None)))
    else
      (s.(current := s.current + 1, selected := None, feedback := None, showExplanation := false), None)
  }

  predicate Inv(s: MirrorState)
  {
    && s.current < ScenarioCount
    && (!s.isPlaying ==> s == Initial)
    && (s.feedback.Some? <==> s.showExplanation)
    && (s.feedback.Some? <==> s.selected.Some?)
    && (s.feedback.Some? ==> s.feedback == Some(if s.selected.value == CorrectEmotions[s.current] then Correct else Incorrect))
    && var answered := s.current + (if s.feedback.Some? then 1 else 0);
       answered <= s.score <= 2 * answered
  }

  lemma StepsKeepInv(s: MirrorState, id: string)
    requires Inv(s)
    ensures !s.isPlaying ==> Inv(StartStep(s))
    ensures CardsShown(s) ==> Inv(SelectStep(s, id))
    ensures s.isPlaying && s.feedback.Some? ==> Inv(NextStep(s).0)
  {
  }

  /**
   * A pick scores two points exactly for the expected emotion and one
   * otherwise, shows that verdict and hides the cards.
   */
  lemma SelectFacts(s: MirrorState, id: string)
    requires Inv(s) && CardsShown(s)
    ensures var t := SelectStep(s, id);
      && t.showExplanation && !CardsShown(t)
      && (t.feedback == Some(Correct) <==> id == CorrectEmotions[s.current])
      && (t.score == s.score + 2 <==> id == CorrectEmotions[s.current])
      && (t.score == s.score + 1 <==> id != CorrectEmotions[s.current])
  {
  }

  /**
   * "Finish!" is the only step that reports a reward; at that point the
   * score lies in [6, 12], so the stars equal the score and the mirror badge
   * is always awarded.
   */
  lemma FinishFacts(s: MirrorState)
    requires Inv(s) && s.isPlaying && s.feedback.Some?
    ensures NextStep(s).1.Some? <==> s.current == ScenarioCount - 1
    ensures s.current == ScenarioCount - 1 ==>
      6 <= s.score <= 12 && NextStep(s).1 == Some(Reward(s.score, Some(MirrorBadge))) && NextStep(s).0 == s
  {
  }

  /** The points of a sequence of picks, the `i`-th made in situation `i`. */
  function PicksScore(ids: seq<string>): nat
    requires |ids| <= ScenarioCount
  {
    if ids == [] then 0 else PicksScore(ids[..|ids| - 1]) + PickPoints(|ids| - 1, ids[|ids| - 1])
  }

  /** The number of picks that matched the expected emotion. */
  function CorrectCount(ids: seq<string>): nat
    requires |ids| <= ScenarioCount
  {
    if ids == [] then 0
    else CorrectCount(ids[..|ids| - 1]) + (if ids[|ids| - 1] == CorrectEmotions[|ids| - 1] then 1 else 0)
  }

  /** Each pick is worth one point plus one more when it is right. */
  lemma {:induction false} PicksScoreCounts(ids: seq<string>)
    requires |ids| <= ScenarioCount
    ensures PicksScore(ids) == |ids| + CorrectCount(ids)
    ensures CorrectCount(ids) <= |ids|
  {
    if ids != [] {
      PicksScoreCounts(ids[..|ids| - 1]);
    }
  }

  /** Plays the picks `ids` from situation `s.current`, pressing "Next!" after each except the last situation's. */
  function PlayFrom(s: MirrorState, ids: seq<string>): MirrorState
    requires Inv(s) && CardsShown(s)
    requires |ids| <= ScenarioCount - s.current
    decreases |ids|
  {
    if ids == [] then s
    else
      StepsKeepInv(s, ids[0]);
      var t := SelectStep(s, ids[0]);
      StepsKeepInv(t, ids[0]);
      if t.current + 1 >= ScenarioCount then t
      else PlayFrom(NextStep(t).0, ids[1..])
  }

  lemma {:induction false} PlayFromFacts(s: MirrorState, ids: seq<string>, before: seq<string>)
    requires Inv(s) && CardsShown(s) && |before| == s.current && s.score == PicksScore(before)
    requires |ids| == ScenarioCount - s.current
    ensures var e := PlayFrom(s, ids);
      Inv(e) && e.isPlaying && e.feedback.Some? && e.current == ScenarioCount - 1 &&
      e.score == PicksScore(before + ids)
    decreases |ids|
  {
    StepsKeepInv(s, ids[0]);
    var t := SelectStep(s, ids[0]);
    StepsKeepInv(t, ids[0]);
    var before' := before + [ids[0]];
    assert before'[..|before'| - 1] == before;
    if t.current + 1 < ScenarioCount {
      assert before' + ids[1..] == before + ids;
      PlayFromFacts(NextStep(t).0, ids[1..], before');
    } else {
      assert ids == [ids[0]];
    }
  }

  /**
   * A whole game: "Finish!" reports six stars plus one per right pick, and
   * the mirror badge.
   */
  lemma GameReward(ids: seq<string>)
    requires |ids| == ScenarioCount
    ensures var e := PlayFrom(StartStep(Initial), ids);
      NextStep(e).1 == Some(Reward(ScenarioCount + CorrectCount(ids), Some(MirrorBadge)))
  {
    PlayFromFacts(StartStep(Initial), ids, []);
    assert [] + ids == ids;
    PicksScoreCounts(ids);
    FinishFacts(PlayFrom(StartStep(Initial), ids));
  }

  class Game {
    var isPlaying: bool
    var current: nat
    var score: nat
    var feedback: Option<Verdict>
    var selected: Option<string>
    var showExplanation: bool

    function State(): MirrorState
      reads this
    {
      MirrorState(isPlaying, current, score, feedback, selected, showExplanation)
    }

    ghost predicate Valid()
      reads this
    {
      Inv(State())
    }

    constructor ()
      ensures State() == Initial && Valid()
    {
      isPlaying, current, score, feedback, selected, showExplanation := false, 0, 0, None, None, false;
    }

    method Start()
      requires Valid() && !isPlaying
      modifies this
      ensures State() == StartStep(old(State())) && Valid()
    {
      StepsKeepInv(State(), "");
      isPlaying := true;
    }

    /** A click on a card; the cards are shown only before the explanation. */
    method Select(id: string)
      requires Valid() && CardsShown(State()) && IsEmotionId(id)
      modifies this
      ensures State() == SelectStep(old(State()), id) && Valid()
    {
      StepsKeepInv(State(), id);
      selected := Some(id);
      if id == CorrectEmotions[current] {
        score := score + 2;
        feedback := Some(Correct);
      } else {
        score := score + 1;
        feedback := Some(Incorrect);
      }
      showExplanation := true;
    }

    /** The "Next!"/"Finish!" button, shown while feedback is. */
    method Next() returns (reward: Option<Reward>)
      requires Valid() && isPlaying && feedback.Some?
      modifies this
      ensures (State(), reward) == NextStep(old(State())) && Valid()
    {
      StepsKeepInv(State(), "");
      if current + 1 >= ScenarioCount {
        reward := Some(Reward(Max(3, score), if score >= 5 then Some(MirrorBadge) else None));
      } else {
        reward := None;
        current, selected, feedback, showExplanation := current + 1, None, None, false;
      }
    }
  }
}

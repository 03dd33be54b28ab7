/**
 * Breathing Dragon: a once-per-second countdown through the phases
 * inhale (4 s), hold (2 s), exhale (4 s) and rest (2 s), repeated for three
 * rounds; finishing the last rest reports five stars and the dragon badge.
 *
 * `TickStep` is the interval callback as a function of the state; the class
 * `Game` holds the component's state fields and its methods are proved
 * against `StartStep` and `TickStep`.
 */
module BreathingDragon {
  import opened Rewards

  datatype Phase = Inhale | Hold | Exhale | Rest

  const TotalRounds: int := 3
  const DragonReward: Reward := Reward(5, Some("🐉"))

  /** How long a phase lasts, in ticks of one second. */
  function Duration(p: Phase): nat
  {
    match p
    case Inhale => 4
    case Hold => 2
    case Exhale => 4
    case Rest => 2
  }

  /** The phase that follows `p` in the breathing cycle. */
  function Next(p: Phase): Phase
  {
    match p
    case Inhale => Hold
    case Hold => Exhale
    case Exhale => Rest
    case Rest => Inhale
  }

  /** A snapshot of the component's state fields. */
  datatype BreathState = BreathState(isPlaying: bool, round: int, phase: Phase, timer: int)

  const Initial: BreathState := BreathState(false, 0, Inhale, 4)

  /** The "Start Breathing Exercise" button. */
  function StartStep(s: BreathState): BreathState
  {
    s.(isPlaying := true)
  }

  /**
   * One firing of the one-second interval. While not playing the interval is
   * not installed, so nothing happens. A countdown above one only decrements;
   * at one or below the phase advances and the countdown is reloaded, except
   * that the end of the last rest stops the game, reports the reward and
   * falls through to the decrement.
   */
  function TickStep(s: BreathState): (BreathState, Option<Reward>)
  {
    if !s.isPlaying then (s, None)
    else if s.timer <= 1 then
      match s.phase
      case Inhale => (s.(phase := Hold, timer := 2), None)
      case Hold => (s.(phase := Exhale, timer := 4), None)
      case Exhale => (s.(phase := Rest, timer := 2), None)
      case Rest =>
        if s.round + 1 >= TotalRounds then (s.(isPlaying := false, timer := s.timer - 1), Some(DragonReward))
        else (s.(round := s.round + 1, phase := Inhale, timer := 4), None)
    else (s.(timer := s.timer - 1), None)
  }

  /** The last rest of the last round has run out. */
  predicate Completed(s: BreathState)
  {
    s.phase == Rest && s.round == TotalRounds - 1 && s.timer <= 0
  }

  /**
   * Holds after any sequence of events: the round stays in [0, 3) and the
   * countdown lies within the current phase's duration, unless the exercise
   * has completed.
   */
  predicate Inv(s: BreathState)
  {
    0 <= s.round < TotalRounds && ((1 <= s.timer <= Duration(s.phase)) || Completed(s))
  }

  /**
   * Holds along a session that is not restarted after its completion: the
   * countdown is never negative and reaches zero only once the game stopped.
   */
  predicate InSession(s: BreathState)
  {
    Inv(s) && s.timer >= 0 && (s.timer == 0 ==> !s.isPlaying)
  }

  lemma InitialInSession()
    ensures InSession(Initial) && InSession(StartStep(Initial))
    ensures Initial.phase == Inhale && Initial.timer == Duration(Inhale) && Initial.round == 0 && !Initial.isPlaying
  {
  }

  lemma StartKeepsInv(s: BreathState)
    requires Inv(s)
    ensures Inv(StartStep(s))
    ensures s.timer > 0 && InSession(s) ==> InSession(StartStep(s))
  {
  }

  lemma TickKeepsInv(s: BreathState)
    requires Inv(s)
    ensures Inv(TickStep(s).0)
    ensures InSession(s) ==> InSession(TickStep(s).0)
  {
  }

  /** No tick has any effect while the game is not playing. */
  lemma TickIdle(s: BreathState)
    requires !s.isPlaying
    ensures TickStep(s) == (s, None)
  {
  }

  /** A countdown above one is only decremented. */
  lemma TickCountsDown(s: BreathState)
    requires s.isPlaying && s.timer > 1
    ensures TickStep(s) == (s.(timer := s.timer - 1), None)
  {
  }

  /**
   * Phases advance strictly in the order inhale, hold, exhale, rest, inhale,
   * and entering a phase reloads the countdown with that phase's duration.
   * The round only grows, by one, when a rest ends.
   */
  lemma TickPhaseOrder(s: BreathState)
    ensures var t := TickStep(s).0;
      (t.phase == s.phase || t.phase == Next(s.phase)) &&
      (t.phase != s.phase ==> t.timer == Duration(t.phase) && s.timer <= 1) &&
      (t.round == s.round || (t.round == s.round + 1 && s.phase == Rest && t.phase == Inhale))
  {
  }

  /** The reward is reported exactly when the last round's rest ends, and it is always five stars with the dragon badge. */
  lemma TickReward(s: BreathState)
    ensures TickStep(s).1.Some? <==>
      (s.isPlaying && s.timer <= 1 && s.phase == Rest && s.round + 1 >= TotalRounds)
    ensures TickStep(s).1.Some? ==>
      TickStep(s).1.value == Reward(5, Some("🐉")) && !TickStep(s).0.isPlaying
  {
  }

  /** Along a session the countdown reaches zero only in the completion branch. */
  lemma TickTimerZero(s: BreathState)
    requires InSession(s) && s.isPlaying
    ensures TickStep(s).0.timer >= 0
    ensures TickStep(s).0.timer == 0 <==> TickStep(s).1.Some?
  {
  }

  // ---------------------------------------------------------------------
  // Runs of consecutive ticks

  function Emit(r: Option<Reward>): seq<Reward>
  {
    match r
    case None => []
    case Some(x) => [x]
  }

  /** The state after `n` ticks from `s`, and the rewards they reported in order. */
  function Run(s: BreathState, n: nat): (BreathState, seq<Reward>)
    decreases n
  {
    if n == 0 then (s, [])
    else
      var step := TickStep(s);
      var rest := Run(step.0, n - 1);
      (rest.0, Emit(step.1) + rest.1)
  }

  lemma {:induction false} RunAdd(s: BreathState, a: nat, b: nat)
    ensures Run(s, a + b) == (Run(Run(s, a).0, b).0, Run(s, a).1 + Run(Run(s, a).0, b).1)
    decreases a
  {
    if a > 0 {
      var step := TickStep(s);
      RunAdd(step.0, a - 1, b);
      assert a + b - 1 == (a - 1) + b;
      var mid := Run(step.0, a - 1);
      assert Run(s, a) == (mid.0, Emit(step.1) + mid.1);
      assert Emit(step.1) + (mid.1 + Run(mid.0, b).1) == (Emit(step.1) + mid.1) + Run(mid.0, b).1;
    } else {
      assert [] + Run(s, b).1 == Run(s, b).1;
    }
  }

  /** The rewards of a shorter run are a prefix of those of a longer one. */
  lemma RunPrefix(s: BreathState, n: nat, m: nat)
    requires n <= m
    ensures Run(s, n).1 <= Run(s, m).1
  {
    RunAdd(s, n, m - n);
    assert n + (m - n) == m;
  }

  /** While playing, `k` ticks from a countdown of `k + 1` leave everything but the countdown unchanged. */
  lemma {:induction false} Countdown(s: BreathState, k: nat)
    requires s.isPlaying && s.timer == k + 1
    ensures Run(s, k) == (s.(timer := 1), [])
    decreases k
  {
    if k > 0 {
      TickCountsDown(s);
      Countdown(s.(timer := s.timer - 1), k - 1);
      assert Emit(None) + [] == [];
    }
  }

  /** A whole phase other than the last rest takes exactly its duration in ticks and reports nothing. */
  lemma PhaseRun(s: BreathState)
    requires s.isPlaying && s.timer == Duration(s.phase) && 0 <= s.round
    requires s.phase == Rest ==> s.round + 1 < TotalRounds
    ensures Run(s, Duration(s.phase)) ==
      (if s.phase == Rest then BreathState(true, s.round + 1, Inhale, 4)
       else s.(phase := Next(s.phase), timer := Duration(Next(s.phase))), [])
  {
    var d := Duration(s.phase);
    var k: nat := d - 1;
    CountdownThenTick(s, k);
    assert k + 1 == d;
    PhaseEndTick(s);
  }

  /** The tick at the end of a phase other than the last rest enters the next phase. */
  lemma PhaseEndTick(s: BreathState)
    requires s.isPlaying && 0 <= s.round
    requires s.phase == Rest ==> s.round + 1 < TotalRounds
    ensures TickStep(s.(timer := 1)) ==
      (if s.phase == Rest then BreathState(true, s.round + 1, Inhale, 4)
       else s.(phase := Next(s.phase), timer := Duration(Next(s.phase))), None)
  {
  }

  /** From a countdown of `k + 1`, `k + 1` ticks count down to one and then take the tick at one. */
  lemma CountdownThenTick(s: BreathState, k: nat)
    requires s.isPlaying && s.timer == k + 1
    ensures Run(s, k + 1) == (TickStep(s.(timer := 1)).0, Emit(TickStep(s.(timer := 1)).1))
  {
    var last := s.(timer := 1);
    Countdown(s, k);
    RunAdd(s, k, 1);
    OneTick(last);
    assert [] + Emit(TickStep(last).1) == Emit(TickStep(last).1);
  }

  /** A run of one tick is that tick. */
  lemma OneTick(s: BreathState)
    ensures Run(s, 1) == (TickStep(s).0, Emit(TickStep(s).1))
  {
    assert Emit(TickStep(s).1) + [] == Emit(TickStep(s).1);
  }

  /** The first three phases of a round, from a fresh inhale to the start of the rest. */
  lemma BreatheToRest(r: int)
    requires 0 <= r < TotalRounds
    ensures Run(BreathState(true, r, Inhale, 4), 10) == (BreathState(true, r, Rest, 2), [])
  {
    var s0 := BreathState(true, r, Inhale, 4);
    var s1 := BreathState(true, r, Hold, 2);
    var s2 := BreathState(true, r, Exhale, 4);
    var s3 := BreathState(true, r, Rest, 2);
    PhaseRun(s0);
    PhaseRun(s1);
    PhaseRun(s2);
    RunAdd(s0, 4, 2);
    RunAdd(s0, 6, 4);
  }

  /** A round that is not the last takes twelve ticks and leads to the next round's inhale. */
  lemma RoundRun(r: int)
    requires 0 <= r && r + 1 < TotalRounds
    ensures Run(BreathState(true, r, Inhale, 4), 12) == (BreathState(true, r + 1, Inhale, 4), [])
  {
    var s0 := BreathState(true, r, Inhale, 4);
    BreatheToRest(r);
    PhaseRun(BreathState(true, r, Rest, 2));
    RunAdd(s0, 10, 2);
  }

  /**
   * An uninterrupted exercise: 35 ticks after Start report nothing and the
   * 36th reports the single reward (5, dragon) and stops the game with the
   * countdown at zero.
   */
  lemma SessionRun()
    ensures Run(StartStep(Initial), 35) == (BreathState(true, 2, Rest, 1), [])
    ensures Run(StartStep(Initial), 36) == (BreathState(false, 2, Rest, 0), [DragonReward])
  {
    var s0 := StartStep(Initial);
    RoundRun(0);
    RoundRun(1);
    RunAdd(s0, 12, 12);
    BreatheToRest(2);
    RunAdd(s0, 24, 10);
    var r := BreathState(true, 2, Rest, 2);
    TickCountsDown(r);
    assert Run(r, 1) == (BreathState(true, 2, Rest, 1), []);
    RunAdd(s0, 34, 1);
    var last := BreathState(true, 2, Rest, 1);
    assert Emit(Some(DragonReward)) + [] == [DragonReward];
    assert Run(last, 1) == (BreathState(false, 2, Rest, 0), [DragonReward]);
    RunAdd(s0, 35, 1);
    assert [] + [DragonReward] == [DragonReward];
  }

  /** No tick before the 36th reports a reward. */
  lemma NoEarlyReward(n: nat)
    requires n <= 35
    ensures Run(StartStep(Initial), n).1 == []
  {
    SessionRun();
    RunPrefix(StartStep(Initial), n, 35);
  }

  /** Once stopped, further ticks change nothing and report nothing. */
  lemma {:induction false} IdleRun(s: BreathState, n: nat)
    requires !s.isPlaying
    ensures Run(s, n) == (s, [])
    decreases n
  {
    if n > 0 {
      IdleRun(s, n - 1);
      assert Emit(None) + [] == [];
    }
  }

  /**
   * The start card is shown again once the game stops. Pressing Start there
   * and waiting one tick reports the reward a second time and drives the
   * countdown below zero; in the application the host leaves the game when
   * the first report arrives, one second after completion.
   */
  lemma RestartAfterCompletion()
    ensures var done := Run(StartStep(Initial), 36).0;
      TickStep(StartStep(done)) == (BreathState(false, 2, Rest, -1), Some(DragonReward))
  {
    SessionRun();
  }

  // ---------------------------------------------------------------------
  // Dragon size, in tenths of the base size

  function DragonSize(s: BreathState): int
  {
    match s.phase
    case Inhale => 10 + 2 * (4 - s.timer)
    case Exhale => 10 + 2 * s.timer
    case Hold => 18
    case Rest => 10
  }

  /** The dragon's size stays between 1.0 and 1.8 times its base size. */
  lemma DragonSizeBounds(s: BreathState)
    requires Inv(s)
    ensures 10 <= DragonSize(s) <= 18
  {
  }

  /** Within an inhale every tick grows the dragon by 0.2; within an exhale every tick shrinks it by 0.2. */
  lemma DragonSizeTick(s: BreathState)
    requires s.isPlaying && TickStep(s).0.phase == s.phase
    ensures s.phase == Inhale ==> DragonSize(TickStep(s).0) == DragonSize(s) + 2
    ensures s.phase == Exhale ==> DragonSize(TickStep(s).0) == DragonSize(s) - 2
  {
  }

  // ---------------------------------------------------------------------
  // The component

  class Game {
    var isPlaying: bool
    var round: int
    var phase: Phase
    var timer: int

    function State(): BreathState
      reads this
    {
      BreathState(isPlaying, round, phase, timer)
    }

    ghost predicate Valid()
      reads this
    {
      Inv(State())
    }

    constructor ()
      ensures State() == Initial && Valid()
    {
      isPlaying, round, phase, timer := false, 0, Inhale, 4;
    }

    /** The start button is shown only while the game is not playing. */
    method Start()
      requires Valid() && !isPlaying
      modifies this
      ensures State() == StartStep(old(State())) && Valid()
    {
      StartKeepsInv(State());
      isPlaying := true;
    }

    method Tick() returns (reward: Option<Reward>)
      requires Valid()
      modifies this
      ensures (State(), reward) == TickStep(old(State())) && Valid()
    {
      TickKeepsInv(State());
      reward := None;
      if !isPlaying {
        return;
      }
      if timer <= 1 {
        if phase == Inhale {
          phase, timer := Hold, 2;
          return;
        } else if phase == Hold {
          phase, timer := Exhale, 4;
          return;
        } else if phase == Exhale {
          phase, timer := Rest, 2;
          return;
        } else if round + 1 >= TotalRounds {
          isPlaying := false;
          reward := Some(DragonReward);
        } else {
          round, phase, timer := round + 1, Inhale, 4;
          return;
        }
      }
      timer := timer - 1;
    }
  }
}

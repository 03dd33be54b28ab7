/**
 * The child session: which screen is shown, the chosen profile, world and
 * character, and the progression ledger (total stars and the badge list)
 * that game completions feed.
 */
module Progression {
  import opened Rewards
  import opened GameHub

  datatype View = Profile | WorldSelect | CharacterSelect | Hub | Achievements | Playing(game: GameId)

  /** A snapshot of the session's state. */
  datatype SessionState = SessionState(
    view: View,
    selectedProfile: Option<string>,
    selectedWorld: Option<string>,
    selectedCharacter: Option<string>,
    totalStars: int,
    badges: seq<string>)

  const SeedBadges: seq<string> := ["🌟", "🎯", "🦋", "💪"]
  const Initial: SessionState := SessionState(Profile, None, None, None, 45, SeedBadges)

  predicate NoDuplicates(xs: seq<string>)
  {
    forall i, j :: 0 <= i < j < |xs| ==> xs[i] != xs[j]
  }

  /** The badge list after a completion: a present, non-empty badge not yet in the list is appended. */
  function MergeBadge(badges: seq<string>, badge: Option<string>): seq<string>
  {
    if badge.Some? && badge.value != "" && badge.value !in badges then badges + [badge.value] else badges
  }

  /**
   * Merging keeps the existing list as a prefix, adds at most the one badge,
   * keeps the list free of duplicates, and merging the same badge again
   * changes nothing.
   */
  lemma MergeBadgeFacts(badges: seq<string>, badge: Option<string>)
    ensures var r := MergeBadge(badges, badge);
      && badges <= r
      && |badges| <= |r| <= |badges| + 1
      && (forall x :: x in r <==> x in badges || (badge == Some(x) && x != ""))
      && (NoDuplicates(badges) ==> NoDuplicates(r))
      && MergeBadge(r, badge) == r
      && (badge.Some? && badge.value in badges ==> r == badges)
  {
  }

  /** The profile picker, shown first. */
  function ProfileSelectStep(s: SessionState, profile: string): SessionState
  {
    s.(selectedProfile := Some(profile), view := WorldSelect)
  }

  /** Picking a world also picks its guide character, and opens the world's hub. */
  function WorldSelectStep(s: SessionState, world: string): SessionState
  {
    s.(selectedWorld := Some(world), selectedCharacter := Some(world), view := Hub)
  }

  /** `handleCharacterSelect`; no screen of the session calls it. */
  function CharacterSelectStep(s: SessionState, character: string): SessionState
  {
    s.(selectedCharacter := Some(character), view := Hub)
  }

  /** A click on a hub entry, followed by `handleGameSelect`: an unlocked game opens, a locked one does nothing. */
  function HubSelectStep(s: SessionState, g: MiniGame): SessionState
  {
    match SelectGame(s.totalStars, g)
    case Some(id) => s.(view := Playing(id))
    case None => s
  }

  /** `handleGameComplete`: the reward's stars are added, its badge merged, and the hub shown. */
  function GameCompleteStep(s: SessionState, r: Reward): SessionState
  {
    s.(totalStars := s.totalStars + r.stars, badges := MergeBadge(s.badges, r.badge), view := Hub)
  }

  /** The hub's back button and the world screen's "change character": back to the worlds with nothing chosen. */
  function BackToWorldsStep(s: SessionState): SessionState
  {
    s.(view := WorldSelect, selectedWorld := None, selectedCharacter := None)
  }

  /** A game's back button. */
  function BackToHubStep(s: SessionState): SessionState
  {
    s.(view := Hub)
  }

  function ViewAchievementsStep(s: SessionState): SessionState
  {
    s.(view := Achievements)
  }

  function AchievementsBackStep(s: SessionState): SessionState
  {
    s.(view := WorldSelect)
  }

  /**
   * The badge list stays duplicate-free and keeps the seed badges, a game is
   * only shown once it was unlocked in a chosen world, and the character is
   * the chosen world's guide.
   */
  predicate Inv(s: SessionState)
  {
    && NoDuplicates(s.badges)
    && SeedBadges <= s.badges
    && (s.view.Playing? ==> s.selectedWorld.Some? && s.totalStars >= Threshold(s.view.game))
    && (s.selectedWorld.Some? ==> s.selectedCharacter == s.selectedWorld)
  }

  lemma InitialInv()
    ensures Inv(Initial) && Initial.totalStars == 45 && |Initial.badges| == 4
  {
  }

  /** The screens on which each handler can be reached. */
  predicate CanProfileSelect(s: SessionState) { s.view == Profile }
  predicate CanWorldSelect(s: SessionState) { s.view == WorldSelect }
  predicate CanHubSelect(s: SessionState, g: MiniGame)
  {
    s.view == Hub && s.selectedWorld.Some? && g in GamesFor(s.selectedWorld.value)
  }
  predicate CanBackToWorlds(s: SessionState) { s.view == Hub || s.view == WorldSelect }
  predicate InGame(s: SessionState) { s.view.Playing? }

  /**
   * Every reachable handler keeps the invariant. A completion keeps it from
   * any screen: a game's reward timeout is not cleared when the game is left,
   * so `handleGameComplete` can run on whatever screen is shown by then.
   */
  lemma StepsKeepInv(s: SessionState, p: string, w: string, g: MiniGame, r: Reward)
    requires Inv(s)
    ensures CanProfileSelect(s) ==> Inv(ProfileSelectStep(s, p))
    ensures CanWorldSelect(s) ==> Inv(WorldSelectStep(s, w))
    ensures CanHubSelect(s, g) ==> Inv(HubSelectStep(s, g))
    ensures Inv(GameCompleteStep(s, r))
    ensures CanBackToWorlds(s) ==> Inv(BackToWorldsStep(s))
    ensures InGame(s) ==> Inv(BackToHubStep(s))
    ensures s.view == WorldSelect ==> Inv(ViewAchievementsStep(s))
    ensures s.view == Achievements ==> Inv(AchievementsBackStep(s))
  {
    MergeBadgeFacts(s.badges, r.badge);
    if CanHubSelect(s, g) {
      ThresholdsAgree(s.selectedWorld.value);
    }
  }

  /**
   * A completion adds exactly the earned stars, never removes a badge, and
   * always returns to the hub; a game's back button returns there too.
   */
  lemma GameCompleteFacts(s: SessionState, r: Reward)
    ensures var t := GameCompleteStep(s, r);
      && t.totalStars == s.totalStars + r.stars
      && s.badges <= t.badges
      && t.view == Hub && BackToHubStep(s).view == Hub
      && (r.stars >= 0 ==> t.totalStars >= s.totalStars)
      && (r.badge.Some? && r.badge.value in s.badges ==> t.badges == s.badges)
      && (r.badge.Some? && r.badge.value != "" ==> r.badge.value in t.badges)
  {
    MergeBadgeFacts(s.badges, r.badge);
  }

  /** Only a completion writes the ledger: every other handler leaves the stars and badges as they were. */
  lemma OnlyCompletionWritesLedger(s: SessionState, p: string, w: string, c: string, g: MiniGame)
    ensures var others := [ProfileSelectStep(s, p), WorldSelectStep(s, w), CharacterSelectStep(s, c), HubSelectStep(s, g),
                           BackToWorldsStep(s), BackToHubStep(s), ViewAchievementsStep(s), AchievementsBackStep(s)];
      forall i :: 0 <= i < |others| ==> others[i].totalStars == s.totalStars && others[i].badges == s.badges
  {
  }

  /** Choosing a world sets world and character alike; going back clears both. */
  lemma WorldRoundTrip(s: SessionState, w: string)
    ensures WorldSelectStep(s, w).selectedWorld == Some(w) && WorldSelectStep(s, w).selectedCharacter == Some(w)
    ensures WorldSelectStep(s, w).view == Hub
    ensures BackToWorldsStep(WorldSelectStep(s, w)) == s.(view := WorldSelect, selectedWorld := None, selectedCharacter := None)
  {
  }

  /** A hub click opens the game exactly when the stars reach its threshold. */
  lemma HubSelectOpensUnlocked(s: SessionState, g: MiniGame)
    requires CanHubSelect(s, g)
    ensures HubSelectStep(s, g).view == Playing(g.id) <==> s.totalStars >= g.starsNeeded
    ensures s.totalStars < g.starsNeeded ==> HubSelectStep(s, g) == s
  {
  }

  /** The hub renders the chosen world, so it needs one. */
  predicate HubHasWorld(s: SessionState)
  {
    s.view == Hub ==> s.selectedWorld.Some?
  }

  /**
   * A reward timeout outlives its game: after a game's back button and then
   * the hub's, the pending completion still adds its stars and opens the hub,
   * now with no world chosen, where no game can be selected.
   */
  lemma StaleRewardOpensHubWithoutWorld(s: SessionState, r: Reward, g: MiniGame)
    requires Inv(s) && InGame(s)
    ensures var t := GameCompleteStep(BackToWorldsStep(BackToHubStep(s)), r);
      && Inv(t) && !HubHasWorld(t) && !CanHubSelect(t, g)
      && t.totalStars == s.totalStars + r.stars
  {
    MergeBadgeFacts(s.badges, r.badge);
  }

  /** A completion honoured only while its game is shown, as if each game cleared its timeout when it is left. */
  function CompleteWhilePlaying(s: SessionState, r: Reward): SessionState
  {
    if InGame(s) then GameCompleteStep(s, r) else s
  }

  /**
   * With completions honoured only in a game, every handler keeps a world
   * chosen while the hub is shown, and the stale reward after leaving a game
   * is dropped.
   */
  lemma CompleteWhilePlayingKeepsWorld(s: SessionState, p: string, w: string, g: MiniGame, r: Reward)
    requires Inv(s) && HubHasWorld(s)
    ensures Inv(CompleteWhilePlaying(s, r)) && HubHasWorld(CompleteWhilePlaying(s, r))
    ensures CanProfileSelect(s) ==> HubHasWorld(ProfileSelectStep(s, p))
    ensures CanWorldSelect(s) ==> HubHasWorld(WorldSelectStep(s, w))
    ensures CanHubSelect(s, g) ==> HubHasWorld(HubSelectStep(s, g))
    ensures CanBackToWorlds(s) ==> HubHasWorld(BackToWorldsStep(s))
    ensures InGame(s) ==> HubHasWorld(BackToHubStep(s))
    ensures s.view == WorldSelect ==> HubHasWorld(ViewAchievementsStep(s))
    ensures s.view == Achievements ==> HubHasWorld(AchievementsBackStep(s))
    ensures InGame(s) ==> CompleteWhilePlaying(BackToWorldsStep(BackToHubStep(s)), r) == BackToWorldsStep(BackToHubStep(s))
  {
    StepsKeepInv(s, p, w, g, r);
  }

  /** Earning the same badge twice lists it once, and the stars of both completions add up. */
  lemma RepeatedBadge(s: SessionState, r1: Reward, r2: Reward)
    requires r1.badge == r2.badge
    ensures var t := GameCompleteStep(GameCompleteStep(s, r1), r2);
      t.badges == GameCompleteStep(s, r1).badges && t.totalStars == s.totalStars + r1.stars + r2.stars
  {
    MergeBadgeFacts(s.badges, r1.badge);
  }

  class Session {
    var view: View
    var selectedProfile: Option<string>
    var selectedWorld: Option<string>
    var selectedCharacter: Option<string>
    var totalStars: int
    var badges: seq<string>

    function State(): SessionState
      reads this
    {
      SessionState(view, selectedProfile, selectedWorld, selectedCharacter, totalStars, badges)
    }

    ghost predicate Valid()
      reads this
    {
      Inv(State())
    }

    constructor ()
      ensures State() == Initial && Valid()
    {
      view, selectedProfile, selectedWorld, selectedCharacter := Profile, None, None, None;
      totalStars, badges := 45, SeedBadges;
    }

    method SelectProfile(profile: string)
      requires Valid() && CanProfileSelect(State())
      modifies this
      ensures State() == ProfileSelectStep(old(State()), profile) && Valid()
    {
      StepsKeepInv(State(), profile, "", Dragon, Reward(0, None));
      selectedProfile := Some(profile);
      view := WorldSelect;
    }

    method SelectWorld(world: string)
      requires Valid() && CanWorldSelect(State())
      modifies this
      ensures State() == WorldSelectStep(old(State()), world) && Valid()
    {
      StepsKeepInv(State(), "", world, Dragon, Reward(0, None));
      selectedWorld := Some(world);
      selectedCharacter := Some(world);
      view := Hub;
    }

    method SelectGame(g: MiniGame)
      requires Valid() && CanHubSelect(State(), g)
      modifies this
      ensures State() == HubSelectStep(old(State()), g) && Valid()
    {
      StepsKeepInv(State(), "", "", g, Reward(0, None));
      if !IsLocked(totalStars, g) {
        view := Playing(g.id);
      }
    }

    /** The `onComplete` callback every game receives; it can fire after its game was left. */
    method GameComplete(r: Reward)
      requires Valid()
      modifies this
      ensures State() == GameCompleteStep(old(State()), r) && Valid()
    {
      StepsKeepInv(State(), "", "", Dragon, r);
      totalStars := totalStars + r.stars;
      if r.badge.Some? && r.badge.value != "" && r.badge.value !in badges {
        badges := badges + [r.badge.value];
      }
      view := Hub;
    }

    method BackToWorlds()
      requires Valid() && CanBackToWorlds(State())
      modifies this
      ensures State() == BackToWorldsStep(old(State())) && Valid()
    {
      StepsKeepInv(State(), "", "", Dragon, Reward(0, None));
      view := WorldSelect;
      selectedWorld := None;
      selectedCharacter := None;
    }

    method BackToHub()
      requires Valid() && InGame(State())
      modifies this
      ensures State() == BackToHubStep(old(State())) && Valid()
    {
      StepsKeepInv(State(), "", "", Dragon, Reward(0, None));
      view := Hub;
    }

    method ViewAchievements()
      requires Valid() && view == WorldSelect
      modifies this
      ensures State() == ViewAchievementsStep(old(State())) && Valid()
    {
      StepsKeepInv(State(), "", "", Dragon, Reward(0, None));
      view := Achievements;
    }

    method AchievementsBack()
      requires Valid() && view == Achievements
      modifies this
      ensures State() == AchievementsBackStep(old(State())) && Valid()
    {
      StepsKeepInv(State(), "", "", Dragon, Reward(0, None));
      view := WorldSelect;
    }
  }
}

/**
 * The mini-game hub of an emotion world: the games each world offers, the
 * star threshold that unlocks each, the "earn N more stars" hint and the
 * "Games Unlocked" counter.
 */
module GameHub {
  import opened Rewards

  datatype GameId = BreathingDragon | MoodMirror | FeelingsQuest | SpaceAdventure

  /** A hub entry; its description and emoji are display-only. */
  datatype MiniGame = MiniGame(id: GameId, name: string, starsNeeded: nat)

  const Dragon: MiniGame := MiniGame(BreathingDragon, "Breathing Dragon", 0)
  const Mirror: MiniGame := MiniGame(MoodMirror, "Mood Mirror", 0)
  const Quest: MiniGame := MiniGame(FeelingsQuest, "Feelings Quest", 5)
  const Space: MiniGame := MiniGame(SpaceAdventure, "Space Adventure", 10)

  const Worlds: seq<string> := ["joy", "sadness", "anger", "fear", "disgust"]

  /** `allGames[worldId] || []`: the games of a world, in display order, and none for an unknown world. */
  function GamesFor(world: string): seq<MiniGame>
  {
    if world == "joy" then [Mirror, Quest]
    else if world == "sadness" then [Dragon, Mirror, Quest, Space]
    else if world == "anger" then [Dragon, Space, Mirror, Quest]
    else if world == "fear" then [Dragon, Mirror, Quest, Space]
    else if world == "disgust" then [Mirror, Quest, Space]
    else []
  }

  /** The threshold every world uses for a game. */
  function Threshold(g: GameId): nat
  {
    match g
    case BreathingDragon => 0
    case MoodMirror => 0
    case FeelingsQuest => 5
    case SpaceAdventure => 10
  }

  /**
   * The same game needs the same number of stars in every world, no world
   * lists a game twice, and a world the hub does not know has no games.
   */
  lemma ThresholdsAgree(world: string)
    ensures forall i :: 0 <= i < |GamesFor(world)| ==>
      GamesFor(world)[i].starsNeeded == Threshold(GamesFor(world)[i].id)
    ensures forall i, j :: 0 <= i < j < |GamesFor(world)| ==> GamesFor(world)[i].id != GamesFor(world)[j].id
    ensures world !in Worlds ==> GamesFor(world) == []
    ensures world in Worlds ==> 2 <= |GamesFor(world)| <= 4
  {
  }

  predicate IsLocked(totalStars: int, g: MiniGame)
  {
    totalStars < g.starsNeeded
  }

  /** The "Earn N more stars to unlock!" amount, shown on a locked game: reaching it exactly unlocks the game. */
  function Shortfall(totalStars: int, g: MiniGame): (n: int)
    requires IsLocked(totalStars, g)
    ensures n >= 1
    ensures !IsLocked(totalStars + n, g) && IsLocked(totalStars + n - 1, g)
  {
    g.starsNeeded - totalStars
  }

  /** A click on a hub entry: the game is started only when it is unlocked. */
  function SelectGame(totalStars: int, g: MiniGame): Option<GameId>
  {
    if IsLocked(totalStars, g) then None else Some(g.id)
  }

  /** `games.filter(g => totalStars >= g.starsNeeded)`. */
  function Unlocked(totalStars: int, games: seq<MiniGame>): seq<MiniGame>
  {
    if games == [] then []
    else (if IsLocked(totalStars, games[0]) then [] else [games[0]]) + Unlocked(totalStars, games[1..])
  }

  /** The "Games Unlocked" counter. */
  function UnlockedCount(totalStars: int, games: seq<MiniGame>): nat
  {
    |Unlocked(totalStars, games)|
  }

  /** The filter keeps exactly the unlocked games, and no more of them than there are games. */
  lemma {:induction false} UnlockedSpec(totalStars: int, games: seq<MiniGame>)
    ensures forall g :: g in Unlocked(totalStars, games) <==> g in games && !IsLocked(totalStars, g)
    ensures UnlockedCount(totalStars, games) <= |games|
  {
    if games != [] {
      UnlockedSpec(totalStars, games[1..]);
      assert games == [games[0]] + games[1..];
    }
  }

  /** More stars never unlock fewer games. */
  lemma {:induction false} UnlockedCountMonotone(s1: int, s2: int, games: seq<MiniGame>)
    requires s1 <= s2
    ensures UnlockedCount(s1, games) <= UnlockedCount(s2, games)
  {
    if games != [] {
      UnlockedCountMonotone(s1, s2, games[1..]);
    }
  }

  /** With at least as many stars as every threshold, every game is unlocked; with fewer than every threshold, none is. */
  lemma {:induction false} UnlockedCountExtremes(totalStars: int, games: seq<MiniGame>)
    ensures (forall i :: 0 <= i < |games| ==> totalStars >= games[i].starsNeeded) ==> UnlockedCount(totalStars, games) == |games|
    ensures (forall i :: 0 <= i < |games| ==> totalStars < games[i].starsNeeded) ==> UnlockedCount(totalStars, games) == 0
  {
    if games != [] {
      UnlockedCountExtremes(totalStars, games[1..]);
    }
  }

  /**
   * In every world, a new player's 45 stars unlock every game, while with no
   * stars exactly the free games (Breathing Dragon, Mood Mirror) are open.
   */
  lemma HubCounts(world: string)
    ensures UnlockedCount(45, GamesFor(world)) == |GamesFor(world)|
    ensures forall g :: g in Unlocked(0, GamesFor(world)) <==> g in GamesFor(world) && (g.id == BreathingDragon || g.id == MoodMirror)
  {
    ThresholdsAgree(world);
    UnlockedCountExtremes(45, GamesFor(world));
    UnlockedSpec(0, GamesFor(world));
  }
}

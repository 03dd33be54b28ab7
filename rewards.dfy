/** Values shared by every mini-game and the progression ledger. */
module Rewards {

  datatype Option<T> = None | Some(value: T)

  /** What a game hands to its host through `onComplete(stars, badge?)`. */
  datatype Reward = Reward(stars: int, badge: Option<string>)

  function Max(a: int, b: int): (m: int)
    ensures m >= a && m >= b && (m == a || m == b)
  {
    if a >= b then a else b
  }
}

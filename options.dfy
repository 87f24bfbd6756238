/** The conventional optional value: an absent leaderboard response, an
    unset focus target, a save request that was never issued. */
module Options {

  datatype Option<+T> = None | Some(value: T)
}

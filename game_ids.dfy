/** The three mini-games, shared by the server schema (`GameIdSchema`) and the client store. */
module GameIds {

  import opened Wrappers

  datatype GameId = Star | Memory | Jump

  /** The wire name of a game: the strings of the enumeration `['star', 'memory', 'jump']`. */
  function Name(g: GameId): (s: string)
    ensures |s| >= 4
  {
    match g
    case Star => "star"
    case Memory => "memory"
    case Jump => "jump"
  }

  /** The inverse of `Name`: the game a wire string denotes, if any. */
  function FromName(s: string): (r: Option<GameId>)
    ensures r.Some? ==> Name(r.value) == s
    ensures r.None? ==> forall g: GameId :: Name(g) != s
  {
    if s == "star" then Some(Star)
    else if s == "memory" then Some(Memory)
    else if s == "jump" then Some(Jump)
    else None
  }

  /** The enumeration has exactly these three members. */
  lemma EveryGame(g: GameId)
    ensures g == Star || g == Memory || g == Jump
  {
    match g
    case Star =>
    case Memory =>
    case Jump =>
  }

  lemma NameRoundTrip(g: GameId)
    ensures FromName(Name(g)) == Some(g)
  {
  }
}

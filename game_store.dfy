/**
 * The client's game session store (src/stores/useGameStore.ts): the nickname and the last
 * score of each game in this session. The zustand `persist` middleware is reduced to its
 * `partialize` projection.
 */
module GameStore {

  import opened GameIds

  /** `initialScores`: every game at 0. */
  function InitialScores(): (m: map<GameId, int>)
    ensures forall g: GameId :: g in m && m[g] == 0
  {
    var m := map[Star := 0, Memory := 0, Jump := 0];
    assert forall g: GameId :: g in m && m[g] == 0 by { forall g: GameId ensures g in m && m[g] == 0 { EveryGame(g); } }
    m
  }

  /** What `partialize` hands to local storage. */
  datatype Persisted = Persisted(nickname: string)

  class GameStore {
    var nickname: string
    var sessionScores: map<GameId, int>

    /** Every game has a score. */
    ghost predicate Valid()
      reads this
    {
      forall g: GameId :: g in sessionScores
    }

    /** The store's initial state: no nickname, a copy of `initialScores`. */
    constructor ()
      ensures Valid() && nickname == "" && sessionScores == InitialScores()
    {
      nickname := "";
      sessionScores := InitialScores();
    }

    /** `setNickname`: only the nickname changes. */
    method SetNickname(n: string)
      modifies this`nickname
      ensures nickname == n
    {
      nickname := n;
    }

    /** `setScore(game, score)`: only that game's score changes. */
    method SetScore(game: GameId, score: int)
      requires Valid()
      modifies this`sessionScores
      ensures Valid() && sessionScores == old(sessionScores)[game := score]
      ensures sessionScores[game] == score
      ensures forall g :: g != game ==> sessionScores[g] == old(sessionScores[g])
    {
      sessionScores := sessionScores[game := score];
    }

    /** `resetSession`: every score back to 0, the nickname untouched. */
    method ResetSession()
      modifies this`sessionScores
      ensures Valid() && sessionScores == InitialScores()
    {
      sessionScores := InitialScores();
    }

    /** `partialize`: the persisted part of the state is the nickname alone. */
    function Partialize(): (p: Persisted)
      reads this
      ensures p.nickname == nickname
    {
      Persisted(nickname)
    }
  }
}

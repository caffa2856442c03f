// The lobby directory (lobbyPlayers of src/core/Game.ts): who is in the room
// and which character each player has claimed. The host owns the list; these
// are the pure rules its handlers apply.

module Lobby {
  import opened Common
  import opened Protocol

  /** The entry the host creates for a joining peer: no character yet, not host, not ready. */
  function NewPlayer(id: string, nickname: string): PlayerInfo
  {
    PlayerInfo(id, nickname, "", false, false, 0)
  }

  predicate HasId(ps: seq<PlayerInfo>, id: string)
  {
    exists i :: 0 <= i < |ps| && ps[i].id == id
  }

  /** `find(p => p.id === id)`: the position of the first entry with this id. */
  function IndexOf(ps: seq<PlayerInfo>, id: string): (r: Option<nat>)
    ensures r.Some? ==> r.value < |ps| && ps[r.value].id == id
    ensures r.Some? ==> forall j :: 0 <= j < r.value ==> ps[j].id != id
    ensures r.None? <==> !HasId(ps, id)
  {
    if |ps| == 0 then None
    else if ps[0].id == id then Some(0)
    else
      match IndexOf(ps[1..], id)
      case None =>
        assert forall j :: 1 <= j < |ps| ==> ps[1..][j - 1] == ps[j];
        None
      case Some(k) => Some(k + 1)
  }

  /** Somebody other than `except` already holds character c. */
  predicate IsTaken(ps: seq<PlayerInfo>, c: string, except: string)
  {
    exists i :: 0 <= i < |ps| && ps[i].character == c && ps[i].id != except
  }

  /**
   * JOIN at the host: a peer already listed is ignored, a new one is appended
   * with a fresh entry.
   */
  function Admit(ps: seq<PlayerInfo>, id: string, nickname: string): seq<PlayerInfo>
  {
    if HasId(ps, id) then ps else ps + [NewPlayer(id, nickname)]
  }

  /**
   * A character request from player `id` for character c: granted to the first
   * entry with that id unless another player holds c; an unknown id changes nothing.
   */
  function Select(ps: seq<PlayerInfo>, id: string, c: string): seq<PlayerInfo>
  {
    match IndexOf(ps, id)
    case None => ps
    case Some(i) => if IsTaken(ps, c, id) then ps else ps[i := ps[i].(character := c)]
  }

  /** Every player has chosen a (non-empty) character. */
  predicate AllReady(ps: seq<PlayerInfo>)
  {
    forall i :: 0 <= i < |ps| ==> ps[i].character != ""
  }

  predicate UniqueIds(ps: seq<PlayerInfo>)
  {
    forall i, j :: 0 <= i < |ps| && 0 <= j < |ps| && i != j ==> ps[i].id != ps[j].id
  }

  /** No two players share a character, not counting players who have none yet. */
  predicate DistinctCharacters(ps: seq<PlayerInfo>)
  {
    forall i, j :: 0 <= i < |ps| && 0 <= j < |ps| && i != j && ps[i].character != "" ==>
      ps[i].character != ps[j].character
  }

  /** The same players with every total score set back to 0. */
  function ZeroTotals(ps: seq<PlayerInfo>): (r: seq<PlayerInfo>)
  {
    seq(|ps|, i requires 0 <= i < |ps| => ps[i].(totalScore := 0))
  }

  /** Two rosters agree on everything but the scores. */
  predicate SameRoster(ps: seq<PlayerInfo>, qs: seq<PlayerInfo>)
  {
    |ps| == |qs| &&
    forall i :: 0 <= i < |ps| ==> ps[i].(totalScore := 0) == qs[i].(totalScore := 0)
  }

  // ---------------------------------------------------------------------------
  // Properties

  /**
   * A known peer's JOIN changes nothing; a new peer ends up last, with an empty
   * character, and ids stay unique.
   */
  lemma AdmitRules(ps: seq<PlayerInfo>, id: string, nickname: string)
    ensures HasId(ps, id) ==> Admit(ps, id, nickname) == ps
    ensures !HasId(ps, id) ==> Admit(ps, id, nickname) == ps + [NewPlayer(id, nickname)]
    ensures HasId(Admit(ps, id, nickname), id)
    ensures UniqueIds(ps) ==> UniqueIds(Admit(ps, id, nickname))
  {
    var r := Admit(ps, id, nickname);
    assert r[|r| - 1].id == id || HasId(ps, id);
  }

  /**
   * A character request touches at most the requester's entry: it is granted
   * exactly when the requester is listed and nobody else holds the character.
   */
  lemma SelectRules(ps: seq<PlayerInfo>, id: string, c: string)
    ensures var r := Select(ps, id, c);
      SameLengthAndIds(ps, r)
      && (HasId(ps, id) && !IsTaken(ps, c, id) ==> r[IndexOf(ps, id).value].character == c)
      && (!HasId(ps, id) || IsTaken(ps, c, id) ==> r == ps)
      && (forall j :: 0 <= j < |ps| && ps[j].id != id ==> r[j] == ps[j])
  {
  }

  predicate SameLengthAndIds(ps: seq<PlayerInfo>, qs: seq<PlayerInfo>)
  {
    |ps| == |qs| && forall i :: 0 <= i < |ps| ==> ps[i].id == qs[i].id
  }

  /** With unique ids, granting requests never lets two players share a character. */
  lemma SelectKeepsDistinct(ps: seq<PlayerInfo>, id: string, c: string)
    requires UniqueIds(ps) && DistinctCharacters(ps)
    ensures UniqueIds(Select(ps, id, c)) && DistinctCharacters(Select(ps, id, c))
  {
    var r := Select(ps, id, c);
    match IndexOf(ps, id)
    case None =>
    case Some(k) =>
      if !IsTaken(ps, c, id) {
        forall i, j | 0 <= i < |r| && 0 <= j < |r| && i != j && r[i].character != ""
          ensures r[i].character != r[j].character
        {
          if i == k {
            assert ps[j].id != id;
            assert r[j] == ps[j];
          } else if j == k {
            assert ps[i].id != id;
            assert r[i] == ps[i];
          } else {
            assert r[i] == ps[i] && r[j] == ps[j];
          }
        }
      }
  }

  /**
   * Two players asking for the same free character: the request that arrives
   * first gets it and the second is refused.
   */
  lemma FirstRequestWins(ps: seq<PlayerInfo>, a: string, b: string, c: string)
    requires UniqueIds(ps) && HasId(ps, a) && HasId(ps, b) && a != b
    requires forall i :: 0 <= i < |ps| ==> ps[i].character != c
    ensures var r := Select(Select(ps, a, c), b, c);
      r[IndexOf(ps, a).value].character == c
      && r[IndexOf(ps, b).value] == ps[IndexOf(ps, b).value]
  {
    var ka := IndexOf(ps, a).value;
    var kb := IndexOf(ps, b).value;
    var r1 := Select(ps, a, c);
    assert !IsTaken(ps, c, a);
    assert r1 == ps[ka := ps[ka].(character := c)];
    assert IndexOf(r1, b) == Some(kb) by {
      assert r1[kb] == ps[kb];
      assert forall j :: 0 <= j < kb ==> r1[j].id == ps[j].id;
    }
    assert IsTaken(r1, c, b) by {
      assert r1[ka].character == c && r1[ka].id != b;
    }
  }

  /** Resetting the scores keeps every player, in order, and their characters. */
  lemma ZeroTotalsKeepsRoster(ps: seq<PlayerInfo>)
    ensures SameRoster(ps, ZeroTotals(ps))
    ensures forall i :: 0 <= i < |ps| ==> ZeroTotals(ps)[i].totalScore == 0
    ensures AllReady(ps) <==> AllReady(ZeroTotals(ps))
    ensures UniqueIds(ps) ==> UniqueIds(ZeroTotals(ps))
  {
    var r := ZeroTotals(ps);
    assert forall i :: 0 <= i < |ps| ==> r[i].character == ps[i].character && r[i].id == ps[i].id;
  }
}

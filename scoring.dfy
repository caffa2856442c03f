// Round scoring (calculateScores and the win check of src/core/Game.ts): each
// player still present earns 10 for reaching the goal and 2 per coin, added to
// a running total kept on the lobby entry.

module Scoring {
  import opened Common
  import opened Protocol
  import opened Players

  /** GOAL_SCORE: the total that wins the match. */
  const GoalScore: int := 50

  /** The points a player's round is worth. */
  function RoundPoints(f: Flags): (points: nat)
    ensures points >= 2 * f.score
    ensures f.hasWon ==> points >= 10
    ensures points % 2 == 0
  {
    (if f.hasWon then 10 else 0) + 2 * f.score
  }

  /**
   * calculateScores over the lobby, given the final flags of every player that
   * exists this round (keyed by player id): the lobby with updated totals, and
   * one score line per present player, in lobby order.
   */
  function Calculate(lobby: seq<PlayerInfo>, results: map<string, Flags>): (r: (seq<PlayerInfo>, seq<ScoreEntry>))
    ensures |r.0| == |lobby| && |r.1| <= |lobby|
  {
    if |lobby| == 0 then ([], [])
    else
      var (ps, es) := Calculate(lobby[..|lobby| - 1], results);
      var p := lobby[|lobby| - 1];
      if p.id in results then
        var added := RoundPoints(results[p.id]);
        var q := p.(totalScore := p.totalScore + added);
        (ps + [q], es + [ScoreEntry(p.nickname, q.totalScore, added)])
      else (ps + [p], es)
  }

  /**
   * Every entry keeps its place and everything but its total; a present
   * player's total grows by its round points, an absent one's is unchanged.
   * So totals never decrease.
   */
  lemma {:induction false} CalculateUpdatesTotals(lobby: seq<PlayerInfo>, results: map<string, Flags>)
    ensures var ps := Calculate(lobby, results).0;
      forall i :: 0 <= i < |lobby| ==>
        ps[i] == lobby[i].(totalScore := lobby[i].totalScore +
                                          (if lobby[i].id in results then RoundPoints(results[lobby[i].id]) else 0))
        && ps[i].totalScore >= lobby[i].totalScore
  {
    if |lobby| > 0 {
      CalculateUpdatesTotals(lobby[..|lobby| - 1], results);
    }
  }

  /** A score line for lobby position i: its nickname, new total and the points added. */
  predicate LineFor(lobby: seq<PlayerInfo>, results: map<string, Flags>, i: int, e: ScoreEntry)
    requires 0 <= i < |lobby|
  {
    lobby[i].id in results
    && e == ScoreEntry(lobby[i].nickname, lobby[i].totalScore + RoundPoints(results[lobby[i].id]),
                       RoundPoints(results[lobby[i].id]))
  }

  /** Every score line belongs to a present player (so absent players get no line). */
  lemma {:induction false} LineHasOwner(lobby: seq<PlayerInfo>, results: map<string, Flags>, k: int)
    requires 0 <= k < |Calculate(lobby, results).1|
    ensures exists i :: 0 <= i < |lobby| && LineFor(lobby, results, i, Calculate(lobby, results).1[k])
  {
    var n := |lobby| - 1;
    var init := lobby[..n];
    var es0 := Calculate(init, results).1;
    var es := Calculate(lobby, results).1;
    if k < |es0| {
      LineHasOwner(init, results, k);
      var i :| 0 <= i < |init| && LineFor(init, results, i, es0[k]);
      assert es[k] == es0[k];
      assert LineFor(lobby, results, i, es[k]);
    } else {
      assert LineFor(lobby, results, n, es[k]);
    }
  }

  /** Every present player has a score line carrying its new total and the points added. */
  lemma {:induction false} OwnerHasLine(lobby: seq<PlayerInfo>, results: map<string, Flags>, i: int)
    requires 0 <= i < |lobby| && lobby[i].id in results
    ensures exists k :: 0 <= k < |Calculate(lobby, results).1| && LineFor(lobby, results, i, Calculate(lobby, results).1[k])
  {
    var n := |lobby| - 1;
    var init := lobby[..n];
    var es0 := Calculate(init, results).1;
    var es := Calculate(lobby, results).1;
    assert es[..|es0|] == es0;
    if i < n {
      OwnerHasLine(init, results, i);
      var k :| 0 <= k < |es0| && LineFor(init, results, i, es0[k]);
      assert es[k] == es0[k];
      assert LineFor(lobby, results, i, es[k]);
    } else {
      assert LineFor(lobby, results, n, es[|es| - 1]);
    }
  }

  /** The score line of a present player: its nickname, new total and the points added. */
  function Line(p: PlayerInfo, results: map<string, Flags>): ScoreEntry
    requires p.id in results
  {
    ScoreEntry(p.nickname, p.totalScore + RoundPoints(results[p.id]), RoundPoints(results[p.id]))
  }

  /**
   * The score lines read front to back: one per present player, in lobby
   * order, absent players skipped.
   */
  function Lines(lobby: seq<PlayerInfo>, results: map<string, Flags>): seq<ScoreEntry>
  {
    if |lobby| == 0 then []
    else (if lobby[0].id in results then [Line(lobby[0], results)] else []) + Lines(lobby[1..], results)
  }

  lemma {:induction false} LinesSnoc(lobby: seq<PlayerInfo>, p: PlayerInfo, results: map<string, Flags>)
    ensures Lines(lobby + [p], results) == Lines(lobby, results) + (if p.id in results then [Line(p, results)] else [])
  {
    if |lobby| > 0 {
      assert (lobby + [p])[1..] == lobby[1..] + [p];
      LinesSnoc(lobby[1..], p, results);
    }
  }

  /** calculateScores' lines are exactly one per present player, in lobby order. */
  lemma {:induction false} CalculateInLobbyOrder(lobby: seq<PlayerInfo>, results: map<string, Flags>)
    ensures Calculate(lobby, results).1 == Lines(lobby, results)
  {
    if |lobby| > 0 {
      var init := lobby[..|lobby| - 1];
      CalculateInLobbyOrder(init, results);
      LinesSnoc(init, lobby[|lobby| - 1], results);
      assert init + [lobby[|lobby| - 1]] == lobby;
    }
  }

  /** A present player whose new total reaches GOAL_SCORE. */
  predicate Reaches(p: PlayerInfo, results: map<string, Flags>)
  {
    p.id in results && Line(p, results).current >= GoalScore
  }

  /** Lobby position i is the first player whose new total reaches GOAL_SCORE. */
  predicate FirstToReach(lobby: seq<PlayerInfo>, results: map<string, Flags>, i: int)
  {
    0 <= i < |lobby| && Reaches(lobby[i], results) && forall j :: 0 <= j < i ==> !Reaches(lobby[j], results)
  }

  /** Nobody is named winner exactly when no present player's new total reaches GOAL_SCORE. */
  lemma {:induction false} NoWinnerIffNobodyReaches(lobby: seq<PlayerInfo>, results: map<string, Flags>)
    ensures FindWinner(Lines(lobby, results)).None? <==> forall i :: 0 <= i < |lobby| ==> !Reaches(lobby[i], results)
  {
    if |lobby| > 0 {
      var rest := lobby[1..];
      var ls := Lines(lobby, results);
      var tail := Lines(rest, results);
      NoWinnerIffNobodyReaches(rest, results);
      if lobby[0].id in results {
        assert ls == [Line(lobby[0], results)] + tail;
        assert ls[1..] == tail;
      } else {
        assert ls == tail;
      }
      if forall i :: 0 <= i < |rest| ==> !Reaches(rest[i], results) {
        forall i | 1 <= i < |lobby| ensures !Reaches(lobby[i], results) {
          assert lobby[i] == rest[i - 1];
        }
      } else {
        var i :| 0 <= i < |rest| && Reaches(rest[i], results);
        assert lobby[i + 1] == rest[i];
      }
    }
  }

  /** Past a first player who does not reach GOAL_SCORE, the winner is the one found among the rest. */
  lemma WinnerSkipsFirst(lobby: seq<PlayerInfo>, results: map<string, Flags>)
    requires |lobby| > 0 && !Reaches(lobby[0], results) && FindWinner(Lines(lobby, results)).Some?
    ensures FindWinner(Lines(lobby[1..], results)).Some?
    ensures Lines(lobby, results)[FindWinner(Lines(lobby, results)).value]
            == Lines(lobby[1..], results)[FindWinner(Lines(lobby[1..], results)).value]
  {
    var ls := Lines(lobby, results);
    var tail := Lines(lobby[1..], results);
    if lobby[0].id in results {
      assert ls == [Line(lobby[0], results)] + tail;
      assert ls[1..] == tail;
    } else {
      assert ls == tail;
    }
  }

  /**
   * The winner the score screen names is the line of the first player, in
   * lobby order, whose new total reaches GOAL_SCORE.
   */
  lemma {:induction false} WinnerIsFirstInLobby(lobby: seq<PlayerInfo>, results: map<string, Flags>)
    requires FindWinner(Lines(lobby, results)).Some?
    ensures exists i :: FirstToReach(lobby, results, i)
                        && Lines(lobby, results)[FindWinner(Lines(lobby, results)).value] == Line(lobby[i], results)
  {
    if Reaches(lobby[0], results) {
      assert Lines(lobby, results) == [Line(lobby[0], results)] + Lines(lobby[1..], results);
      assert FirstToReach(lobby, results, 0);
    } else {
      var rest := lobby[1..];
      WinnerSkipsFirst(lobby, results);
      WinnerIsFirstInLobby(rest, results);
      var i :| FirstToReach(rest, results, i)
               && Lines(rest, results)[FindWinner(Lines(rest, results)).value] == Line(rest[i], results);
      assert lobby[i + 1] == rest[i];
      forall j | 0 <= j < i + 1 ensures !Reaches(lobby[j], results) {
        if j > 0 {
          assert lobby[j] == rest[j - 1];
        }
      }
      assert FirstToReach(lobby, results, i + 1);
    }
  }

  /** The win check: the first score line whose total reached GOAL_SCORE. */
  function FindWinner(entries: seq<ScoreEntry>): (w: Option<nat>)
    ensures w.Some? ==> w.value < |entries| && entries[w.value].current >= GoalScore
    ensures w.Some? ==> forall k :: 0 <= k < w.value ==> entries[k].current < GoalScore
    ensures w.None? <==> forall k :: 0 <= k < |entries| ==> entries[k].current < GoalScore
  {
    if |entries| == 0 then None
    else if entries[0].current >= GoalScore then Some(0)
    else
      match FindWinner(entries[1..])
      case None =>
        assert forall k :: 1 <= k < |entries| ==> entries[1..][k - 1] == entries[k];
        None
      case Some(k) => Some(k + 1)
  }
}

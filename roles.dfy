/**
 * Role assignment at game start (backend/main.py:97-101): the roster is shuffled and the
 * first `imposters` players of the shuffled list become imposters, every other player an
 * innocent.
 *
 * The shuffle is an input: `order` lists the roster's player ids in the order the shuffle
 * produced, so any permutation of the roster may be given.
 */
module Roles {
  import opened Game

  /** No id appears twice. */
  predicate Distinct(s: seq<string>) {
    forall i, j | 0 <= i < j < |s| :: s[i] != s[j]
  }

  function Elems(s: seq<string>): set<string> {
    set x | x in s
  }

  /** `order` is a permutation of the roster's ids: each id exactly once. */
  predicate IsShuffle(order: seq<string>, players: map<string, Player>) {
    Distinct(order) && Elems(order) == players.Keys
  }

  /** How many positions `i` of a list of `n` satisfy `i < k`: max(0, min(k, n)). */
  function Clamp(k: int, n: nat): nat {
    if k < 0 then 0 else if k > n then n else k
  }

  /** The ids of the players whose role flag is set. */
  function ImposterIds(players: map<string, Player>): set<string> {
    set k | k in players && players[k].isImposter
  }

  /**
   * Every player's flag overwritten: set exactly for the first `imposters` ids of the
   * shuffle. The player ids are kept, and each player changes in its role flag only.
   */
  function AssignRoles(players: map<string, Player>, order: seq<string>, imposters: int): (r: map<string, Player>)
    ensures r.Keys == players.Keys
    ensures forall k | k in players :: r[k] == players[k].(isImposter := r[k].isImposter)
  {
    var chosen := Elems(order[..Clamp(imposters, |order|)]);
    map k | k in players :: players[k].(isImposter := k in chosen)
  }

  /** A list without repetitions has as many distinct elements as positions. */
  lemma {:induction false} DistinctElems(s: seq<string>)
    requires Distinct(s)
    ensures |Elems(s)| == |s|
  {
    if s != [] {
      var t := s[1..];
      assert Distinct(t);
      DistinctElems(t);
      assert Elems(s) == {s[0]} + Elems(t);
      assert s[0] !in Elems(t);
    }
  }

  /** A shuffle lists exactly as many ids as the roster holds. */
  lemma ShuffleLength(order: seq<string>, players: map<string, Player>)
    requires IsShuffle(order, players)
    ensures |order| == |players|
  {
    DistinctElems(order);
  }

  /** The player at position `i` of the shuffle is an imposter exactly when `i < imposters`. */
  lemma FirstImposters(players: map<string, Player>, order: seq<string>, imposters: int)
    requires IsShuffle(order, players)
    ensures forall i | 0 <= i < |order| ::
      order[i] in AssignRoles(players, order, imposters) &&
      (AssignRoles(players, order, imposters)[order[i]].isImposter <==> i < imposters)
  {
  }

  /**
   * Whatever the permutation, exactly max(0, min(imposters, N)) of the N players end up
   * imposters; in particular exactly `imposters` of them when 0 <= imposters <= N.
   */
  lemma ImposterCount(players: map<string, Player>, order: seq<string>, imposters: int)
    requires IsShuffle(order, players)
    ensures |ImposterIds(AssignRoles(players, order, imposters))| == Clamp(imposters, |players|)
  {
    ShuffleLength(order, players);
    var m := Clamp(imposters, |order|);
    var prefix := order[..m];
    assert ImposterIds(AssignRoles(players, order, imposters)) == Elems(prefix) by {
      forall x | x in Elems(prefix) ensures x in players {
        var j :| 0 <= j < m && prefix[j] == x;
        assert order[j] in Elems(order);
      }
    }
    assert Distinct(prefix);
    DistinctElems(prefix);
  }
}

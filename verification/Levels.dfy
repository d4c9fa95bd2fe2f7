/** Counters that are raised and lowered but stop at zero, and high-watermarks. */
module Levels {

  datatype Move = Up(amount: int) | Down(amount: int) | Raise(value: int)

  function Applied(level: int, m: Move): int {
    match m
    case Up(amount) => level + amount
    case Down(amount) => if level > amount then level - amount else 0
    case Raise(value) => if value > level then value else level
  }

  /** What a move adds when nothing stops it. */
  function Signed(m: Move): int {
    match m
    case Up(amount) => amount
    case Down(amount) => -amount
    case Raise(_) => 0
  }

  /** The level after all moves, from zero. */
  function Level(moves: seq<Move>): int {
    if moves == [] then 0 else Applied(Level(moves[..|moves| - 1]), moves[|moves| - 1])
  }

  /** What was added less what was taken from the `k`-th move on. */
  function Drift(moves: seq<Move>, k: nat): int
    requires k <= |moves|
    decreases |moves| - k
  {
    if k == |moves| then 0 else Drift(moves, k + 1) + Signed(moves[k])
  }

  /** Where the level may have been after `k` moves whatever came before: at a value
      it was raised to, or at zero, the start or the stop of what was taken. */
  predicate Anchored(moves: seq<Move>, k: nat, base: int)
    requires k <= |moves|
  {
    if k > 0 && moves[k - 1].Raise? then base == moves[k - 1].value
    else base == 0 && (k == 0 || moves[k - 1].Down?)
  }

  lemma {:induction false} DriftExtends(moves: seq<Move>, m: Move, k: nat)
    requires k <= |moves|
    ensures Drift(moves + [m], k) == Drift(moves, k) + Signed(m)
    decreases |moves| - k
  {
    if k < |moves| {
      DriftExtends(moves, m, k + 1);
      assert (moves + [m])[k] == moves[k];
    } else {
      assert Drift(moves + [m], k + 1) == 0;
    }
  }

  lemma LevelExtends(moves: seq<Move>, m: Move)
    ensures Level(moves + [m]) == Applied(Level(moves), m)
  {
    assert (moves + [m])[..|moves|] == moves;
  }

  lemma LevelOf(moves: seq<Move>, more: seq<Move>)
    requires |more| <= 2
    ensures more == [] ==> Level(moves + more) == Level(moves)
    ensures |more| == 1 ==> Level(moves + more) == Applied(Level(moves), more[0])
    ensures |more| == 2 ==> Level(moves + more) == Applied(Applied(Level(moves), more[0]), more[1])
  {
    if more == [] {
      assert moves + more == moves;
    } else if |more| == 1 {
      assert more == [more[0]];
      LevelExtends(moves, more[0]);
    } else {
      assert moves + more == (moves + [more[0]]) + [more[1]];
      LevelExtends(moves, more[0]);
      LevelExtends(moves + [more[0]], more[1]);
    }
  }

  /** The level is the highest that any anchor leads to: no anchor with the drift
      since exceeds it, and one reaches it. */
  lemma {:induction false} LevelIsHighest(moves: seq<Move>) returns (at: nat, base: int)
    ensures forall k, b :: 0 <= k <= |moves| && Anchored(moves, k, b) ==> b + Drift(moves, k) <= Level(moves)
    ensures at <= |moves| && Anchored(moves, at, base) && base + Drift(moves, at) == Level(moves)
  {
    if moves == [] {
      at, base := 0, 0;
    } else {
      var before, m := moves[..|moves| - 1], moves[|moves| - 1];
      assert moves == before + [m];
      LevelExtends(before, m);
      at, base := LevelIsHighest(before);
      forall k, b | 0 <= k <= |moves| && Anchored(moves, k, b)
        ensures b + Drift(moves, k) <= Level(moves)
      {
        if k < |moves| {
          DriftExtends(before, m, k);
          assert Anchored(before, k, b);
        }
      }
      DriftExtends(before, m, at);
      if m.Raise? && m.value > Level(before) {
        at, base := |moves|, m.value;
      } else if m.Down? && Level(before) <= m.amount {
        at, base := |moves|, 0;
      } else {
        assert Anchored(moves, at, base);
      }
    }
  }
}

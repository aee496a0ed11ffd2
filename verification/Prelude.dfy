/** Shared vocabulary: optional values, 64-bit bounds and small arithmetic. */
module Prelude {

  datatype Option<+T> = None | Some(value: T)

  /** Largest value of an unsigned 64-bit word. */
  const U64_MAX: nat := 0xFFFF_FFFF_FFFF_FFFF

  function Max(a: int, b: int): int { if a >= b then a else b }

  function Min(a: int, b: int): int { if a <= b then a else b }

  /** Subtraction of unsigned words that stops at zero. */
  function SatSub(a: nat, b: nat): nat { if a >= b then a - b else 0 }

  function AbsReal(x: real): real { if x >= 0.0 then x else -x }

  /** Rounding to the nearest integer, halves away from zero. */
  function Round(x: real): int
  {
    if x >= 0.0 then (x + 0.5).Floor else -((-x + 0.5).Floor)
  }

  lemma RoundIsNear(x: real)
    ensures AbsReal(Round(x) as real - x) <= 0.5
  {
  }

  lemma MultipleOfTurn(turn: nat, k: int)
    ensures k >= 1 ==> turn * k >= turn
    ensures k <= -1 ==> turn * k + turn <= 0
    ensures k == 0 ==> turn * k == 0
  {
    if k >= 1 {
      assert turn * (k - 1) >= 0;
    } else if k <= -1 {
      assert turn * (-k - 1) >= 0;
    }
  }

  lemma DifferenceOfTurns(turn: nat, a: int, b: int)
    ensures turn * b - turn * a == turn * (b - a)
  {
  }

  /** Two positions less than one turn of the ring apart use different slots. */
  lemma RingPositionsDiffer(p: nat, q: nat, turn: nat)
    requires p < q < p + turn
    ensures p % turn != q % turn
  {
    var a, b := p / turn, q / turn;
    DifferenceOfTurns(turn, a, b);
    MultipleOfTurn(turn, b - a);
  }

  lemma RingPositionsRepeat(p: nat, turn: nat)
    requires turn > 0
    ensures (p + turn) % turn == p % turn
  {
    var a, b := p / turn, (p + turn) / turn;
    DifferenceOfTurns(turn, a + 1, b);
    assert turn * (a + 1) == turn * a + turn;
    MultipleOfTurn(turn, b - (a + 1));
  }
}

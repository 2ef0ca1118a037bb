/** RPG Maker's four compass directions plus NONE, as the look-ahead camera uses them. */
module Directions {

  /** The numeric-keypad direction values: NONE = 0, DOWN = 2, LEFT = 4, RIGHT = 6, UP = 8. */
  datatype Direction = None | Down | Left | Right | Up

  /** The engine's numeric value of a direction. */
  function Code(d: Direction): (n: int)
    ensures 0 <= n <= 8 && n % 2 == 0
    ensures n == 0 <==> d == None
  {
    match d
    case None => 0
    case Down => 2
    case Left => 4
    case Right => 6
    case Up => 8
  }

  /** Horizontal screen displacement of one tile in direction `d` (x grows to the right). */
  function DeltaX(d: Direction): int
  {
    match d
    case Left => -1
    case Right => 1
    case _ => 0
  }

  /** Vertical screen displacement of one tile in direction `d` (y grows downwards). */
  function DeltaY(d: Direction): int
  {
    match d
    case Up => -1
    case Down => 1
    case _ => 0
  }

  predicate IsVertical(d: Direction)
  {
    d == Down || d == Up
  }

  predicate IsHorizontal(d: Direction)
  {
    d == Left || d == Right
  }

  /** reverseDirection: the opposite compass direction; NONE stays NONE. */
  function Reverse(d: Direction): (r: Direction)
    ensures r == None <==> d == None
    ensures d != None ==> r != d
    ensures d != None ==> Code(r) == 10 - Code(d)
    ensures DeltaX(r) == -DeltaX(d) && DeltaY(r) == -DeltaY(d)
    ensures IsVertical(r) == IsVertical(d) && IsHorizontal(r) == IsHorizontal(d)
  {
    match d
    case Down => Up
    case Up => Down
    case Left => Right
    case Right => Left
    case None => None
  }

  /** Reversing twice gives back the original direction. */
  lemma ReverseInvolution(d: Direction)
    ensures Reverse(Reverse(d)) == d
  {
  }

  /** Reversal is a bijection: distinct directions have distinct reverses. */
  lemma ReverseInjective(a: Direction, b: Direction)
    ensures Reverse(a) == Reverse(b) ==> a == b
  {
    ReverseInvolution(a);
    ReverseInvolution(b);
  }
}

/** The slot machine: three reels of five symbols and the pay table. */
module Slots {
  import opened Types
  import opened Engine

  datatype Symbol = Cherry | Lemon | Grape | Diamond | Seven

  /** The pay multiplier of three-of-a-kind of a symbol. */
  function TripleMultiplier(x: Symbol): (m: int)
    ensures m >= 5
  {
    match x
    case Seven => 100
    case Diamond => 50
    case Grape => 20
    case Lemon => 10
    case Cherry => 5
  }

  /** How many of the three reels show a cherry. */
  function Cherries(a: Symbol, b: Symbol, c: Symbol): (n: nat)
    ensures n <= 3
  {
    (if a == Cherry then 1 else 0) + (if b == Cherry then 1 else 0) + (if c == Cherry then 1 else 0)
  }

  /** The multiplier of the final reels: three of a kind first, then any two
      cherries, else nothing. */
  function Multiplier(a: Symbol, b: Symbol, c: Symbol): (m: int)
    ensures m in {0, 2, 5, 10, 20, 50, 100}
  {
    if a == b && b == c then TripleMultiplier(a)
    else if (a == Cherry && b == Cherry) || (a == Cherry && c == Cherry) || (b == Cherry && c == Cherry) then 2
    else 0
  }

  /** The jackpot of 100 is paid exactly for three sevens. */
  lemma JackpotIffThreeSevens(a: Symbol, b: Symbol, c: Symbol)
    ensures Multiplier(a, b, c) == 100 <==> a == Seven && b == Seven && c == Seven
  {
  }

  /** Three of a kind is paid by its own line, so three cherries pay 5 and not the
      two-cherry 2; two cherries with a third symbol pay 2; everything else pays
      nothing. */
  lemma PayTable(a: Symbol, b: Symbol, c: Symbol)
    ensures a == b == c ==> Multiplier(a, b, c) == TripleMultiplier(a)
    ensures !(a == b == c) ==> (Multiplier(a, b, c) == 2 <==> Cherries(a, b, c) >= 2)
    ensures Multiplier(a, b, c) == 0 <==> !(a == b == c) && Cherries(a, b, c) < 2
  {
  }

  /** One spin: the bet is taken (or refused with a log entry and no spin), then a
      positive multiplier pays bet times multiplier back. */
  function Spin(s: PlayerState, bet: real, a: Symbol, b: Symbol, c: Symbol): PlayerState
  {
    var (afterBet, accepted) := GambleBet(s, bet);
    if !accepted then afterBet
    else
      var m := Multiplier(a, b, c);
      if m > 0 then GambleWin(afterBet, bet * m as real, "slots") else afterBet
  }

  /** An accepted spin changes cash by bet times (multiplier - 1); a refused one
      leaves cash alone. */
  lemma SpinCash(s: PlayerState, bet: real, a: Symbol, b: Symbol, c: Symbol)
    ensures s.cash >= bet ==> Spin(s, bet, a, b, c).cash == s.cash + bet * (Multiplier(a, b, c) - 1) as real
    ensures s.cash < bet ==> Spin(s, bet, a, b, c).cash == s.cash
  {
    var m := Multiplier(a, b, c);
    if s.cash >= bet {
      assert bet * m as real - bet == bet * (m - 1) as real;
    }
  }
}

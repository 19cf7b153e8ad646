/** The blackjack table: hand values with greedily counted aces, the dealer's
    drawing rule and the settlement of a round. */
module Blackjack {
  import opened Types
  import opened Engine

  /** A drawn card: 1 is an ace, 10 to 13 are the ten and the face cards. */
  type Card = c: int | 1 <= c <= 13 witness 1

  /** The points of a card other than an ace: its rank, with faces worth 10. */
  function Points(c: Card): (p: int)
    ensures 2 <= p <= 10 || c == 1
  {
    if c >= 10 then 10 else c
  }

  /** The sum of the cards that are not aces. */
  function HardSum(hand: seq<Card>): nat
  {
    if hand == [] then 0
    else
      var last := hand[|hand| - 1];
      HardSum(hand[..|hand| - 1]) + (if last == 1 then 0 else Points(last))
  }

  /** The number of aces in the hand. */
  function AceCount(hand: seq<Card>): nat
  {
    if hand == [] then 0
    else AceCount(hand[..|hand| - 1]) + (if hand[|hand| - 1] == 1 then 1 else 0)
  }

  /** Adds the aces one at a time to a running total: 11 while the total stays at
      most 21, 1 otherwise. */
  function AddAces(total: int, aces: nat): int
    decreases aces
  {
    if aces == 0 then total
    else AddAces(if total + 11 <= 21 then total + 11 else total + 1, aces - 1)
  }

  /** The value of a hand: the other cards first, then the aces, greedily. */
  function Score(hand: seq<Card>): int
  {
    AddAces(HardSum(hand), AceCount(hand))
  }

  /** The value with every ace counted as 1. */
  function MinTotal(hand: seq<Card>): nat
  {
    HardSum(hand) + AceCount(hand)
  }

  /** The usual blackjack value: every ace 1, then one ace raised to 11 when that
      stays at most 21. */
  function SoftTotal(hand: seq<Card>): nat
  {
    var low := MinTotal(hand);
    if AceCount(hand) > 0 && low + 10 <= 21 then low + 10 else low
  }

  /** Counts the non-ace points and the aces in one pass, then adds the aces. */
  method CalculateScore(hand: seq<Card>) returns (score: int)
    ensures score == Score(hand)
  {
    score := 0;
    var aces := 0;
    var k := 0;
    while k < |hand|
      invariant 0 <= k <= |hand|
      invariant score == HardSum(hand[..k]) && aces == AceCount(hand[..k])
    {
      assert hand[..k + 1][..k] == hand[..k];
      var card := hand[k];
      if card == 1 {
        aces := aces + 1;
      } else if card >= 10 {
        score := score + 10;
      } else {
        score := score + card;
      }
      k := k + 1;
    }
    assert hand[..k] == hand;
    ghost var base := score;
    var i := 0;
    while i < aces
      invariant 0 <= i <= aces
      invariant AddAces(score, aces - i) == AddAces(base, aces)
    {
      if score + 11 <= 21 {
        score := score + 11;
      } else {
        score := score + 1;
      }
      i := i + 1;
    }
  }

  /** Each ace adds between 1 and 11. */
  lemma {:induction false} AddAcesBounds(total: int, aces: nat)
    ensures total + aces <= AddAces(total, aces) <= total + 11 * aces
    decreases aces
  {
    if aces > 0 {
      AddAcesBounds(if total + 11 <= 21 then total + 11 else total + 1, aces - 1);
    }
  }

  /** A hand is worth at least its value with every ace counted as 1. */
  lemma ScoreAtLeastMinTotal(hand: seq<Card>)
    ensures MinTotal(hand) <= Score(hand) <= MinTotal(hand) + 10 * AceCount(hand)
  {
    AddAcesBounds(HardSum(hand), AceCount(hand));
  }

  /** A drawn card raises the all-aces-as-1 value by at least 1. */
  lemma MinTotalAppend(hand: seq<Card>, c: Card)
    ensures MinTotal(hand + [c]) == MinTotal(hand) + (if c == 1 then 1 else Points(c))
    ensures MinTotal(hand + [c]) >= MinTotal(hand) + 1
  {
    var ext := hand + [c];
    assert ext[..|ext| - 1] == hand;
  }

  /** Without aces the hand is worth the sum of its card points. */
  lemma NoAcesScore(hand: seq<Card>)
    requires AceCount(hand) == 0
    ensures Score(hand) == HardSum(hand) == SoftTotal(hand)
  {
  }

  /** With at most one ace the greedy count is the usual blackjack value. */
  lemma OneAceIsSoftTotal(hand: seq<Card>)
    requires AceCount(hand) <= 1
    ensures Score(hand) == SoftTotal(hand)
  {
  }

  /** With two aces the greedy count can bust a hand the usual count keeps at 12:
      ten, ace, ace scores 22. */
  lemma TenAceAceScores22()
    ensures Score([10, 1, 1]) == 22 && SoftTotal([10, 1, 1]) == 12
  {
    var h1: seq<Card> := [10];
    var h2: seq<Card> := [10, 1];
    var h3: seq<Card> := [10, 1, 1];
    assert h1[..0] == [] && h2[..1] == h1 && h3[..2] == h2;
    assert HardSum(h1) == 10 && AceCount(h1) == 0;
    assert HardSum(h2) == 10 && AceCount(h2) == 1;
    assert HardSum(h3) == 10 && AceCount(h3) == 2;
  }

  /** The dealer's final hand: starting from its cards, it takes the shoe's cards
      draw(next), draw(next + 1), ... in order while its value is below 17. */
  function Dealer(hand: seq<Card>, draw: nat -> Card, next: nat): (r: seq<Card>)
    ensures Score(r) >= 17
    ensures |hand| <= |r| && r[..|hand|] == hand
    ensures forall k :: |hand| <= k < |r| ==> r[k] == draw(next + k - |hand|)
    ensures forall m :: |hand| <= m < |r| ==> Score(r[..m]) < 17
    decreases 17 - MinTotal(hand)
  {
    if Score(hand) >= 17 then hand
    else
      var c := draw(next);
      ScoreAtLeastMinTotal(hand);
      MinTotalAppend(hand, c);
      var r := Dealer(hand + [c], draw, next + 1);
      assert r[..|hand|] == (r[..|hand| + 1])[..|hand|];
      assert forall m :: |hand| + 1 <= m < |r| ==> Score(r[..m]) < 17;
      assert r[..|hand|] == hand;
      r
  }

  /** The dealer draws while the hand is worth less than 17. */
  method DealerPlay(hand: seq<Card>, draw: nat -> Card) returns (final: seq<Card>)
    ensures final == Dealer(hand, draw, 0)
  {
    final := hand;
    var next := 0;
    var score := CalculateScore(final);
    while score < 17
      invariant score == Score(final)
      invariant Dealer(final, draw, next) == Dealer(hand, draw, 0)
      decreases 17 - MinTotal(final)
    {
      ScoreAtLeastMinTotal(final);
      MinTotalAppend(final, draw(next));
      final := final + [draw(next)];
      next := next + 1;
      score := CalculateScore(final);
    }
  }

  datatype Outcome = PlayerWins | Push | DealerWins

  /** The settlement of the final values: a dealer bust or a higher player value
      wins, equal values push, anything else loses. */
  function Settle(player: int, dealer: int): Outcome
  {
    if dealer > 21 || player > dealer then PlayerWins
    else if dealer == player then Push
    else DealerWins
  }

  /** Each outcome has exactly one condition on the two values. */
  lemma SettleCases(player: int, dealer: int)
    ensures Settle(player, dealer) == PlayerWins <==> dealer > 21 || player > dealer
    ensures Settle(player, dealer) == Push <==> dealer <= 21 && player == dealer
    ensures Settle(player, dealer) == DealerWins <==> dealer <= 21 && player < dealer
  {
  }

  /** What the table pays back: twice the bet on a win, the bet on a push. */
  function Payout(o: Outcome, bet: real): real
  {
    match o
    case PlayerWins => bet * 2.0
    case Push => bet
    case DealerWins => 0.0
  }

  /** Standing: the dealer plays out its hand and the round is settled against
      the player's value. */
  method Stand(player: seq<Card>, dealer: seq<Card>, draw: nat -> Card, bet: real)
    returns (final: seq<Card>, outcome: Outcome, payout: real)
    ensures final == Dealer(dealer, draw, 0) && Score(final) >= 17
    ensures outcome == Settle(Score(player), Score(final))
    ensures payout == Payout(outcome, bet)
  {
    final := DealerPlay(dealer, draw);
    var pScore := CalculateScore(player);
    var dScore := CalculateScore(final);
    if dScore > 21 || pScore > dScore {
      outcome := PlayerWins;
      payout := bet * 2.0;
    } else if dScore == pScore {
      outcome := Push;
      payout := bet;
    } else {
      outcome := DealerWins;
      payout := 0.0;
    }
  }

  /** A round in which the player ends with the hand `player`: the bet is taken
      (or refused, with a log entry), a hand over 21 has lost on its last hit,
      otherwise the player stands and any payout is credited as a casino win. */
  function Round(s: PlayerState, bet: real, player: seq<Card>, dealer: seq<Card>, draw: nat -> Card): PlayerState
  {
    var (afterBet, accepted) := GambleBet(s, bet);
    if !accepted || Score(player) > 21 then afterBet
    else
      var o := Settle(Score(player), Score(Dealer(dealer, draw, 0)));
      if o == DealerWins then afterBet else GambleWin(afterBet, Payout(o, bet), "blackjack")
  }

  /** An accepted round gains the bet on a win, nothing on a push and loses the bet
      on a bust or a loss; a refused one leaves cash alone. */
  lemma RoundCash(s: PlayerState, bet: real, player: seq<Card>, dealer: seq<Card>, draw: nat -> Card)
    ensures var r := Round(s, bet, player, dealer, draw);
      var o := Settle(Score(player), Score(Dealer(dealer, draw, 0)));
      (s.cash < bet ==> r.cash == s.cash) &&
      (s.cash >= bet && Score(player) > 21 ==> r.cash == s.cash - bet) &&
      (s.cash >= bet && Score(player) <= 21 ==>
         r.cash == s.cash + (match o case PlayerWins => bet case Push => 0.0 case DealerWins => -bet))
  {
  }
}

/** The horse race: four horses move by their base speed plus a random share of
    their variance each tick, and the first horse (by index) at 100 wins. */
module HorseRace {
  import opened Types
  import opened Numbers
  import opened Engine

  datatype Horse = Horse(odds: real, baseSpeed: real, variance: real)

  /** The field, from the safest to the wildest horse. */
  const HORSES: seq<Horse> :=
    [Horse(2.0, 1.8, 0.8), Horse(4.0, 1.5, 1.5), Horse(8.0, 1.2, 2.5), Horse(12.0, 0.9, 4.0)]

  /** The finish line. */
  const FINISH: real := 100.0

  /** One tick's random draws: a fraction in [0, 1) per horse. */
  predicate DrawsValid(us: seq<real>)
  {
    |us| == |HORSES| && forall i :: 0 <= i < |us| ==> 0.0 <= us[i] < 1.0
  }

  /** A horse's move in one tick: its base speed plus the drawn share of its variance. */
  function Move(h: Horse, u: real): real
  {
    h.baseSpeed + u * h.variance
  }

  /** A move is at least the base speed and less than base speed plus variance. */
  lemma MoveBounds(h: Horse, u: real)
    requires h.variance > 0.0 && 0.0 <= u < 1.0
    ensures h.baseSpeed <= Move(h, u) < h.baseSpeed + h.variance
  {
    var burst := u * h.variance;
    FractionOf(u, h.variance);
    assert Move(h, u) == h.baseSpeed + burst;
  }

  /** Every horse of the field moves forward by at least its base speed. */
  function Advance(progress: seq<real>, us: seq<real>): (next: seq<real>)
    requires |progress| == |HORSES| && DrawsValid(us)
    ensures |next| == |HORSES|
    ensures forall i :: 0 <= i < |HORSES| ==>
      progress[i] + HORSES[i].baseSpeed <= next[i] < progress[i] + HORSES[i].baseSpeed + HORSES[i].variance
  {
    var next := seq(|HORSES|, i requires 0 <= i < |HORSES| => progress[i] + Move(HORSES[i], us[i]));
    assert forall i :: 0 <= i < |HORSES| ==> HORSES[i].variance > 0.0;
    forall i | 0 <= i < |HORSES|
      ensures progress[i] + HORSES[i].baseSpeed <= next[i] < progress[i] + HORSES[i].baseSpeed + HORSES[i].variance
    {
      MoveBounds(HORSES[i], us[i]);
    }
    next
  }

  /** The lowest index whose progress has reached the finish line, if any. */
  function FirstFinisher(xs: seq<real>): (r: Option<nat>)
    ensures r.Some? ==> r.value < |xs| && xs[r.value] >= FINISH &&
                        forall j :: 0 <= j < r.value ==> xs[j] < FINISH
    ensures r.None? ==> forall j :: 0 <= j < |xs| ==> xs[j] < FINISH
  {
    if xs == [] then None
    else if xs[0] >= FINISH then Some(0)
    else match FirstFinisher(xs[1..])
      case None => None
      case Some(k) => Some(k + 1)
  }

  /** The state after a tick: the positions, the winner if there is one, and the
      amount credited when the winner is the selected horse. */
  datatype StepResult = StepResult(progress: seq<real>, winner: Option<nat>, payout: Option<int>)

  /** One tick: every horse advances; the first finisher, if any, wins, is placed
      at exactly 100, and pays floor(bet * odds) when it is the selected horse. */
  function Step(progress: seq<real>, us: seq<real>, selected: nat, bet: real): StepResult
    requires |progress| == |HORSES| && DrawsValid(us) && selected < |HORSES|
  {
    var next := Advance(progress, us);
    match FirstFinisher(next)
    case None => StepResult(next, None, None)
    case Some(w) =>
      StepResult(next[w := FINISH], Some(w), if w == selected then Some((bet * HORSES[selected].odds).Floor) else None)
  }

  /** Moves every horse of the field, one array cell at a time. */
  method MoveField(progress: seq<real>, us: seq<real>) returns (next: array<real>)
    requires |progress| == |HORSES| && DrawsValid(us)
    ensures fresh(next) && next[..] == Advance(progress, us)
  {
    next := new real[|progress|];
    var i := 0;
    while i < next.Length
      invariant 0 <= i <= next.Length
      invariant forall k :: 0 <= k < i ==> next[k] == progress[k] + Move(HORSES[k], us[k])
    {
      var burst := us[i] * HORSES[i].variance;
      assert HORSES[i].baseSpeed + burst == Move(HORSES[i], us[i]);
      next[i] := progress[i] + (HORSES[i].baseSpeed + burst);
      i := i + 1;
    }
  }

  /** The index of the first horse at or past the finish line, or the field's size
      when there is none. */
  method FindWinner(next: array<real>) returns (winIdx: nat)
    ensures winIdx <= next.Length
    ensures winIdx == next.Length ==> FirstFinisher(next[..]).None?
    ensures winIdx < next.Length ==> FirstFinisher(next[..]) == Some(winIdx)
  {
    winIdx := 0;
    while winIdx < next.Length && next[winIdx] < FINISH
      invariant 0 <= winIdx <= next.Length
      invariant forall k :: 0 <= k < winIdx ==> next[k] < FINISH
    {
      winIdx := winIdx + 1;
    }
  }

  /** A tick computed in place: the moves, the search for a finisher, the payout. */
  method RaceStep(progress: seq<real>, us: seq<real>, selected: nat, bet: real) returns (r: StepResult)
    requires |progress| == |HORSES| && DrawsValid(us) && selected < |HORSES|
    ensures r == Step(progress, us, selected, bet)
  {
    var next := MoveField(progress, us);
    var winIdx := FindWinner(next);
    ghost var moved := next[..];
    if winIdx == next.Length {
      r := StepResult(next[..], None, None);
    } else {
      var payout := None;
      if winIdx == selected {
        payout := Some((bet * HORSES[selected].odds).Floor);
      }
      next[winIdx] := FINISH;
      assert next[..] == moved[winIdx := FINISH];
      r := StepResult(next[..], Some(winIdx), payout);
    }
  }

  /** Every horse but the winner moves forward by at least its base speed and less
      than base speed plus variance; the winner had reached 100 and is put at 100;
      a payout happens exactly when the selected horse wins. */
  lemma StepMoves(progress: seq<real>, us: seq<real>, selected: nat, bet: real)
    requires |progress| == |HORSES| && DrawsValid(us) && selected < |HORSES|
    ensures var r := Step(progress, us, selected, bet);
      var next := Advance(progress, us);
      |r.progress| == |HORSES| &&
      (forall i :: 0 <= i < |HORSES| && r.winner != Some(i) ==>
         progress[i] + HORSES[i].baseSpeed <= r.progress[i] < progress[i] + HORSES[i].baseSpeed + HORSES[i].variance) &&
      (r.winner.Some? ==> next[r.winner.value] >= FINISH && r.progress[r.winner.value] == FINISH) &&
      (r.payout.Some? <==> r.winner == Some(selected)) &&
      (r.payout.Some? ==> r.payout.value == (bet * HORSES[selected].odds).Floor)
  {
  }

  /** The race tick by tick over the drawn rows, until a horse wins or the rows run out. */
  function Race(progress: seq<real>, rounds: seq<seq<real>>, selected: nat, bet: real): (r: StepResult)
    requires |progress| == |HORSES| && selected < |HORSES|
    requires forall k :: 0 <= k < |rounds| ==> DrawsValid(rounds[k])
    ensures |r.progress| == |HORSES|
    ensures r.payout.Some? <==> r.winner == Some(selected)
    ensures r.payout.Some? ==> r.payout.value == (bet * HORSES[selected].odds).Floor
    decreases |rounds|
  {
    if rounds == [] then StepResult(progress, None, None)
    else
      var st := Step(progress, rounds[0], selected, bet);
      StepMoves(progress, rounds[0], selected, bet);
      if st.winner.Some? then st else Race(st.progress, rounds[1..], selected, bet)
  }

  /** The favourite moves at least 1.8 a tick, so a winner is found by the tick at
      which it must have reached 100. */
  lemma {:induction false} RaceFinishes(progress: seq<real>, rounds: seq<seq<real>>, selected: nat, bet: real)
    requires |progress| == |HORSES| && selected < |HORSES|
    requires forall k :: 0 <= k < |rounds| ==> DrawsValid(rounds[k])
    requires |rounds| >= 1 && progress[0] + 1.8 * |rounds| as real >= FINISH
    ensures Race(progress, rounds, selected, bet).winner.Some?
    decreases |rounds|
  {
    var st := Step(progress, rounds[0], selected, bet);
    StepMoves(progress, rounds[0], selected, bet);
    var next := Advance(progress, rounds[0]);
    assert next[0] >= progress[0] + 1.8;
    if |rounds| == 1 {
      assert next[0] >= FINISH;
    } else if st.winner.None? {
      RaceFinishes(st.progress, rounds[1..], selected, bet);
    }
  }

  /** From the start line, 56 ticks always produce a winner. */
  lemma RaceEndsWithin56Ticks(rounds: seq<seq<real>>, selected: nat, bet: real)
    requires selected < |HORSES| && |rounds| >= 56
    requires forall k :: 0 <= k < |rounds| ==> DrawsValid(rounds[k])
    ensures Race([0.0, 0.0, 0.0, 0.0], rounds, selected, bet).winner.Some?
  {
    RaceFinishes([0.0, 0.0, 0.0, 0.0], rounds, selected, bet);
  }

  /** A race for the player: nothing without a selected horse; otherwise the bet is
      taken (or refused, with a log entry), the race is run from the start line and
      a payout is credited as a casino win. */
  function RaceRound(s: PlayerState, selected: Option<nat>, bet: real, rounds: seq<seq<real>>): PlayerState
    requires selected.Some? ==> selected.value < |HORSES|
    requires forall k :: 0 <= k < |rounds| ==> DrawsValid(rounds[k])
  {
    match selected
    case None => s
    case Some(h) =>
      var (afterBet, accepted) := GambleBet(s, bet);
      if !accepted then afterBet
      else
        var r := Race([0.0, 0.0, 0.0, 0.0], rounds, h, bet);
        if r.payout.Some? then GambleWin(afterBet, r.payout.value as real, "horses") else afterBet
  }

  /** An accepted race costs the bet and returns floor(bet * odds) only when the
      selected horse wins. */
  lemma RaceRoundCash(s: PlayerState, h: nat, bet: real, rounds: seq<seq<real>>)
    requires h < |HORSES| && s.cash >= bet
    requires forall k :: 0 <= k < |rounds| ==> DrawsValid(rounds[k])
    ensures var r := Race([0.0, 0.0, 0.0, 0.0], rounds, h, bet);
      var after := RaceRound(s, Some(h), bet, rounds);
      (r.winner == Some(h) ==> after.cash == s.cash - bet + (bet * HORSES[h].odds).Floor as real) &&
      (r.winner != Some(h) ==> after.cash == s.cash - bet)
  {
  }
}

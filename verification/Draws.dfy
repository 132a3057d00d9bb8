/** What the draws of a simulation decide: the order of the trades, which of them are missed, their sizes. */
module Draws {
  import opened Arithmetic
  import opened Market
  import opened Rounding
  import opened PaperModels
  import opened MonteCarlo
  import opened Sorting
  import opened Sums

  // ---------------------------------------------------------------- the shuffle reaches every order

  lemma SwapPermutes(trades: seq<Trade>, i: nat, j: nat)
    requires i < |trades| && j < |trades|
    ensures multiset(Swapped(trades, i, j)) == multiset(trades)
  {
  }

  lemma {:induction false} ShuffledPermutes(trades: seq<Trade>, i: nat, draw: nat -> nat)
    requires i <= |trades|
    ensures multiset(Shuffled(trades, i, draw)) == multiset(trades)
    decreases i
  {
    if i > 1 {
      SwapPermutes(trades, i - 1, draw(i - 1) % i);
      ShuffledPermutes(Swapped(trades, i - 1, draw(i - 1) % i), i - 1, draw);
    }
  }

  /** Only the draws below i matter. */
  lemma {:induction false} ShuffledSame(trades: seq<Trade>, i: nat, draw: nat -> nat, other: nat -> nat)
    requires i <= |trades| && forall k: nat :: k < i ==> draw(k) == other(k)
    ensures Shuffled(trades, i, draw) == Shuffled(trades, i, other)
    decreases i
  {
    if i > 1 { ShuffledSame(Swapped(trades, i - 1, draw(i - 1) % i), i - 1, draw, other); }
  }

  /** The trades below i are to be brought into the order of the goal, the others are in place already. */
  predicate Remaining(trades: seq<Trade>, goal: seq<Trade>, i: nat) {
    && i <= |trades| == |goal|
    && multiset(trades[..i]) == multiset(goal[..i])
    && trades[i..] == goal[i..]
  }

  lemma PrefixMultiset(trades: seq<Trade>, i: nat)
    requires 0 < i <= |trades|
    ensures multiset(trades[..i]) == multiset(trades[..i - 1]) + multiset{trades[i - 1]}
  {
    assert trades[..i] == trades[..i - 1] + [trades[i - 1]];
  }

  lemma SwapPrefix(trades: seq<Trade>, i: nat, j: nat)
    requires j < i <= |trades|
    ensures multiset(Swapped(trades, i - 1, j)[..i]) == multiset(trades[..i])
    ensures Swapped(trades, i - 1, j)[i..] == trades[i..] && Swapped(trades, i - 1, j)[i - 1] == trades[j]
  {
    SwapPermutes(trades[..i], i - 1, j);
    assert Swapped(trades, i - 1, j)[..i] == Swapped(trades[..i], i - 1, j);
  }

  /** Swapping the trade that belongs at the last remaining position into it leaves one position less. */
  lemma OneSwap(trades: seq<Trade>, goal: seq<Trade>, i: nat, j: nat)
    requires Remaining(trades, goal, i) && j < i && trades[j] == goal[i - 1]
    ensures Remaining(Swapped(trades, i - 1, j), goal, i - 1)
  {
    SwapPrefix(trades, i, j);
    hide Swapped;
    var swapped := Swapped(trades, i - 1, j);
    PrefixMultiset(swapped, i);
    PrefixMultiset(goal, i);
    OneLess(multiset(swapped[..i - 1]), multiset(goal[..i - 1]), goal[i - 1]);
    SuffixGrows(swapped, goal, i);
  }

  lemma OneLess(a: multiset<Trade>, b: multiset<Trade>, t: Trade)
    requires a + multiset{t} == b + multiset{t}
    ensures a == b
  {
    assert a == (a + multiset{t}) - multiset{t};
    assert b == (b + multiset{t}) - multiset{t};
  }

  lemma SuffixGrows(a: seq<Trade>, b: seq<Trade>, i: nat)
    requires 0 < i <= |a| == |b| && a[i..] == b[i..] && a[i - 1] == b[i - 1]
    ensures a[i - 1..] == b[i - 1..]
  {
    assert a[i - 1..] == [a[i - 1]] + a[i..] && b[i - 1..] == [b[i - 1]] + b[i..];
  }

  lemma WhereItIs(trades: seq<Trade>, goal: seq<Trade>, i: nat) returns (j: nat)
    requires Remaining(trades, goal, i) && i > 0
    ensures j < i && trades[j] == goal[i - 1]
  {
    PrefixMultiset(goal, i);
    assert goal[i - 1] in multiset(trades[..i]);
    j :| 0 <= j < i && trades[..i][j] == goal[i - 1];
  }

  /** The given draw first, the rest as before. */
  function First(i: nat, j: nat, rest: nat -> nat): nat -> nat { k => if k == i then j else rest(k) }

  lemma ShuffledFirst(trades: seq<Trade>, i: nat, j: nat, rest: nat -> nat)
    requires j < i <= |trades| && i > 1
    ensures Shuffled(trades, i, First(i - 1, j, rest)) == Shuffled(Swapped(trades, i - 1, j), i - 1, rest)
  {
    hide Shuffled, Swapped;
    var draw := First(i - 1, j, rest);
    assert draw(i - 1) == j;
    ShuffledOnce(trades, i, draw);
    SmallRemainder(j, i);
    ShuffledSame(Swapped(trades, i - 1, j), i - 1, draw, rest);
  }

  lemma SmallRemainder(j: nat, i: nat)
    requires j < i
    ensures j % i == j
  {
  }

  lemma ShuffledOnce(trades: seq<Trade>, i: nat, draw: nat -> nat)
    requires 1 < i <= |trades|
    ensures Shuffled(trades, i, draw) == Shuffled(Swapped(trades, i - 1, draw(i - 1) % i), i - 1, draw)
  {
  }

  lemma {:induction false} ReachesFrom(trades: seq<Trade>, goal: seq<Trade>, i: nat) returns (draw: nat -> nat)
    requires Remaining(trades, goal, i)
    ensures Shuffled(trades, i, draw) == goal
    decreases i
  {
    hide Remaining, Swapped, First;
    draw := k => 0;
    if i > 1 {
      BoundOf(trades, goal, i);
      var j := WhereItIs(trades, goal, i);
      OneSwap(trades, goal, i, j);
      var rest := ReachesFrom(Swapped(trades, i - 1, j), goal, i - 1);
      ShuffledFirst(trades, i, j, rest);
      draw := First(i - 1, j, rest);
    } else {
      NothingRemains(trades, goal, i);
    }
  }

  lemma BoundOf(trades: seq<Trade>, goal: seq<Trade>, i: nat)
    requires Remaining(trades, goal, i)
    ensures i <= |trades|
  {
  }

  lemma NothingRemains(trades: seq<Trade>, goal: seq<Trade>, i: nat)
    requires Remaining(trades, goal, i) && i <= 1
    ensures trades == goal
  {
    if i == 1 {
      var j := WhereItIs(trades, goal, 1);
      OneSwap(trades, goal, 1, 0);
    }
  }

  /** Every draw gives a permutation, and every permutation is given by some draw. */
  lemma ShuffleReachesEveryOrder(trades: seq<Trade>, goal: seq<Trade>)
    ensures multiset(goal) == multiset(trades) <==>
              exists draw: nat -> nat :: Shuffled(trades, |trades|, draw) == goal
  {
    if multiset(goal) == multiset(trades) {
      assert |multiset(goal)| == |multiset(trades)|;
      assert trades[..|trades|] == trades && goal[..|goal|] == goal;
      var draw := ReachesFrom(trades, goal, |trades|);
    }
    forall draw: nat -> nat | Shuffled(trades, |trades|, draw) == goal ensures multiset(goal) == multiset(trades) {
      ShuffledPermutes(trades, |trades|, draw);
    }
  }

  /** The same world with other draws for the swaps. */
  function Redrawn(world: World, swap: nat -> nat): World { world.(swap := swap) }

  /** A simulation that does not shuffle measures the trades as given; one that does measures, over all draws, exactly
      what the unshuffled one measures over all orders of the trades. */
  lemma ShuffledOutcomes(trades: seq<Trade>, initial: Money, config: Perturbations, world: World, order: seq<Trade>)
    requires config.shuffle
    ensures multiset(order) == multiset(trades) <==>
              exists swap: nat -> nat :: Processed(trades, config, Redrawn(world, swap)) == order
    ensures Outcome(trades, initial, config, world)
            == Outcome(Processed(trades, config, world), initial, config.(shuffle := false), world)
    ensures Processed(trades, config.(shuffle := false), world) == trades
  {
    ShuffleReachesEveryOrder(trades, order);
    hide Shuffled, Perturbed, Measured;
    if multiset(order) == multiset(trades) {
      var draw: nat -> nat :| Shuffled(trades, |trades|, draw) == order;
      assert Processed(trades, config, Redrawn(world, draw)) == order;
    }
    if swap: nat -> nat :| Processed(trades, config, Redrawn(world, swap)) == order {
      assert Shuffled(trades, |trades|, swap) == order;
    }
    ShuffleComesFirst(Processed(trades, config, world), config, world);
  }

  /** The stages after the shuffle do not look at whether there was one. */
  lemma ShuffleComesFirst(order: seq<Trade>, config: Perturbations, world: World)
    ensures Perturbed(order, config, world) == Perturbed(order, config.(shuffle := false), world)
  {
    hide Kept, SortBy, Slipped, Charged, Delayed, Resized;
  }

  // ---------------------------------------------------------------- missed trades

  /** The draws that leave a trade in. */
  function Filled(percent: real, miss: nat -> real): nat -> bool { (i: nat) => miss(i) >= percent }

  lemma {:induction false} KeptIsPicked(trades: seq<Trade>, percent: real, miss: nat -> real)
    ensures Picked(trades, Filled(percent, miss), Kept(trades, percent, miss))
  {
    if trades == [] {
      PickedNone<Trade>(Filled(percent, miss));
    } else {
      KeptIsPicked(trades[..|trades| - 1], percent, miss);
      PickedNext(trades, Filled(percent, miss), Kept(trades[..|trades| - 1], percent, miss));
    }
  }

  /** The trades that are left are those whose draw reaches the probability of a miss, in order. */
  lemma MissedAreDropped(trades: seq<Trade>, percent: real, miss: nat -> real) returns (at: seq<nat>)
    ensures forall j, k :: 0 <= j < k < |at| ==> at[j] < at[k]
    ensures forall i: nat :: i in at <==> i < |trades| && miss(i) >= percent
    ensures ItemsAt(trades, at, Kept(trades, percent, miss))
  {
    KeptIsPicked(trades, percent, miss);
    at := WherePicked(trades, Filled(percent, miss), Kept(trades, percent, miss));
  }

  lemma {:induction false} NoneMissed(trades: seq<Trade>, percent: real, miss: nat -> real)
    requires forall i: nat :: miss(i) >= percent
    ensures Kept(trades, percent, miss) == trades
  {
    if trades != [] {
      var n := |trades| - 1;
      NoneMissed(trades[..n], percent, miss);
      assert trades == trades[..n] + [trades[n]];
    }
  }

  lemma {:induction false} AllMissed(trades: seq<Trade>, percent: real, miss: nat -> real)
    requires forall i: nat :: miss(i) < percent
    ensures Kept(trades, percent, miss) == []
  {
    if trades != [] { AllMissed(trades[..|trades| - 1], percent, miss); }
  }

  /** A simulation is not possible: a delay without the candles to look at. */
  predicate Impossible(config: Perturbations, world: World) { config.delay.Some? && world.candles.None? }

  /** How many trades a simulation measures: those whose draw reaches the configured probability, and all of them
      when none is configured. */
  lemma SimulationMisses(trades: seq<Trade>, initial: Money, config: Perturbations, world: World)
    ensures var result := Outcome(trades, initial, config, world);
            && (result.None? <==> Impossible(config, world))
            && (result.Some? ==>
                  result.value.totalTrades
                  == if config.missed.Some? then
                       |set i: nat | i < |trades| && world.miss(i) >= config.missed.value|
                     else |trades|)
  {
    hide Kept, SortBy, Slipped, Charged, Delayed, Resized, Shuffled;
    if !Impossible(config, world) {
      var order := Processed(trades, config, world);
      var before := Repricings(order, config, world);
      if config.missed.Some? {
        var percent := config.missed.value;
        KeptIsPicked(before, percent, world.miss);
        PickedSize(before, Filled(percent, world.miss), Kept(before, percent, world.miss));
        assert Positions(|trades|, Filled(percent, world.miss))
               == set i: nat | i < |trades| && world.miss(i) >= percent;
      }
    }
  }

  /** The stages before trades are missed. */
  function Repricings(order: seq<Trade>, config: Perturbations, world: World): (r: seq<Trade>)
    requires !Impossible(config, world)
    ensures |r| == |order|
  {
    var charged := WithCosts(order, config);
    if config.delay.Some? then DelayAll(charged, SortBy(CandleTime, world.candles.value), config.delay.value)
    else charged
  }

  /** A probability of zero misses nothing and one of a hundred misses everything, whatever is drawn in between. */
  lemma CertainMisses(trades: seq<Trade>, initial: Money, config: Perturbations, world: World)
    requires !Impossible(config, world) && forall i: nat :: 0.0 <= world.miss(i) < 100.0
    ensures config.missed == Some(0.0) ==>
              Outcome(trades, initial, config, world) == Outcome(trades, initial, config.(missed := None), world)
    ensures config.missed == Some(100.0) ==>
              Outcome(trades, initial, config, world) == Some(Measured([], initial))
  {
    hide Kept, SortBy, Slipped, Charged, Delayed, Resized, Measured, Shuffled;
    var order := Processed(trades, config, world);
    assert order == Processed(trades, config.(missed := None), world);
    assert WithCosts(order, config) == WithCosts(order, config.(missed := None));
    if config.missed == Some(0.0) {
      NoneMissed(Repricings(order, config, world), 0.0, world.miss);
    } else if config.missed == Some(100.0) {
      AllMissed(Repricings(order, config, world), 100.0, world.miss);
      assert ResizeAll([], world.resize) == [];
    }
  }

  // ---------------------------------------------------------------- one pass over the trades

  /** What the stages before the missed trades make of one trade. */
  function OneRepriced(t: Trade, config: Perturbations, world: World): Trade
    requires !Impossible(config, world)
  {
    var slipped := if config.slippage.Some? then Slipped(t, config.slippage.value) else t;
    var charged := if config.commission.Some? then Charged(slipped, config.commission.value) else slipped;
    if config.delay.Some? then Delayed(charged, SortBy(CandleTime, world.candles.value), config.delay.value)
    else charged
  }

  /** What all enabled stages make of one trade, resized by the given percentage. */
  function OneTrade(t: Trade, config: Perturbations, world: World, percent: real): Trade
    requires !Impossible(config, world)
  {
    var repriced := OneRepriced(t, config, world);
    if config.variation then Resized(repriced, percent) else repriced
  }

  lemma RepricedOneByOne(order: seq<Trade>, config: Perturbations, world: World)
    requires !Impossible(config, world)
    ensures forall i :: 0 <= i < |order| ==>
              Repricings(order, config, world)[i] == OneRepriced(order[i], config, world)
  {
    hide SortBy, Slipped, Charged, Delayed;
  }

  /** The stages from the missed trades on. */
  lemma RestOfStages(order: seq<Trade>, config: Perturbations, world: World)
    requires !Impossible(config, world)
    ensures var before := Repricings(order, config, world);
            var kept := if config.missed.Some? then Kept(before, config.missed.value, world.miss) else before;
            Perturbed(order, config, world) == Some(if config.variation then ResizeAll(kept, world.resize) else kept)
  {
    hide Kept, SortBy, Slipped, Charged, Delayed, Resized;
  }

  /** The passes over the list are one pass over the trades that are not missed: the k-th trade measured is one of
      the processed ones, put through the stages on its own and resized by the k-th draw. */
  lemma StagesAreOnePass(order: seq<Trade>, config: Perturbations, world: World) returns (at: seq<nat>)
    requires !Impossible(config, world)
    ensures forall j, k :: 0 <= j < k < |at| ==> at[j] < at[k]
    ensures forall i: nat :: i in at <==> i < |order| && (config.missed.None? || world.miss(i) >= config.missed.value)
    ensures var result := Perturbed(order, config, world);
            && result.Some? && |result.value| == |at|
            && forall k :: 0 <= k < |at| ==>
                 at[k] < |order| && result.value[k] == OneTrade(order[at[k]], config, world, world.resize(k))
  {
    hide Kept, Perturbed, Repricings, OneRepriced, Resized, Impossible;
    var before := Repricings(order, config, world);
    if config.missed.Some? {
      at := MissedAreDropped(before, config.missed.value, world.miss);
    } else {
      at := Everything(|order|);
    }
    RestOfStages(order, config, world);
    RepricedOneByOne(order, config, world);
    var kept := if config.missed.Some? then Kept(before, config.missed.value, world.miss) else before;
    assert ItemsAt(before, at, kept);
  }

  lemma Everything(n: nat) returns (at: seq<nat>)
    ensures |at| == n && forall i :: 0 <= i < n ==> at[i] == i
    ensures forall i: nat :: i in at <==> i < n
  {
    at := seq(n, i => i);
    forall i: nat ensures i in at <==> i < n {
      if i < n { assert at[i] == i; }
    }
  }

  /** Resizing rounds to the nearest whole quantity, ties to even, but never below one unit. */
  lemma ResizedIsNearest(quantity: int, percent: real, n: int)
    requires n >= 2
    ensures Varied(quantity, percent) >= 1
    ensures var exact := quantity as real + quantity as real * percent / 100.0;
            Varied(quantity, percent) == n <==>
              Abs(exact - n as real) < 0.5 || (Abs(exact - n as real) == 0.5 && n % 2 == 0)
    ensures quantity >= 1 && percent == 0.0 ==> Varied(quantity, percent) == quantity
  {
    GrownIs(quantity as real, percent);
    RoundIsNearest(Grown(quantity as real, percent), n);
    RoundWhole(quantity);
    hide RoundHalfEven, Grown;
  }

  /** Resizing changes the quantity and recomputes the pnl for it, at the same prices. */
  lemma ResizedTrade(t: Trade, percent: real)
    ensures var quantity := Varied(t.quantity, percent);
            Resized(t, percent)
            == t.(quantity := quantity, pnl := SignedPnl(t.direction, t.entryPrice, t.exitPrice, quantity))
  {
    hide Varied, SignedPnl;
  }

  lemma GrownIs(x: real, percent: real)
    ensures Grown(x, percent) == x + x * percent / 100.0
  {
  }
}

/** What a booked trade is: an independent record of whole bets, flat to flat, rolls included.
  *
  * The tape groups position changes into bets by counting contracts only; it never looks at an
  * average price or a realized amount. The ledger's booked trades are proved to be the net cash of
  * the tape's closed bets.
  */
module BetTape {
  import opened Wrappers
  import opened Contracts
  import opened Sums
  import opened Ledger
  import opened LedgerTheorems

  datatype Tape = Tape(running: map<Contract, seq<Leg>>, closed: seq<seq<Leg>>)

  const EMPTY_TAPE := Tape(map[], [])

  function Running(t: Tape, c: Contract): seq<Leg> {
    if c in t.running then t.running[c] else []
  }

  /** Contracts of `c` a bet holds after its legs. */
  function Net(legs: seq<Leg>, c: Contract): int {
    if |legs| == 0 then 0
    else Net(legs[..|legs| - 1], c) + if legs[|legs| - 1].contract == c then legs[|legs| - 1].delta else 0
  }

  /** Cash a bet has received over its legs, all contracts together. */
  function Cash(legs: seq<Leg>): real {
    if |legs| == 0 then 0.0
    else
      var leg := legs[|legs| - 1];
      Cash(legs[..|legs| - 1]) - Outlay(leg.contract, leg.delta, leg.price)
  }

  lemma AppendLeg(legs: seq<Leg>, leg: Leg, c: Contract)
    ensures Net(legs + [leg], c) == Net(legs, c) + if leg.contract == c then leg.delta else 0
    ensures Cash(legs + [leg]) == Cash(legs) - Outlay(leg.contract, leg.delta, leg.price)
  {
    assert (legs + [leg])[..|legs|] == legs;
  }

  lemma {:induction false} Concat(x: seq<Leg>, y: seq<Leg>, c: Contract)
    ensures Net(x + y, c) == Net(x, c) + Net(y, c)
    ensures Cash(x + y) == Cash(x) + Cash(y)
  {
    if |y| == 0 {
      assert x + y == x;
    } else {
      var y', leg := y[..|y| - 1], y[|y| - 1];
      assert x + y == x + y' + [leg];
      Concat(x, y', c);
      AppendLeg(x + y', leg, c);
    }
  }

  /** A fill joins the running bet, ends it, or ends it and starts the opposite one. */
  function TapeFill(t: Tape, c: Contract, delta: int, price: real): Tape {
    var legs := Running(t, c);
    var held := Net(legs, c);
    if held == 0 || SameDirection(held, delta) || Abs(delta) < Abs(held) then
      t.(running := t.running[c := legs + [Leg(c, delta, price)]])
    else if held + delta == 0 then
      Tape(t.running - {c}, t.closed + [legs + [Leg(c, delta, price)]])
    else
      Tape(t.running[c := [Leg(c, held + delta, price)]], t.closed + [legs + [Leg(c, -held, price)]])
  }

  /** A roll is part of the bet it continues. */
  function TapeRoll(t: Tape, front: Contract, back: Contract, frontFill: real, backFill: real): Tape {
    var held := Net(Running(t, front), front);
    if held == 0 then t
    else
      var moved := Running(t, front) + [Leg(front, -held, frontFill)];
      t.(running := (t.running - {front})[back := Running(t, back) + moved + [Leg(back, held, backFill)]])
  }

  function TapeStep(t: Tape, op: Op): Tape {
    match op
    case Fill(c, side, quantity, price) => TapeFill(t, c, Delta(side, quantity), price)
    case RollOver(front, back, frontFill, backFill) => TapeRoll(t, front, back, frontFill, backFill)
  }

  function TapeOf(ops: seq<Op>): Tape {
    if |ops| == 0 then EMPTY_TAPE else TapeStep(TapeOf(ops[..|ops| - 1]), ops[|ops| - 1])
  }

  /** A roll into `back` adds to its bet, or only reduces it. */
  predicate KeepsBets(b: Book, front: Contract, back: Contract) {
    || Quantity(b, back) == 0 || SameDirection(Quantity(b, back), Quantity(b, front))
    || Abs(Quantity(b, back)) > Abs(Quantity(b, front))
  }

  /** Fills trade something; rolls neither end nor turn the bet of the contract they enter. */
  predicate Clean(b: Book, op: Op) {
    match op
    case Fill(_, _, quantity, _) => quantity > 0
    case RollOver(front, back, _, _) =>
      front != back && (Quantity(b, front) == 0 || KeepsBets(b, front, back))
  }

  predicate AllClean(b: Book, ops: seq<Op>) {
    forall i | 0 <= i < |ops| && Run(b, ops[..i]).Some? :: Clean(Run(b, ops[..i]).value, ops[i])
  }

  // ---------------------------------------------------------------------------------------------
  // The ledger tracks the tape
  // ---------------------------------------------------------------------------------------------

  ghost predicate TracksContract(b: Book, t: Tape, c: Contract) {
    && Net(Running(t, c), c) == Quantity(b, c)
    && (forall k | k != c :: Net(Running(t, c), k) == 0)
    && (Quantity(b, c) == 0 ==> Running(t, c) == [] && c !in b.openTradePnl)
    && Get(b.openTradePnl, c) == Cash(Running(t, c)) + Basis(b, c)
  }

  /** A finished bet holds nothing in any contract. */
  ghost predicate Flat(legs: seq<Leg>) {
    |legs| > 0 && forall c :: Net(legs, c) == 0
  }

  ghost predicate TracksTrades(b: Book, t: Tape) {
    && |b.tradePnls| == |t.closed|
    && forall i | 0 <= i < |t.closed| :: b.tradePnls[i] == Cash(t.closed[i]) && Flat(t.closed[i])
  }

  ghost predicate Tracks(b: Book, t: Tape) {
    (forall c :: TracksContract(b, t, c)) && TracksTrades(b, t)
  }

  lemma TracksElsewhere(b: Book, a: Book, t: Tape, u: Tape, k: Contract)
    requires TracksContract(b, t, k)
    requires (k in a.positions <==> k in b.positions) && (k in b.positions ==> a.positions[k] == b.positions[k])
    requires (k in a.openTradePnl <==> k in b.openTradePnl) && Get(a.openTradePnl, k) == Get(b.openTradePnl, k)
    requires Running(u, k) == Running(t, k)
    ensures TracksContract(a, u, k)
  {
    SameHolding(b, a, k);
  }

  /** The two books agree on every other contract. */
  ghost predicate OnlyTouches(b: Book, a: Book, c: Contract) {
    forall k | k != c ::
      && (k in a.positions <==> k in b.positions) && (k in b.positions ==> a.positions[k] == b.positions[k])
      && (k in a.openTradePnl <==> k in b.openTradePnl) && Get(a.openTradePnl, k) == Get(b.openTradePnl, k)
  }

  lemma FillTouches(b: Book, c: Contract, delta: int, price: real)
    requires ApplyDelta(b, c, delta, price, false).Done?
    ensures OnlyTouches(b, ApplyDelta(b, c, delta, price, false).book, c)
  {
  }

  lemma TapeElsewhere(t: Tape, c: Contract, delta: int, price: real)
    ensures forall k | k != c :: Running(TapeFill(t, c, delta, price), k) == Running(t, k)
  {
  }

  lemma OthersTrack(b: Book, a: Book, t: Tape, u: Tape, c: Contract)
    requires (forall k :: TracksContract(b, t, k)) && OnlyTouches(b, a, c)
    requires forall k | k != c :: Running(u, k) == Running(t, k)
    ensures forall k | k != c :: TracksContract(a, u, k)
  {
    forall k | k != c ensures TracksContract(a, u, k) {
      assert TracksContract(b, t, k);
      TracksElsewhere(b, a, t, u, k);
    }
  }

  lemma FillTracks(b: Book, t: Tape, c: Contract, delta: int, price: real)
    requires Tracks(b, t) && delta != 0 && ApplyDelta(b, c, delta, price, false).Done?
    ensures Tracks(ApplyDelta(b, c, delta, price, false).book, TapeFill(t, c, delta, price))
  {
    assert TracksContract(b, t, c);
    FillTracksHere(b, t, c, delta, price);
    FillTouches(b, c, delta, price);
    TapeElsewhere(t, c, delta, price);
    OthersTrack(b, ApplyDelta(b, c, delta, price, false).book, t, TapeFill(t, c, delta, price), c);
  }

  lemma FillTracksHere(b: Book, t: Tape, c: Contract, delta: int, price: real)
    requires TracksContract(b, t, c) && TracksTrades(b, t) && delta != 0 && ApplyDelta(b, c, delta, price, false).Done?
    ensures TracksContract(ApplyDelta(b, c, delta, price, false).book, TapeFill(t, c, delta, price), c)
    ensures TracksTrades(ApplyDelta(b, c, delta, price, false).book, TapeFill(t, c, delta, price))
  {
    FillIdentity(b, c, delta, price, false);
    var held := Quantity(b, c);
    if held == 0 || SameDirection(held, delta) {
      JoinTracks(b, t, c, delta, price);
    } else if Abs(delta) < Abs(held) {
      PartialTracks(b, t, c, delta, price);
    } else {
      EndTracks(b, t, c, delta, price);
    }
  }

  lemma JoinTracks(b: Book, t: Tape, c: Contract, delta: int, price: real)
    requires TracksContract(b, t, c) && TracksTrades(b, t) && delta != 0 && ApplyDelta(b, c, delta, price, false).Done?
    requires Quantity(b, c) == 0 || SameDirection(Quantity(b, c), delta)
    requires Balanced(b, ApplyDelta(b, c, delta, price, false).book, c, delta, price)
    ensures TracksContract(ApplyDelta(b, c, delta, price, false).book, TapeFill(t, c, delta, price), c)
    ensures TracksTrades(ApplyDelta(b, c, delta, price, false).book, TapeFill(t, c, delta, price))
  {
    forall k ensures Net(Running(t, c) + [Leg(c, delta, price)], k) == Net(Running(t, c), k) + if k == c then delta else 0 {
      AppendLeg(Running(t, c), Leg(c, delta, price), k);
    }
    AppendLeg(Running(t, c), Leg(c, delta, price), c);
  }

  lemma PartialTracks(b: Book, t: Tape, c: Contract, delta: int, price: real)
    requires TracksContract(b, t, c) && TracksTrades(b, t) && delta != 0 && ApplyDelta(b, c, delta, price, false).Done?
    requires Quantity(b, c) != 0 && !SameDirection(Quantity(b, c), delta) && Abs(delta) < Abs(Quantity(b, c))
    requires Balanced(b, ApplyDelta(b, c, delta, price, false).book, c, delta, price)
    ensures TracksContract(ApplyDelta(b, c, delta, price, false).book, TapeFill(t, c, delta, price), c)
    ensures TracksTrades(ApplyDelta(b, c, delta, price, false).book, TapeFill(t, c, delta, price))
  {
    forall k ensures Net(Running(t, c) + [Leg(c, delta, price)], k) == Net(Running(t, c), k) + if k == c then delta else 0 {
      AppendLeg(Running(t, c), Leg(c, delta, price), k);
    }
    AppendLeg(Running(t, c), Leg(c, delta, price), c);
  }

  lemma SingleLeg(c: Contract, delta: int, price: real)
    ensures forall k :: Net([Leg(c, delta, price)], k) == if k == c then delta else 0
    ensures Cash([Leg(c, delta, price)]) == -Outlay(c, delta, price)
  {
    assert [Leg(c, delta, price)] == [] + [Leg(c, delta, price)];
    forall k ensures Net([Leg(c, delta, price)], k) == if k == c then delta else 0 {
      AppendLeg([], Leg(c, delta, price), k);
    }
    AppendLeg([], Leg(c, delta, price), c);
  }

  lemma EndTracks(b: Book, t: Tape, c: Contract, delta: int, price: real)
    requires TracksContract(b, t, c) && TracksTrades(b, t) && delta != 0 && ApplyDelta(b, c, delta, price, false).Done?
    requires Quantity(b, c) != 0 && !SameDirection(Quantity(b, c), delta) && Abs(delta) >= Abs(Quantity(b, c))
    requires Balanced(b, ApplyDelta(b, c, delta, price, false).book, c, delta, price)
    ensures TracksContract(ApplyDelta(b, c, delta, price, false).book, TapeFill(t, c, delta, price), c)
    ensures TracksTrades(ApplyDelta(b, c, delta, price, false).book, TapeFill(t, c, delta, price))
  {
    EndShape(b, c, delta, price);
    EndedTracks(b, ApplyDelta(b, c, delta, price, false).book, t, c, delta, price);
  }

  /** A fill that ended the bet in `c`, possibly opening the opposite one at the same price. */
  ghost predicate Ended(b: Book, a: Book, c: Contract, delta: int, price: real) {
    && Quantity(b, c) != 0 && !SameDirection(Quantity(b, c), delta) && Abs(delta) >= Abs(Quantity(b, c))
    && Quantity(a, c) == Quantity(b, c) + delta
    && Basis(a, c) == Basis(b, c) + Outlay(c, delta, price) + (a.realizedPnl - b.realizedPnl)
    && Basis(a, c) == Outlay(c, Quantity(a, c), price)
    && a.tradePnls == b.tradePnls + [Get(b.openTradePnl, c) + (a.realizedPnl - b.realizedPnl)]
    && c !in a.openTradePnl
  }

  /** The entry booked when a bet ends is the net cash of the whole bet. */
  lemma EndedTracks(b: Book, a: Book, t: Tape, c: Contract, delta: int, price: real)
    requires TracksContract(b, t, c) && TracksTrades(b, t) && Ended(b, a, c, delta, price)
    ensures TracksContract(a, TapeFill(t, c, delta, price), c)
    ensures TracksTrades(a, TapeFill(t, c, delta, price))
  {
    var held := Quantity(b, c);
    var u := TapeFill(t, c, delta, price);
    assert u.closed == t.closed + [Running(t, c) + [Leg(c, -held, price)]];
    assert Running(u, c) == if held + delta == 0 then [] else [Leg(c, held + delta, price)];
    EndedBooksCash(b, a, t, u, c, delta, price);
    EndedRestarts(a, u, c, held + delta, price);
  }

  lemma EndedBooksCash(b: Book, a: Book, t: Tape, u: Tape, c: Contract, delta: int, price: real)
    requires TracksContract(b, t, c) && TracksTrades(b, t) && Ended(b, a, c, delta, price)
    requires u.closed == t.closed + [Running(t, c) + [Leg(c, -Quantity(b, c), price)]]
    ensures TracksTrades(a, u)
  {
    EndedValue(b, a, t, c, delta, price);
    FinishedBet(t, c, Quantity(b, c), price);
  }

  /** What is left over opens the next bet. */
  lemma EndedRestarts(a: Book, u: Tape, c: Contract, left: int, price: real)
    requires Quantity(a, c) == left && Basis(a, c) == Outlay(c, left, price) && c !in a.openTradePnl
    requires Running(u, c) == if left == 0 then [] else [Leg(c, left, price)]
    ensures TracksContract(a, u, c)
  {
    SingleLeg(c, left, price);
    ZeroOutlay(c, price);
  }

  lemma ZeroOutlay(c: Contract, price: real)
    ensures Outlay(c, 0, price) == 0.0
  {
  }

  lemma EndedValue(b: Book, a: Book, t: Tape, c: Contract, delta: int, price: real)
    requires TracksContract(b, t, c) && Ended(b, a, c, delta, price)
    ensures Get(b.openTradePnl, c) + (a.realizedPnl - b.realizedPnl)
            == Cash(Running(t, c)) - Outlay(c, -Quantity(b, c), price)
  {
    SplitOutlay(c, Quantity(b, c), delta, price);
  }

  lemma SplitOutlay(c: Contract, held: int, delta: int, price: real)
    ensures Outlay(c, held + delta, price) == Outlay(c, delta, price) - Outlay(c, -held, price)
  {
    assert (held + delta) as real == delta as real - (-held) as real;
  }

  lemma FinishedBet(t: Tape, c: Contract, held: int, price: real)
    requires forall k :: Net(Running(t, c), k) == if k == c then held else 0
    ensures Flat(Running(t, c) + [Leg(c, -held, price)])
    ensures Cash(Running(t, c) + [Leg(c, -held, price)]) == Cash(Running(t, c)) - Outlay(c, -held, price)
  {
    var legs := Running(t, c);
    var ended := legs + [Leg(c, -held, price)];
    forall k ensures Net(ended, k) == 0 {
      AppendLeg(legs, Leg(c, -held, price), k);
      assert Net(legs, k) == if k == c then held else 0;
    }
    AppendLeg(legs, Leg(c, -held, price), c);
  }

  lemma EndShape(b: Book, c: Contract, delta: int, price: real)
    requires ApplyDelta(b, c, delta, price, false).Done?
    requires Quantity(b, c) != 0 && !SameDirection(Quantity(b, c), delta) && Abs(delta) >= Abs(Quantity(b, c))
    requires Balanced(b, ApplyDelta(b, c, delta, price, false).book, c, delta, price)
    ensures Ended(b, ApplyDelta(b, c, delta, price, false).book, c, delta, price)
  {
  }

  // ---------------------------------------------------------------------------------------------
  // Rolls
  // ---------------------------------------------------------------------------------------------

  lemma RollTracks(b: Book, t: Tape, front: Contract, back: Contract, frontFill: real, backFill: real)
    requires Tracks(b, t) && Clean(b, RollOver(front, back, frontFill, backFill))
    requires Roll(b, front, back, frontFill, backFill).Done?
    ensures Tracks(Roll(b, front, back, frontFill, backFill).book, TapeRoll(t, front, back, frontFill, backFill))
  {
    assert TracksContract(b, t, front) && TracksContract(b, t, back);
    if Quantity(b, front) != 0 {
      var closed, both := RollShape(b, front, back, frontFill, backFill);
      FrontLegShape(b, front, frontFill, closed);
      BackLegShape(closed, back, Quantity(b, front), backFill, both);
      RolledTracks(b, closed, both, t, front, back, frontFill, backFill);
    }
  }

  /** The front leg flattens the contract and leaves its tally open. */
  ghost predicate FrontClosed(b: Book, closed: Book, front: Contract, frontFill: real) {
    && Quantity(closed, front) == 0 && Basis(closed, front) == 0.0 && front in closed.positions
    && closed.tradePnls == b.tradePnls
    && closed.openTradePnl == b.openTradePnl[front := Get(b.openTradePnl, front) - Basis(b, front) - Outlay(front, -Quantity(b, front), frontFill)]
    && closed.positions == b.positions[front := closed.positions[front]]
  }

  /** The back leg opens, adds or reduces; what it realizes stays on the open bet. */
  ghost predicate BackOpened(closed: Book, both: Book, back: Contract, quantity: int, backFill: real) {
    && Quantity(both, back) == Quantity(closed, back) + quantity && back in both.positions
    && Basis(both, back) == Basis(closed, back) + Outlay(back, quantity, backFill) + (both.realizedPnl - closed.realizedPnl)
    && Get(both.openTradePnl, back) == Get(closed.openTradePnl, back) + (both.realizedPnl - closed.realizedPnl)
    && (forall k | k != back ::
          (k in both.openTradePnl <==> k in closed.openTradePnl) && Get(both.openTradePnl, k) == Get(closed.openTradePnl, k))
    && both.tradePnls == closed.tradePnls
    && both.positions == closed.positions[back := both.positions[back]]
  }

  lemma FrontLegShape(b: Book, front: Contract, frontFill: real, closed: Book)
    requires Quantity(b, front) != 0 && ApplyDelta(b, front, -Quantity(b, front), frontFill, true) == Done(closed)
    ensures FrontClosed(b, closed, front, frontFill)
  {
    FillIdentity(b, front, -Quantity(b, front), frontFill, true);
  }

  lemma BackLegShape(closed: Book, back: Contract, quantity: int, backFill: real, both: Book)
    requires Quantity(closed, back) == 0 || SameDirection(Quantity(closed, back), quantity) || Abs(Quantity(closed, back)) > Abs(quantity)
    requires ApplyDelta(closed, back, quantity, backFill, true) == Done(both)
    ensures BackOpened(closed, both, back, quantity, backFill)
  {
    FillIdentity(closed, back, quantity, backFill, true);
  }

  lemma RolledTracks(b: Book, closed: Book, both: Book, t: Tape, front: Contract, back: Contract, frontFill: real, backFill: real)
    requires Tracks(b, t) && front != back && Quantity(b, front) != 0
    requires KeepsBets(b, front, back)
    requires FrontClosed(b, closed, front, frontFill) && BackOpened(closed, both, back, Quantity(b, front), backFill)
    ensures Tracks(Carry(both, front, back), TapeRoll(t, front, back, frontFill, backFill))
  {
    var a, u := Carry(both, front, back), TapeRoll(t, front, back, frontFill, backFill);
    assert TracksContract(b, t, front) && TracksContract(b, t, back);
    RolledBack(b, closed, both, t, front, back, frontFill, backFill);
    RolledFront(b, closed, both, t, front, back, frontFill, backFill);
    forall k ensures TracksContract(a, u, k) {
      assert TracksContract(b, t, k);
      if k != front && k != back {
        RolledElsewhere(b, closed, both, t, front, back, frontFill, backFill, k);
      }
    }
  }

  lemma RolledElsewhere(b: Book, closed: Book, both: Book, t: Tape, front: Contract, back: Contract, frontFill: real, backFill: real, k: Contract)
    requires TracksContract(b, t, k) && k != front && k != back && front != back
    requires FrontClosed(b, closed, front, frontFill) && BackOpened(closed, both, back, Quantity(b, front), backFill)
    ensures TracksContract(Carry(both, front, back), TapeRoll(t, front, back, frontFill, backFill), k)
  {
    TracksElsewhere(b, Carry(both, front, back), t, TapeRoll(t, front, back, frontFill, backFill), k);
  }

  lemma RolledFront(b: Book, closed: Book, both: Book, t: Tape, front: Contract, back: Contract, frontFill: real, backFill: real)
    requires TracksContract(b, t, front) && front != back && Quantity(b, front) != 0
    requires FrontClosed(b, closed, front, frontFill) && BackOpened(closed, both, back, Quantity(b, front), backFill)
    ensures TracksContract(Carry(both, front, back), TapeRoll(t, front, back, frontFill, backFill), front)
  {
    var a := Carry(both, front, back);
    assert Quantity(a, front) == 0 && front !in a.openTradePnl;
    assert Basis(a, front) == 0.0;
  }

  lemma RolledBack(b: Book, closed: Book, both: Book, t: Tape, front: Contract, back: Contract, frontFill: real, backFill: real)
    requires TracksContract(b, t, front) && TracksContract(b, t, back) && front != back && Quantity(b, front) != 0
    requires KeepsBets(b, front, back)
    requires FrontClosed(b, closed, front, frontFill) && BackOpened(closed, both, back, Quantity(b, front), backFill)
    ensures TracksContract(Carry(both, front, back), TapeRoll(t, front, back, frontFill, backFill), back)
  {
    var held := Quantity(b, front);
    var l1, l2 := Leg(front, -held, frontFill), Leg(back, held, backFill);
    var a := Carry(both, front, back);
    RolledValue(b, closed, both, front, back, frontFill, backFill);
    BackTracks(b, a, t, front, back, l1, l2, both.realizedPnl - closed.realizedPnl);
  }

  lemma RolledValue(b: Book, closed: Book, both: Book, front: Contract, back: Contract, frontFill: real, backFill: real)
    requires front != back
    requires FrontClosed(b, closed, front, frontFill) && BackOpened(closed, both, back, Quantity(b, front), backFill)
    ensures var a := Carry(both, front, back);
            && Quantity(a, back) == Quantity(b, back) + Quantity(b, front)
            && Basis(a, back) == Basis(b, back) + Outlay(back, Quantity(b, front), backFill) + (both.realizedPnl - closed.realizedPnl)
            && Get(a.openTradePnl, back)
               == Get(b.openTradePnl, back) + Get(b.openTradePnl, front) - Basis(b, front) - Outlay(front, -Quantity(b, front), frontFill)
                  + (both.realizedPnl - closed.realizedPnl)
  {
    SameHolding(b, closed, back);
    SameHolding(both, Carry(both, front, back), back);
    CarriedTally(both, front, back);
  }

  /** A contract held alike has the same basis. */
  lemma SameHolding(b: Book, a: Book, k: Contract)
    requires (k in a.positions <==> k in b.positions) && (k in b.positions ==> a.positions[k] == b.positions[k])
    ensures Quantity(a, k) == Quantity(b, k) && Basis(a, k) == Basis(b, k)
  {
  }

  lemma CarriedTally(b: Book, front: Contract, back: Contract)
    requires front != back
    ensures Get(Carry(b, front, back).openTradePnl, back) == Get(b.openTradePnl, back) + Get(b.openTradePnl, front)
  {
  }

  lemma BackTracks(b: Book, a: Book, t: Tape, front: Contract, back: Contract, l1: Leg, l2: Leg, realized: real)
    requires TracksContract(b, t, front) && TracksContract(b, t, back) && front != back && Quantity(b, front) != 0
    requires KeepsBets(b, front, back)
    requires l1.contract == front && l1.delta == -Quantity(b, front) && l2.contract == back && l2.delta == Quantity(b, front)
    requires Quantity(a, back) == Quantity(b, back) + Quantity(b, front)
    requires Basis(a, back) == Basis(b, back) + Outlay(back, l2.delta, l2.price) + realized
    requires Get(a.openTradePnl, back)
             == Get(b.openTradePnl, back) + Get(b.openTradePnl, front) - Basis(b, front) - Outlay(front, l1.delta, l1.price) + realized
    ensures TracksContract(a, TapeRoll(t, front, back, l1.price, l2.price), back)
  {
    MovedNet(Running(t, back), Running(t, front), l1, l2);
    MovedCash(Running(t, back), Running(t, front), l1, l2);
    assert Running(TapeRoll(t, front, back, l1.price, l2.price), back) == Running(t, back) + (Running(t, front) + [l1]) + [l2];
  }

  lemma MovedNet(x: seq<Leg>, y: seq<Leg>, l1: Leg, l2: Leg)
    ensures forall k :: Net(x + (y + [l1]) + [l2], k)
                        == Net(x, k) + Net(y, k) + (if l1.contract == k then l1.delta else 0) + (if l2.contract == k then l2.delta else 0)
  {
    var moved := x + (y + [l1]) + [l2];
    forall k ensures Net(moved, k) == Net(x, k) + Net(y, k) + (if l1.contract == k then l1.delta else 0) + (if l2.contract == k then l2.delta else 0) {
      AppendLeg(y, l1, k);
      Concat(x, y + [l1], k);
      AppendLeg(x + (y + [l1]), l2, k);
    }
  }

  lemma MovedCash(x: seq<Leg>, y: seq<Leg>, l1: Leg, l2: Leg)
    ensures Cash(x + (y + [l1]) + [l2])
            == Cash(x) + Cash(y) - Outlay(l1.contract, l1.delta, l1.price) - Outlay(l2.contract, l2.delta, l2.price)
  {
    AppendLeg(y, l1, l1.contract);
    Concat(x, y + [l1], l1.contract);
    AppendLeg(x + (y + [l1]), l2, l1.contract);
  }

  /** Every booked trade is one whole bet, flat to flat with its rolls inside, and its booked value
    * is the cash that bet netted; a flat contract carries no open tally. */
  lemma {:induction false} BookedTradesAreWholeBets(ops: seq<Op>)
    requires Run(EMPTY_BOOK, ops).Some? && AllClean(EMPTY_BOOK, ops)
    ensures Tracks(Run(EMPTY_BOOK, ops).value, TapeOf(ops))
  {
    if |ops| > 0 {
      var n := |ops| - 1;
      assert forall i | 0 <= i < n :: ops[..n][..i] == ops[..i];
      BookedTradesAreWholeBets(ops[..n]);
      var m := Run(EMPTY_BOOK, ops[..n]).value;
      assert Clean(m, ops[n]);
      match ops[n]
      case Fill(c, side, quantity, price) => FillTracks(m, TapeOf(ops[..n]), c, Delta(side, quantity), price);
      case RollOver(front, back, frontFill, backFill) => RollTracks(m, TapeOf(ops[..n]), front, back, frontFill, backFill);
    }
  }

  // ---------------------------------------------------------------------------------------------
  // A roll into a back contract held the opposite way
  // ---------------------------------------------------------------------------------------------

  /** No flat contract has an open bet. */
  ghost predicate Tidy(b: Book) {
    forall c :: Quantity(b, c) == 0 ==> c !in b.openTradePnl
  }

  /** A roll strands a tally on a flat contract exactly when it cancels the back position. */
  lemma RollTidyExactly(b: Book, front: Contract, back: Contract, frontFill: real, backFill: real)
    requires Tidy(b) && front != back && Quantity(b, front) != 0
    requires Roll(b, front, back, frontFill, backFill).Done?
    ensures Tidy(Roll(b, front, back, frontFill, backFill).book) <==> Quantity(b, back) != -Quantity(b, front)
  {
    var closed, both := RollShape(b, front, back, frontFill, backFill);
    LegTally(b, front, -Quantity(b, front), frontFill);
    LegTally(closed, back, Quantity(b, front), backFill);
    CarryTidy(both, front, back, Quantity(b, back) + Quantity(b, front));
  }

  lemma CarryTidy(both: Book, front: Contract, back: Contract, quantity: int)
    requires front != back && Quantity(both, front) == 0 && Quantity(both, back) == quantity
    requires forall k | k != front && k != back && Quantity(both, k) == 0 :: k !in both.openTradePnl
    requires quantity == 0 ==> back in both.openTradePnl
    ensures Tidy(Carry(both, front, back)) <==> quantity != 0
  {
    var a := Carry(both, front, back);
    assert forall k :: Quantity(a, k) == Quantity(both, k);
    if quantity == 0 {
      assert back in a.openTradePnl;
    }
  }

  /** Which contracts a roll's leg leaves with an open tally. */
  lemma LegTally(b: Book, c: Contract, delta: int, price: real)
    requires ApplyDelta(b, c, delta, price, true).Done?
    ensures var a := ApplyDelta(b, c, delta, price, true).book;
            && Quantity(a, c) == Quantity(b, c) + delta
            && (forall k | k != c :: Quantity(a, k) == Quantity(b, k) && (k in a.openTradePnl <==> k in b.openTradePnl))
            && (Quantity(b, c) != 0 && Quantity(b, c) + delta == 0 ==> c in a.openTradePnl)
  {
  }

  lemma RunAppend(b: Book, ops: seq<Op>, op: Op)
    requires Run(b, ops).Some? && Apply(Run(b, ops).value, op).Done?
    ensures Run(b, ops + [op]) == Some(Apply(Run(b, ops).value, op).book)
  {
    assert (ops + [op])[..|ops|] == ops;
  }

  /** Long one front, short one back, rolled: the back is flat and still carries a tally. */
  lemma RollStrandsTally(front: Contract, back: Contract)
    requires front != back && MultiplierFor(front).Some? && MultiplierFor(back).Some?
    ensures var ops := [Fill(front, Buy, 1, 100.0)] + [Fill(back, Sell, 1, 100.0)] + [RollOver(front, back, 110.0, 120.0)];
            Run(EMPTY_BOOK, ops).Some? && !Tidy(Run(EMPTY_BOOK, ops).value)
  {
    var b1 := EMPTY_BOOK.(positions := map[front := Position(1, 100.0, 0.0)]);
    var b2 := b1.(positions := b1.positions[back := Position(-1, 100.0, 0.0)]);
    assert [] + [Fill(front, Buy, 1, 100.0)] == [Fill(front, Buy, 1, 100.0)];
    RunAppend(EMPTY_BOOK, [], Fill(front, Buy, 1, 100.0));
    RunAppend(EMPTY_BOOK, [Fill(front, Buy, 1, 100.0)], Fill(back, Sell, 1, 100.0));
    OppositeRoll(b2, front, back);
    RunAppend(EMPTY_BOOK, [Fill(front, Buy, 1, 100.0)] + [Fill(back, Sell, 1, 100.0)], RollOver(front, back, 110.0, 120.0));
  }

  lemma OppositeRoll(b: Book, front: Contract, back: Contract)
    requires front != back && MultiplierFor(front).Some? && MultiplierFor(back).Some?
    requires b.positions == map[front := Position(1, 100.0, 0.0), back := Position(-1, 100.0, 0.0)] && b.openTradePnl == map[]
    ensures Roll(b, front, back, 110.0, 120.0).Done? && !Tidy(Roll(b, front, back, 110.0, 120.0).book)
  {
    RollTidyExactly(b, front, back, 110.0, 120.0);
  }

  /** Held one way before and the other way after. */
  predicate Flips(b: Book, a: Book, c: Contract) {
    (Quantity(b, c) > 0 && Quantity(a, c) < 0) || (Quantity(b, c) < 0 && Quantity(a, c) > 0)
  }

  /** The back contract is held against the front, and by less. */
  predicate OppositeAndSmaller(b: Book, front: Contract, back: Contract) {
    && Quantity(b, back) != 0 && !SameDirection(Quantity(b, front), Quantity(b, back))
    && Abs(Quantity(b, back)) < Abs(Quantity(b, front))
  }

  /** What one leg of a roll books. */
  lemma LegBooks(b: Book, c: Contract, delta: int, price: real)
    requires ApplyDelta(b, c, delta, price, true).Done? && delta != 0
    ensures var a := ApplyDelta(b, c, delta, price, true).book;
            a.tradePnls == if Flips(b, a, c) then b.tradePnls + [Get(b.openTradePnl, c) + RealizedIn(a, c) - RealizedIn(b, c)] else b.tradePnls
    ensures forall k | k != c :: Get(ApplyDelta(b, c, delta, price, true).book.openTradePnl, k) == Get(b.openTradePnl, k)
  {
    FillIdentity(b, c, delta, price, true);
  }

  /** The books between the legs of a roll. */
  lemma LegsBook(b: Book, closed: Book, both: Book, front: Contract, back: Contract, frontFill: real, backFill: real)
    requires front != back && Quantity(b, front) != 0
    requires ApplyDelta(b, front, -Quantity(b, front), frontFill, true) == Done(closed)
    requires ApplyDelta(closed, back, Quantity(b, front), backFill, true) == Done(both)
    ensures both.tradePnls == if OppositeAndSmaller(b, front, back)
                              then b.tradePnls + [Get(b.openTradePnl, back) + RealizedIn(both, back) - RealizedIn(b, back)]
                              else b.tradePnls
    ensures Flips(b, both, back) <==> OppositeAndSmaller(b, front, back)
  {
    LegBooks(b, front, -Quantity(b, front), frontFill);
    LegBooks(closed, back, Quantity(b, front), backFill);
    FillIdentity(b, front, -Quantity(b, front), frontFill, true);
    FillIdentity(closed, back, Quantity(b, front), backFill, true);
    OtherContract(b, closed, front, back);
  }

  /** A roll flips the back position, and then books its open bet as a trade of its own, exactly when the
    * back is held the opposite way with a smaller quantity; it books nothing otherwise. */
  lemma RollFlipsExactly(b: Book, front: Contract, back: Contract, frontFill: real, backFill: real)
    requires front != back && Quantity(b, front) != 0 && Roll(b, front, back, frontFill, backFill).Done?
    ensures var a := Roll(b, front, back, frontFill, backFill).book;
            && (Flips(b, a, back) <==> OppositeAndSmaller(b, front, back))
            && a.tradePnls == if OppositeAndSmaller(b, front, back)
                              then b.tradePnls + [Get(b.openTradePnl, back) + RealizedIn(a, back) - RealizedIn(b, back)]
                              else b.tradePnls
  {
    var closed, both := RollShape(b, front, back, frontFill, backFill);
    LegsBook(b, closed, both, front, back, frontFill, backFill);
  }

  /** Long two front, short one back, rolled: the back turns long and its bet is booked. */
  lemma RollCanFlip(front: Contract, back: Contract)
    requires front != back && MultiplierFor(front).Some? && MultiplierFor(back).Some?
    ensures var held := [Fill(front, Buy, 2, 100.0)] + [Fill(back, Sell, 1, 100.0)];
            var ops := held + [RollOver(front, back, 110.0, 120.0)];
            && Run(EMPTY_BOOK, held).Some? && Run(EMPTY_BOOK, ops).Some?
            && Flips(Run(EMPTY_BOOK, held).value, Run(EMPTY_BOOK, ops).value, back)
            && |Run(EMPTY_BOOK, ops).value.tradePnls| == |Run(EMPTY_BOOK, held).value.tradePnls| + 1
  {
    var b1 := EMPTY_BOOK.(positions := map[front := Position(2, 100.0, 0.0)]);
    var b2 := b1.(positions := b1.positions[back := Position(-1, 100.0, 0.0)]);
    assert [] + [Fill(front, Buy, 2, 100.0)] == [Fill(front, Buy, 2, 100.0)];
    RunAppend(EMPTY_BOOK, [], Fill(front, Buy, 2, 100.0));
    RunAppend(EMPTY_BOOK, [Fill(front, Buy, 2, 100.0)], Fill(back, Sell, 1, 100.0));
    FlippingRoll(b2, front, back);
    RunAppend(EMPTY_BOOK, [Fill(front, Buy, 2, 100.0)] + [Fill(back, Sell, 1, 100.0)], RollOver(front, back, 110.0, 120.0));
  }

  lemma FlippingRoll(b: Book, front: Contract, back: Contract)
    requires front != back && MultiplierFor(front).Some? && MultiplierFor(back).Some?
    requires b.positions == map[front := Position(2, 100.0, 0.0), back := Position(-1, 100.0, 0.0)]
    ensures Roll(b, front, back, 110.0, 120.0).Done?
    ensures Flips(b, Roll(b, front, back, 110.0, 120.0).book, back)
    ensures |Roll(b, front, back, 110.0, 120.0).book.tradePnls| == |b.tradePnls| + 1
  {
    RollFlipsExactly(b, front, back, 110.0, 120.0);
  }

  // ---------------------------------------------------------------------------------------------
  // When a roll keeps whole bets
  // ---------------------------------------------------------------------------------------------

  /** A roll keeps the ledger's trades whole bets if and only if the back contract is flat, held the same way,
    * or held the opposite way with a larger quantity: when it cancels the back a bet ends that is never
    * booked, and when it flips the back a trade is booked for a bet that has not ended. */
  lemma RollTracksExactly(b: Book, t: Tape, front: Contract, back: Contract, frontFill: real, backFill: real)
    requires Tracks(b, t) && front != back && Quantity(b, front) != 0 && Roll(b, front, back, frontFill, backFill).Done?
    ensures Tracks(Roll(b, front, back, frontFill, backFill).book, TapeRoll(t, front, back, frontFill, backFill)) <==> KeepsBets(b, front, back)
  {
    if KeepsBets(b, front, back) {
      RollTracks(b, t, front, back, frontFill, backFill);
    } else if OppositeAndSmaller(b, front, back) {
      RollFlipsExactly(b, front, back, frontFill, backFill);
    } else {
      CancelledLosesTrack(b, t, front, back, frontFill, backFill);
    }
  }

  lemma CancelledLosesTrack(b: Book, t: Tape, front: Contract, back: Contract, frontFill: real, backFill: real)
    requires TracksContract(b, t, front) && front != back && Quantity(b, front) != 0 && Roll(b, front, back, frontFill, backFill).Done?
    requires Quantity(b, back) == -Quantity(b, front)
    ensures !TracksContract(Roll(b, front, back, frontFill, backFill).book, TapeRoll(t, front, back, frontFill, backFill), back)
  {
    RollQuantity(b, front, back, frontFill, backFill);
    assert Running(TapeRoll(t, front, back, frontFill, backFill), back) != [];
  }

  lemma RollQuantity(b: Book, front: Contract, back: Contract, frontFill: real, backFill: real)
    requires front != back && Quantity(b, front) != 0 && Roll(b, front, back, frontFill, backFill).Done?
    ensures Quantity(Roll(b, front, back, frontFill, backFill).book, back) == Quantity(b, back) + Quantity(b, front)
  {
    var closed, both := RollShape(b, front, back, frontFill, backFill);
    LegTally(b, front, -Quantity(b, front), frontFill);
    LegTally(closed, back, Quantity(b, front), backFill);
  }
}

/**
 * The simulator's trading and playback state: a cursor over the loaded
 * candles, a cash balance, and the open positions, each priced at the bid
 * (the current close) or the ask (the close plus a fixed spread).
 */
module Trading {
  import opened Candles

  datatype Side = Buy | Sell

  /** Bid, ask and the time label of the current candle. */
  datatype Quote = Quote(bid: real, ask: real, time: string)

  datatype Position = Position(id: int, side: Side, lot: real, units: real, entryPrice: real, time: string)

  /** What the status bar shows: nothing without data, else the unrealized PnL and the equity. */
  datatype Totals = NoData | Totals(unrealized: real, equity: real)

  const InitialBalance: real := 1000000.0
  const Spread: real := 0.003
  const UnitsPerLot: real := 100000.0
  /** Candles of history shown before the cursor when a file is loaded. */
  const StartHistory: int := 60

  /** A position is opened at the price the trader pays: the ask for BUY, the bid for SELL. */
  function EntryPrice(side: Side, q: Quote): real
  {
    if side == Buy then q.ask else q.bid
  }

  /** A position is closed at the opposite price: the bid for BUY, the ask for SELL. */
  function ExitPrice(side: Side, q: Quote): real
  {
    if side == Buy then q.bid else q.ask
  }

  function Direction(side: Side): (d: real)
    ensures d == 1.0 || d == -1.0
  {
    if side == Buy then 1.0 else -1.0
  }

  /** (exit - entry) * units * direction at quote `q`: a position gains exactly when the market moved its way. */
  function PositionPnl(p: Position, q: Quote): (r: real)
    ensures p.units > 0.0 ==> (r > 0.0 <==> if p.side == Buy then q.bid > p.entryPrice else q.ask < p.entryPrice)
    ensures p.units > 0.0 ==> (r == 0.0 <==> ExitPrice(p.side, q) == p.entryPrice)
  {
    (ExitPrice(p.side, q) - p.entryPrice) * p.units * Direction(p.side)
  }

  /** The unrealized PnL of a list of positions: the sum of their PnLs. */
  function TotalPnl(ps: seq<Position>, q: Quote): real
  {
    if ps == [] then 0.0 else TotalPnl(ps[..|ps| - 1], q) + PositionPnl(ps[|ps| - 1], q)
  }

  /** `findIndex(p => p.id === id)`: the first position with that id, or -1. */
  function FindIndex(ps: seq<Position>, id: int): (i: int)
    ensures -1 <= i < |ps|
    ensures i == -1 <==> forall j :: 0 <= j < |ps| ==> ps[j].id != id
    ensures i >= 0 ==> ps[i].id == id && forall j :: 0 <= j < i ==> ps[j].id != id
  {
    if ps == [] then -1
    else if ps[0].id == id then 0
    else
      var k := FindIndex(ps[1..], id);
      assert forall j :: 1 <= j < |ps| ==> ps[j] == ps[1..][j - 1];
      if k == -1 then -1 else k + 1
  }

  /** `splice(i, 1)`: the list without its i-th element, the others in order. */
  function RemoveAt(ps: seq<Position>, i: nat): (r: seq<Position>)
    requires i < |ps|
    ensures |r| == |ps| - 1
    ensures forall j :: 0 <= j < i ==> r[j] == ps[j]
    ensures forall j :: i <= j < |r| ==> r[j] == ps[j + 1]
  {
    ps[..i] + ps[i + 1..]
  }

  /** Equity: the balance plus the unrealized PnL of every open position. */
  function Equity(balance: real, ps: seq<Position>, q: Quote): real
  {
    balance + TotalPnl(ps, q)
  }

  lemma {:induction false} TotalPnlConcat(a: seq<Position>, b: seq<Position>, q: Quote)
    ensures TotalPnl(a + b, q) == TotalPnl(a, q) + TotalPnl(b, q)
    decreases |b|
  {
    if b == [] {
      assert a + b == a;
    } else {
      var init := b[..|b| - 1];
      TotalPnlConcat(a, init, q);
      assert (a + b)[..|a + b| - 1] == a + init;
    }
  }

  /** Removing one position takes exactly its PnL out of the total. */
  lemma TotalPnlRemoveAt(ps: seq<Position>, i: nat, q: Quote)
    requires i < |ps|
    ensures TotalPnl(ps, q) == TotalPnl(RemoveAt(ps, i), q) + PositionPnl(ps[i], q)
  {
    assert ps == ps[..i] + [ps[i]] + ps[i + 1..];
    TotalPnlConcat(ps[..i] + [ps[i]], ps[i + 1..], q);
    TotalPnlConcat(ps[..i], [ps[i]], q);
    TotalPnlConcat(ps[..i], ps[i + 1..], q);
    assert TotalPnl([ps[i]], q) == PositionPnl(ps[i], q) by {
      assert [ps[i]][..0] == [];
    }
  }

  /** Realising a position's PnL into the balance while removing it leaves the equity unchanged. */
  lemma CloseKeepsEquity(balance: real, ps: seq<Position>, i: nat, q: Quote)
    requires i < |ps|
    ensures Equity(balance + PositionPnl(ps[i], q), RemoveAt(ps, i), q) == Equity(balance, ps, q)
  {
    TotalPnlRemoveAt(ps, i, q);
  }

  /** Appending one position adds exactly its PnL to the total. */
  lemma TotalPnlAppend(ps: seq<Position>, p: Position, q: Quote)
    ensures TotalPnl(ps + [p], q) == TotalPnl(ps, q) + PositionPnl(p, q)
  {
    assert (ps + [p])[..|ps|] == ps;
  }

  /**
   * A position just opened at a quote whose ask is the bid plus the spread
   * is worth -spread * units at that quote, whichever its side: a round
   * trip at one cursor costs the spread.
   */
  lemma FreshPositionCostsSpread(id: int, side: Side, lot: real, q: Quote)
    requires q.ask == q.bid + Spread
    ensures PositionPnl(Position(id, side, lot, lot * UnitsPerLot, EntryPrice(side, q), q.time), q) == -(Spread * lot * UnitsPerLot)
  {
    var units := lot * UnitsPerLot;
    if side == Buy {
      assert (q.bid - q.ask) * units * 1.0 == -(Spread * units);
    } else {
      assert (q.ask - q.bid) * units * -1.0 == -(Spread * units);
    }
  }

  /** A position appended under a new id is the one `findIndex` finds, and removing it restores the list. */
  lemma AppendedIdIsLast(ps: seq<Position>, p: Position)
    requires FindIndex(ps, p.id) == -1
    ensures FindIndex(ps + [p], p.id) == |ps|
    ensures RemoveAt(ps + [p], |ps|) == ps
  {
    var qs := ps + [p];
    var i := FindIndex(qs, p.id);
    assert qs[|ps|].id == p.id;
    assert 0 <= i && qs[i].id == p.id;
    assert forall j :: 0 <= j < |ps| ==> qs[j] == ps[j];
    assert qs[..|ps|] == ps;
  }

  class App {
    var data: seq<Candle>
    var currentIndex: int
    var balance: real
    var positions: seq<Position>
    var isPlaying: bool

    /** The cursor is on a loaded candle whenever there is data. */
    ghost predicate Valid()
      reads this
    {
      |data| > 0 ==> 0 <= currentIndex < |data|
    }

    /** The state before any file is loaded. */
    constructor()
      ensures Valid()
      ensures data == [] && currentIndex == 0 && balance == InitialBalance && positions == [] && !isPlaying
    {
      data := [];
      currentIndex := 0;
      balance := InitialBalance;
      positions := [];
      isPlaying := false;
    }

    /** `getCurrentPrice`: bid and ask at the cursor, both 0 without data. */
    function CurrentPrice(): (q: Quote)
      requires Valid()
      reads this
      ensures |data| == 0 ==> q.bid == 0.0 && q.ask == 0.0
      ensures |data| > 0 ==> q.bid == data[currentIndex].close && q.ask - q.bid == Spread
      ensures |data| > 0 ==> q.time == data[currentIndex].timeStr
    {
      if |data| == 0 then Quote(0.0, 0.0, "")
      else
        var candle := data[currentIndex];
        Quote(candle.close, candle.close + Spread, candle.timeStr)
    }

    /** The end of `parseCSV`: the new candles replace the data and the cursor starts 60 candles in, or on the last one. */
    method LoadData(candles: seq<Candle>)
      modifies this
      ensures Valid()
      ensures data == candles
      ensures currentIndex == (if StartHistory < |candles| - 1 then StartHistory else |candles| - 1)
      ensures |candles| > 0 ==> 0 <= currentIndex <= StartHistory
      ensures balance == old(balance) && positions == old(positions) && isPlaying == old(isPlaying)
    {
      data := candles;
      currentIndex := if StartHistory < |candles| - 1 then StartHistory else |candles| - 1;
    }

    /** `play`: starts the replay, but only once candles are loaded. */
    method Play()
      requires Valid()
      modifies this
      ensures Valid()
      ensures isPlaying == (|data| > 0 || old(isPlaying))
      ensures data == old(data) && currentIndex == old(currentIndex)
      ensures balance == old(balance) && positions == old(positions)
    {
      if |data| == 0 {
        return;
      }
      isPlaying := true;
    }

    /** `pause`: stops the replay and changes nothing else. */
    method Pause()
      requires Valid()
      modifies this
      ensures Valid()
      ensures !isPlaying
      ensures data == old(data) && currentIndex == old(currentIndex)
      ensures balance == old(balance) && positions == old(positions)
    {
      isPlaying := false;
    }

    /** `togglePlay`: pauses a running replay, otherwise plays. */
    method TogglePlay()
      requires Valid()
      modifies this
      ensures Valid()
      ensures old(isPlaying) ==> !isPlaying
      ensures !old(isPlaying) ==> isPlaying == (|data| > 0)
      ensures data == old(data) && currentIndex == old(currentIndex)
      ensures balance == old(balance) && positions == old(positions)
    {
      if isPlaying {
        Pause();
      } else {
        Play();
      }
    }

    /** `nextCandle`: one step forward, or a pause at the last candle. The cursor never passes the end. */
    method NextCandle()
      requires Valid()
      modifies this
      ensures Valid()
      ensures old(currentIndex) >= |data| - 1 ==> currentIndex == old(currentIndex) && !isPlaying
      ensures old(currentIndex) < |data| - 1 ==> currentIndex == old(currentIndex) + 1 && isPlaying == old(isPlaying)
      ensures data == old(data) && balance == old(balance) && positions == old(positions)
    {
      if currentIndex >= |data| - 1 {
        Pause();
        return;
      }
      currentIndex := currentIndex + 1;
    }

    /** `resetSim`: back to the first candle, the initial balance and no positions, paused. */
    method ResetSim()
      modifies this
      ensures Valid()
      ensures currentIndex == 0 && balance == InitialBalance && positions == [] && !isPlaying
      ensures data == old(data)
    {
      isPlaying := false;  // the effect of `pause`, which needs no valid cursor here
      currentIndex := 0;
      balance := InitialBalance;
      positions := [];
    }

    /**
     * `openPosition`: with data, one position is appended at the entry
     * price of its side; the balance is untouched and the equity drops by
     * the spread on its units.
     */
    method OpenPosition(side: Side, lot: real, id: int)
      requires Valid()
      modifies this
      ensures Valid()
      ensures |data| == 0 ==> positions == old(positions)
      ensures |data| > 0 ==>
        positions == old(positions) + [Position(id, side, lot, lot * UnitsPerLot, EntryPrice(side, old(CurrentPrice())), old(CurrentPrice()).time)]
      ensures |data| > 0 ==>
        Equity(balance, positions, CurrentPrice()) == old(Equity(balance, positions, CurrentPrice())) - Spread * lot * UnitsPerLot
      ensures data == old(data) && currentIndex == old(currentIndex)
      ensures balance == old(balance) && isPlaying == old(isPlaying)
    {
      if |data| == 0 {
        return;
      }
      var priceData := CurrentPrice();
      var units := lot * 100000.0;
      var entryPrice := if side == Buy then priceData.ask else priceData.bid;
      var position := Position(id, side, lot, units, entryPrice, priceData.time);
      positions := positions + [position];
      assert CurrentPrice() == priceData;
      assert position == Position(id, side, lot, lot * UnitsPerLot, EntryPrice(side, priceData), priceData.time);
      TotalPnlAppend(old(positions), position, priceData);
      FreshPositionCostsSpread(id, side, lot, priceData);
    }

    /**
     * `closePosition`: an unknown id changes nothing; otherwise the first
     * position with that id is removed, its PnL at the current quote is
     * realised into the balance, and the equity is unchanged.
     */
    method ClosePosition(id: int)
      requires Valid()
      modifies this
      ensures Valid()
      ensures FindIndex(old(positions), id) == -1 ==> positions == old(positions) && balance == old(balance)
      ensures var i := FindIndex(old(positions), id);
        i >= 0 ==> positions == RemoveAt(old(positions), i) &&
                   balance == old(balance) + PositionPnl(old(positions)[i], CurrentPrice())
      ensures Equity(balance, positions, CurrentPrice()) == old(Equity(balance, positions, CurrentPrice()))
      ensures data == old(data) && currentIndex == old(currentIndex) && isPlaying == old(isPlaying)
    {
      var index := FindIndex(positions, id);
      if index == -1 {
        return;
      }
      var currentPrices := CurrentPrice();
      var pnl := PositionPnl(positions[index], currentPrices);
      CloseKeepsEquity(balance, positions, index, currentPrices);
      balance := balance + pnl;
      positions := RemoveAt(positions, index);
      assert CurrentPrice() == currentPrices;
      assert Equity(balance, positions, currentPrices) == Equity(old(balance), old(positions), currentPrices);
    }

    /** The unrealized-PnL loop of `updateUI`, which shows nothing without data. */
    method UpdateTotals() returns (t: Totals)
      requires Valid()
      ensures |data| == 0 ==> t == NoData
      ensures |data| > 0 ==> t == Totals(TotalPnl(positions, CurrentPrice()), Equity(balance, positions, CurrentPrice()))
    {
      if |data| == 0 {
        return NoData;
      }
      var prices := CurrentPrice();
      var totalUnrealizedPnl := 0.0;
      for i := 0 to |positions|
        invariant totalUnrealizedPnl == TotalPnl(positions[..i], prices)
      {
        var pos := positions[i];
        var exitPrice := if pos.side == Buy then prices.bid else prices.ask;
        var direction := if pos.side == Buy then 1.0 else -1.0;
        totalUnrealizedPnl := totalUnrealizedPnl + (exitPrice - pos.entryPrice) * pos.units * direction;
        assert positions[..i + 1][..i] == positions[..i];
      }
      assert positions[..|positions|] == positions;
      t := Totals(totalUnrealizedPnl, balance + totalUnrealizedPnl);
    }
  }

  /**
   * Opening a position and closing it again at the same cursor leaves the
   * balance lower by exactly the spread on its units.
   */
  method OpenThenClose(app: App, side: Side, lot: real, id: int)
    requires app.Valid() && |app.data| > 0
    requires FindIndex(app.positions, id) == -1
    modifies app
    ensures app.balance == old(app.balance) - Spread * lot * UnitsPerLot
    ensures app.positions == old(app.positions)
  {
    ghost var before, q := app.positions, app.CurrentPrice();
    ghost var added := Position(id, side, lot, lot * UnitsPerLot, EntryPrice(side, q), q.time);
    app.OpenPosition(side, lot, id);
    assert app.positions == before + [added];
    assert app.CurrentPrice() == q;
    AppendedIdIsLast(before, added);
    FreshPositionCostsSpread(id, side, lot, q);
    app.ClosePosition(id);
  }
}

/** The signal lifecycle evaluator (`updateSignalStatuses`): each pending or
    active signal with a price tick for its pair may close on take-profit,
    close on stop-loss or activate, and its row is written back when its
    status or its price changed. The `signals` table is an in-memory sequence
    of rows; the select, the updates and their failures are modelled, the
    logging and the clock are not (the write timestamp is a parameter). */
module SignalEvaluator {
  import opened Wrappers
  import opened JsMath
  import opened Text
  import opened Trading
  import opened PriceFeed

  datatype Status = Pending | Active | Closed

  /** A row of the `signals` table. `currentPrice` and `pnl` are `None` when
      the column is null. */
  datatype Signal = Signal(
    id: string,
    pair: string,
    kind: TradeType,
    entryPrice: real,
    takeProfitLevels: seq<real>,
    stopLoss: real,
    status: Status,
    tpHit: bool,
    slHit: bool,
    currentPrice: Option<real>,
    pnl: Option<real>,
    updatedAt: string)

  /** The statuses the evaluator loads: `.in('status', ['active', 'pending'])`. */
  predicate IsOpen(status: Status) {
    status == Pending || status == Active
  }

  /** BUY takes profit at or above a level, SELL at or below it. */
  predicate TakeProfitReached(kind: TradeType, price: real, level: real) {
    match kind
    case Buy => price >= level
    case Sell => price <= level
  }

  /** BUY stops out at or below the stop, SELL at or above it. */
  predicate StopLossReached(kind: TradeType, price: real, stopLoss: real) {
    match kind
    case Buy => price <= stopLoss
    case Sell => price >= stopLoss
  }

  /** The simplified P&L written on closure, take-profit and stop-loss alike. */
  function ClosingPnl(kind: TradeType, entry: real, price: real): real {
    match kind
    case Buy => (price - entry) * 100.0
    case Sell => (entry - price) * 100.0
  }

  /** `signal.pnl || 0`. */
  function StoredPnl(s: Signal): real {
    s.pnl.GetOr(0.0)
  }

  /** The 0.1% activation band around the entry price. */
  predicate WithinEntryTolerance(entry: real, price: real) {
    Abs(price - entry) <= entry * 0.001
  }

  predicate SomeLevelReached(s: Signal, price: real) {
    exists i :: 0 <= i < |s.takeProfitLevels| && TakeProfitReached(s.kind, price, s.takeProfitLevels[i])
  }

  /** The locals of one loop iteration once all checks have run. */
  datatype Evaluation = Evaluation(status: Status, tpHit: bool, slHit: bool, pnl: real, statusChanged: bool)

  /** Take-profit fires in this pass. */
  predicate TakeProfitFires(s: Signal, price: real) {
    !s.tpHit && SomeLevelReached(s, price)
  }

  /** Stop-loss fires in this pass: only when neither flag is set, counting a
      take-profit that fired earlier in the same pass. */
  predicate StopLossFires(s: Signal, price: real) {
    !s.slHit && !s.tpHit && !TakeProfitFires(s, price) && StopLossReached(s.kind, price, s.stopLoss)
  }

  /** The activation check; it runs last and overrides a closure. */
  predicate Activates(s: Signal, price: real) {
    s.status == Pending && WithinEntryTolerance(s.entryPrice, price)
  }

  /** The outcome of evaluating one signal against a price, stated rule by
      rule rather than as the scan the source performs. */
  function Evaluate(s: Signal, price: real): Evaluation {
    var closes := TakeProfitFires(s, price) || StopLossFires(s, price);
    Evaluation(
      status := if Activates(s, price) then Active else if closes then Closed else s.status,
      tpHit := s.tpHit || TakeProfitFires(s, price),
      slHit := s.slHit || StopLossFires(s, price),
      pnl := if closes then ClosingPnl(s.kind, s.entryPrice, price) else StoredPnl(s),
      statusChanged := closes || Activates(s, price))
  }

  /** The body of the source's loop for one signal: a first-match scan of
      the take-profit levels that stops at the first hit, then the stop-loss
      check, then the activation check. */
  method EvaluateSignal(s: Signal, currentPrice: real) returns (e: Evaluation)
    ensures e == Evaluate(s, currentPrice)
  {
    var statusChanged := false;
    var newStatus := s.status;
    var tpHit := s.tpHit;
    var slHit := s.slHit;
    var pnl := StoredPnl(s);

    var levels := s.takeProfitLevels;
    var i := 0;
    while i < |levels|
      invariant 0 <= i <= |levels|
      invariant tpHit == s.tpHit && newStatus == s.status && pnl == StoredPnl(s) && !statusChanged
      invariant !s.tpHit ==> forall j :: 0 <= j < i ==> !TakeProfitReached(s.kind, currentPrice, levels[j])
    {
      if TakeProfitReached(s.kind, currentPrice, levels[i]) && !tpHit {
        tpHit := true;
        newStatus := Closed;
        pnl := ClosingPnl(s.kind, s.entryPrice, currentPrice);
        statusChanged := true;
        break;
      }
      i := i + 1;
    }

    if StopLossReached(s.kind, currentPrice, s.stopLoss) && !slHit && !tpHit {
      slHit := true;
      newStatus := Closed;
      pnl := ClosingPnl(s.kind, s.entryPrice, currentPrice);
      statusChanged := true;
    }

    if s.status == Pending {
      if WithinEntryTolerance(s.entryPrice, currentPrice) {
        newStatus := Active;
        statusChanged := true;
      }
    }

    e := Evaluation(newStatus, tpHit, slHit, pnl, statusChanged);
  }

  /** The index of the first tick whose pair equals `pair` ignoring case,
      or |prices| when there is none. */
  function FirstMatch(prices: seq<PriceData>, pair: string): (i: nat)
    ensures i <= |prices|
    ensures i < |prices| ==> Upper(prices[i].pair) == Upper(pair)
    ensures forall j :: 0 <= j < i ==> Upper(prices[j].pair) != Upper(pair)
  {
    if prices == [] then 0
    else if Upper(prices[0].pair) == Upper(pair) then 0
    else 1 + FirstMatch(prices[1..], pair)
  }

  /** `priceData.find(p => p.pair.toUpperCase() === signal.pair.toUpperCase())`. */
  function PriceFor(prices: seq<PriceData>, pair: string): Option<PriceData> {
    var i := FirstMatch(prices, pair);
    if i < |prices| then Some(prices[i]) else None
  }

  /** A loaded signal is written back when it has a tick and either its
      status changed or the tick's price differs from the stored one. */
  predicate NeedsWrite(s: Signal, prices: seq<PriceData>) {
    match PriceFor(prices, s.pair)
    case None => false
    case Some(p) => Evaluate(s, p.currentPrice).statusChanged || s.currentPrice != Some(p.currentPrice)
  }

  /** The columns one update writes. */
  datatype SignalUpdate = SignalUpdate(
    currentPrice: real, status: Status, tpHit: bool, slHit: bool, pnl: real, updatedAt: string)

  /** The update issued for a loaded signal that needs one. */
  function PlannedUpdate(s: Signal, prices: seq<PriceData>, now: string): SignalUpdate
    requires NeedsWrite(s, prices)
  {
    var price := PriceFor(prices, s.pair).value.currentPrice;
    var e := Evaluate(s, price);
    SignalUpdate(price, e.status, e.tpHit, e.slHit, e.pnl, now)
  }

  /** A row after an update: the six written columns replaced, the
      identity, pair, side, entry, levels and stop unchanged. */
  function Apply(row: Signal, u: SignalUpdate): (r: Signal)
    ensures r.id == row.id && r.pair == row.pair && r.kind == row.kind
    ensures r.entryPrice == row.entryPrice && r.takeProfitLevels == row.takeProfitLevels
    ensures r.stopLoss == row.stopLoss
    ensures r.currentPrice == Some(u.currentPrice) && r.status == u.status && r.tpHit == u.tpHit
    ensures r.slHit == u.slHit && r.pnl == Some(u.pnl) && r.updatedAt == u.updatedAt
  {
    row.(currentPrice := Some(u.currentPrice), status := u.status, tpHit := u.tpHit,
         slHit := u.slHit, pnl := Some(u.pnl), updatedAt := u.updatedAt)
  }

  /** A row after one pass: closed rows are not loaded, rows without a tick
      or without a change are not written, and a write whose id is in
      `failed` leaves the row as it was. */
  function RowAfter(row: Signal, prices: seq<PriceData>, failed: set<string>, now: string): Signal {
    if IsOpen(row.status) && NeedsWrite(row, prices) && row.id !in failed
    then Apply(row, PlannedUpdate(row, prices, now))
    else row
  }

  function AfterPass(rows: seq<Signal>, prices: seq<PriceData>, failed: set<string>, now: string): seq<Signal> {
    seq(|rows|, j requires 0 <= j < |rows| => RowAfter(rows[j], prices, failed, now))
  }

  /** The rows the select returns, in table order. */
  function Loaded(rows: seq<Signal>): (out: seq<Signal>)
    ensures |out| <= |rows|
    ensures forall x :: x in out <==> x in rows && IsOpen(x.status)
  {
    if rows == [] then []
    else if IsOpen(rows[0].status) then [rows[0]] + Loaded(rows[1..])
    else Loaded(rows[1..])
  }

  /** The ids written to, in order (from the last element, as the loop
      appends). */
  function Attempts(signals: seq<Signal>, prices: seq<PriceData>): seq<string> {
    if signals == [] then []
    else
      var last := signals[|signals| - 1];
      Attempts(signals[..|signals| - 1], prices) + (if NeedsWrite(last, prices) then [last.id] else [])
  }

  predicate UniqueIds(rows: seq<Signal>) {
    forall i, j :: 0 <= i < |rows| && 0 <= j < |rows| && rows[i].id == rows[j].id ==> i == j
  }

  function IdsOf(rows: seq<Signal>): set<string> {
    set x | x in rows :: x.id
  }

  lemma {:induction false} LoadedUnique(rows: seq<Signal>)
    requires UniqueIds(rows)
    ensures UniqueIds(Loaded(rows))
  {
    if rows != [] {
      var rest := rows[1..];
      assert UniqueIds(rest) by {
        forall i, j | 0 <= i < |rest| && 0 <= j < |rest| && rest[i].id == rest[j].id
          ensures i == j
        {
          assert rows[i + 1].id == rows[j + 1].id;
        }
      }
      LoadedUnique(rest);
      if IsOpen(rows[0].status) {
        var tail := Loaded(rest);
        forall k | 0 <= k < |tail| ensures tail[k].id != rows[0].id {
          assert tail[k] in rest;
          var m :| 0 <= m < |rest| && rest[m] == tail[k];
          assert rows[m + 1] == tail[k];
        }
        ConsUnique(rows[0], tail);
      }
    }
  }

  lemma ConsUnique(x: Signal, tail: seq<Signal>)
    requires UniqueIds(tail)
    requires forall k :: 0 <= k < |tail| ==> tail[k].id != x.id
    ensures UniqueIds([x] + tail)
  {
    var out := [x] + tail;
    forall i, j | 0 <= i < |out| && 0 <= j < |out| && out[i].id == out[j].id
      ensures i == j
    {
      if i > 0 && j > 0 {
        assert tail[i - 1].id == tail[j - 1].id;
      }
    }
  }

  lemma SameIdSameRow(rows: seq<Signal>, x: Signal, j: int)
    requires UniqueIds(rows) && x in rows && 0 <= j < |rows| && rows[j].id == x.id
    ensures rows[j] == x
  {
    var m :| 0 <= m < |rows| && rows[m] == x;
  }

  /** In a list with unique ids, the k-th id is not among the ones before. */
  lemma PrefixIds(signals: seq<Signal>, k: nat)
    requires UniqueIds(signals) && k < |signals|
    ensures signals[k].id !in IdsOf(signals[..k])
    ensures IdsOf(signals[..k + 1]) == IdsOf(signals[..k]) + {signals[k].id}
  {
    assert signals[..k + 1] == signals[..k] + [signals[k]];
  }

  /** The rows with that id get the update: `.update(u).eq('id', id)`. */
  function UpdateById(rows: seq<Signal>, id: string, u: SignalUpdate): (r: seq<Signal>)
    ensures |r| == |rows|
  {
    seq(|rows|, j requires 0 <= j < |rows| => if rows[j].id == id then Apply(rows[j], u) else rows[j])
  }

  /** The table once the signals whose ids are in `done` have been processed. */
  function PartialPass(rows: seq<Signal>, done: set<string>, prices: seq<PriceData>, failed: set<string>, now: string): (r: seq<Signal>)
    ensures |r| == |rows|
  {
    seq(|rows|, j requires 0 <= j < |rows| => if rows[j].id in done then RowAfter(rows[j], prices, failed, now) else rows[j])
  }

  /** Processing one more loaded signal updates exactly its own row. */
  lemma PassStep(rows: seq<Signal>, done: set<string>, signal: Signal, prices: seq<PriceData>, failed: set<string>, now: string)
    requires UniqueIds(rows) && signal in rows && IsOpen(signal.status) && signal.id !in done
    ensures var cur := PartialPass(rows, done, prices, failed, now);
      PartialPass(rows, done + {signal.id}, prices, failed, now) ==
        if NeedsWrite(signal, prices) && signal.id !in failed
        then UpdateById(cur, signal.id, PlannedUpdate(signal, prices, now))
        else cur
  {
    forall j | 0 <= j < |rows| && rows[j].id == signal.id ensures rows[j] == signal {
      SameIdSameRow(rows, signal, j);
    }
  }

  /** Once every loaded signal is processed, the table is the pass's result. */
  lemma PassDone(rows: seq<Signal>, prices: seq<PriceData>, failed: set<string>, now: string)
    ensures PartialPass(rows, IdsOf(Loaded(rows)), prices, failed, now) == AfterPass(rows, prices, failed, now)
  {
    forall j | 0 <= j < |rows| && IsOpen(rows[j].status) ensures rows[j].id in IdsOf(Loaded(rows)) {
      assert rows[j] in Loaded(rows);
    }
  }

  /** The `signals` table. Ids are unique (the primary key). */
  class SignalStore {
    var rows: seq<Signal>

    ghost predicate Valid()
      reads this
    {
      UniqueIds(rows)
    }

    constructor (initial: seq<Signal>)
      requires UniqueIds(initial)
      ensures Valid() && rows == initial
    {
      rows := initial;
    }

    /** `.update({...}).eq('id', id)`: every row with that id gets the six
        columns, unless the write fails. */
    method UpdateRow(id: string, u: SignalUpdate, failed: set<string>) returns (ok: bool)
      requires Valid()
      modifies this
      ensures Valid()
      ensures ok == (id !in failed)
      ensures rows == if ok then UpdateById(old(rows), id, u) else old(rows)
    {
      ok := id !in failed;
      if ok {
        UniqueAfterUpdate(rows, id, u);
        rows := UpdateById(rows, id, u);
      }
    }

    /** `updateSignalStatuses`: `loadFailed` is a failed select, `failed` the
        ids whose update returns an error, `now` the write timestamp.
        Returns the ids written to, in order. */
    method UpdateSignalStatuses(prices: seq<PriceData>, loadFailed: bool, failed: set<string>, now: string)
      returns (attempted: seq<string>)
      requires Valid()
      modifies this
      ensures Valid()
      ensures rows == if loadFailed then old(rows) else AfterPass(old(rows), prices, failed, now)
      ensures attempted == if loadFailed then [] else Attempts(Loaded(old(rows)), prices)
    {
      attempted := [];
      if loadFailed {
        return;
      }
      var signals := Loaded(rows);
      ghost var rows0 := rows;
      LoadedUnique(rows0);

      var k := 0;
      while k < |signals|
        invariant 0 <= k <= |signals|
        invariant Valid()
        invariant rows == PartialPass(rows0, IdsOf(signals[..k]), prices, failed, now)
        invariant attempted == Attempts(signals[..k], prices)
      {
        var signal := signals[k];
        PrefixIds(signals, k);
        PassStep(rows0, IdsOf(signals[..k]), signal, prices, failed, now);
        assert signals[..k + 1][..k] == signals[..k];

        var priceInfo := PriceFor(prices, signal.pair);
        if priceInfo.None? {
          k := k + 1;
          continue;
        }
        var currentPrice := priceInfo.value.currentPrice;
        var e := EvaluateSignal(signal, currentPrice);
        if e.statusChanged || signal.currentPrice != Some(currentPrice) {
          attempted := attempted + [signal.id];
          var u := SignalUpdate(currentPrice, e.status, e.tpHit, e.slHit, e.pnl, now);
          var ok := UpdateRow(signal.id, u, failed);
          // a failed update is logged and the loop goes on
        }
        k := k + 1;
      }
      assert signals[..k] == signals;
      PassDone(rows0, prices, failed, now);
    }
  }

  /** An update keeps every id, so it keeps them unique. */
  lemma UniqueAfterUpdate(rows: seq<Signal>, id: string, u: SignalUpdate)
    requires UniqueIds(rows)
    ensures UniqueIds(UpdateById(rows, id, u))
  {
    var r := UpdateById(rows, id, u);
    assert forall j :: 0 <= j < |rows| ==> r[j].id == rows[j].id;
  }

  /** A pass keeps ids, so it keeps them unique. */
  lemma UniqueAfterPass(rows: seq<Signal>, prices: seq<PriceData>, failed: set<string>, now: string)
    requires UniqueIds(rows)
    ensures UniqueIds(AfterPass(rows, prices, failed, now))
  {
    var after := AfterPass(rows, prices, failed, now);
    assert forall j :: 0 <= j < |rows| ==> after[j].id == rows[j].id;
  }

  // ---------------------------------------------------------------------
  // Properties of one evaluation

  /** BUY take-profit fires exactly when the flag was clear and some level is
      at or below the price; it sets the flag, closes the signal (unless the
      activation check overrides it) and books (price - entry) * 100. */
  lemma BuyTakeProfit(s: Signal, price: real)
    requires s.kind == Buy
    ensures var e := Evaluate(s, price);
      (!s.tpHit && e.tpHit) <==>
      (!s.tpHit && exists i :: 0 <= i < |s.takeProfitLevels| && s.takeProfitLevels[i] <= price)
    ensures var e := Evaluate(s, price);
      !s.tpHit && e.tpHit ==>
        e.pnl == (price - s.entryPrice) * 100.0 && e.statusChanged &&
        e.status == (if Activates(s, price) then Active else Closed)
  {
  }

  /** SELL take-profit fires when some level is at or above the price and
      books (entry - price) * 100, which is positive exactly when the price
      is below the entry. */
  lemma SellTakeProfit(s: Signal, price: real)
    requires s.kind == Sell
    ensures var e := Evaluate(s, price);
      (!s.tpHit && e.tpHit) <==>
      (!s.tpHit && exists i :: 0 <= i < |s.takeProfitLevels| && s.takeProfitLevels[i] >= price)
    ensures var e := Evaluate(s, price);
      !s.tpHit && e.tpHit ==>
        e.pnl == (s.entryPrice - price) * 100.0 && (e.pnl > 0.0 <==> price < s.entryPrice)
  {
  }

  /** Stop-loss fires only when neither flag is set after the take-profit
      scan; a tick that satisfies both closes on take-profit. */
  lemma StopLossRule(s: Signal, price: real)
    ensures var e := Evaluate(s, price);
      (!s.slHit && e.slHit) <==>
      (!s.slHit && !e.tpHit && StopLossReached(s.kind, price, s.stopLoss))
    ensures var e := Evaluate(s, price);
      !s.slHit && e.slHit ==> e.pnl == ClosingPnl(s.kind, s.entryPrice, price)
    ensures var e := Evaluate(s, price);
      !(!s.tpHit && e.tpHit && !s.slHit && e.slHit)
  {
  }

  /** The flags only go from false to true, and the stored P&L (0 when
      absent) is kept unless a closure fires. */
  lemma FlagsMonotone(s: Signal, price: real)
    ensures var e := Evaluate(s, price);
      (s.tpHit ==> e.tpHit) && (s.slHit ==> e.slHit) &&
      (e.tpHit == s.tpHit && e.slHit == s.slHit ==> e.pnl == StoredPnl(s))
  {
  }

  /** The checks are not gated on status: a pending signal can close, and a
      pending signal within the entry band ends up active even when a
      closure fired in the same pass. */
  lemma ActivationOverridesClosure(s: Signal, price: real)
    requires s.status == Pending && WithinEntryTolerance(s.entryPrice, price)
    ensures Evaluate(s, price).status == Active && Evaluate(s, price).statusChanged
  {
  }

  /** A pending signal whose take-profit fires in the pass that activates it
      is written back active with `tp_hit` set. From then on no price closes
      it: both closing checks need `tp_hit` clear, and it is no longer
      pending, so it stays active for good. */
  lemma TakeProfitOnActivationNeverCloses(s: Signal, p: real, q: real, now: string)
    requires s.status == Pending && !s.tpHit && SomeLevelReached(s, p) && WithinEntryTolerance(s.entryPrice, p)
    ensures var e := Evaluate(s, p);
      var written := Apply(s, SignalUpdate(p, e.status, e.tpHit, e.slHit, e.pnl, now));
      written.status == Active && written.tpHit &&
      Evaluate(written, q).status == Active && !Evaluate(written, q).statusChanged
  {
  }

  /** Only whether some level is reached matters: reordering the levels (or
      repeating them) changes nothing. */
  lemma LevelOrderIrrelevant(s: Signal, levels: seq<real>, price: real)
    requires multiset(levels) == multiset(s.takeProfitLevels)
    ensures Evaluate(s.(takeProfitLevels := levels), price) == Evaluate(s, price)
  {
    var t := s.(takeProfitLevels := levels);
    if SomeLevelReached(s, price) {
      var i :| 0 <= i < |s.takeProfitLevels| && TakeProfitReached(s.kind, price, s.takeProfitLevels[i]);
      assert s.takeProfitLevels[i] in multiset(levels);
      var j :| 0 <= j < |levels| && levels[j] == s.takeProfitLevels[i];
      assert TakeProfitReached(t.kind, price, t.takeProfitLevels[j]);
    }
    if SomeLevelReached(t, price) {
      var j :| 0 <= j < |levels| && TakeProfitReached(s.kind, price, levels[j]);
      assert levels[j] in multiset(s.takeProfitLevels);
      var i :| 0 <= i < |s.takeProfitLevels| && s.takeProfitLevels[i] == levels[j];
      assert TakeProfitReached(s.kind, price, s.takeProfitLevels[i]);
    }
  }

  /** A BUY with levels [100, 105, 110] at 107 closes on take-profit. */
  lemma FirstLevelExample(s: Signal)
    requires s.kind == Buy && s.status == Active && !s.tpHit && !s.slHit
    requires s.takeProfitLevels == [100.0, 105.0, 110.0] && s.stopLoss < 107.0
    ensures Evaluate(s, 107.0).tpHit && Evaluate(s, 107.0).status == Closed && !Evaluate(s, 107.0).slHit
  {
    assert TakeProfitReached(Buy, 107.0, s.takeProfitLevels[0]);
  }

  /** A pending signal with entry 2000 activates at 2001.5 but not at 2003. */
  lemma EntryToleranceExample(s: Signal)
    requires s.status == Pending && s.entryPrice == 2000.0
    ensures Activates(s, 2001.5)
    ensures !Activates(s, 2003.0)
  {
  }

  /** A signal without a tick for its pair (compared ignoring case) is not
      written and its row stays as it was. */
  lemma UntickedSignalUntouched(row: Signal, prices: seq<PriceData>, failed: set<string>, now: string)
    requires forall k :: 0 <= k < |prices| ==> Upper(prices[k].pair) != Upper(row.pair)
    ensures !NeedsWrite(row, prices) && RowAfter(row, prices, failed, now) == row
  {
    assert FirstMatch(prices, row.pair) == |prices|;
  }

  /** The k-th loaded signal has this id and is written back. */
  predicate WritesId(signals: seq<Signal>, prices: seq<PriceData>, id: string, k: int)
    requires 0 <= k < |signals|
  {
    signals[k].id == id && NeedsWrite(signals[k], prices)
  }

  /** An id is written to exactly when a loaded signal with that id needs a
      write. */
  lemma {:induction false} AttemptedIff(signals: seq<Signal>, prices: seq<PriceData>, id: string)
    ensures id in Attempts(signals, prices) <==> exists k :: 0 <= k < |signals| && WritesId(signals, prices, id, k)
  {
    if signals != [] {
      var n := |signals| - 1;
      var init := signals[..n];
      AttemptedIff(init, prices, id);
      var last := if NeedsWrite(signals[n], prices) then [signals[n].id] else [];
      assert Attempts(signals, prices) == Attempts(init, prices) + last;
      assert WritesId(signals, prices, id, n) <==> id in last;
      forall k | 0 <= k < n
        ensures WritesId(init, prices, id, k) == WritesId(signals, prices, id, k)
      {
        assert init[k] == signals[k];
      }
    }
  }

  // ---------------------------------------------------------------------
  // A second pass with the same prices writes nothing

  /** Writing back an evaluation and evaluating again at the same price
      changes nothing, as long as the row is still loaded. */
  lemma EvaluateSettled(s: Signal, price: real, now: string)
    ensures var e := Evaluate(s, price);
      var s' := Apply(s, SignalUpdate(price, e.status, e.tpHit, e.slHit, e.pnl, now));
      IsOpen(s'.status) ==> !Evaluate(s', price).statusChanged && s'.currentPrice == Some(price)
  {
    var e := Evaluate(s, price);
    var s' := Apply(s, SignalUpdate(price, e.status, e.tpHit, e.slHit, e.pnl, now));
    if IsOpen(s'.status) {
      assert SomeLevelReached(s', price) == SomeLevelReached(s, price);
      assert !TakeProfitFires(s', price);
    }
  }

  /** After one pass, a loaded row needs no write unless its own write
      failed. */
  lemma RowAfterSettled(row: Signal, prices: seq<PriceData>, failed: set<string>, now: string)
    ensures var x := RowAfter(row, prices, failed, now);
      IsOpen(x.status) ==> !NeedsWrite(x, prices) || x.id in failed
  {
    var x := RowAfter(row, prices, failed, now);
    if IsOpen(row.status) && NeedsWrite(row, prices) && row.id !in failed {
      var price := PriceFor(prices, row.pair).value.currentPrice;
      EvaluateSettled(row, price, now);
      assert PriceFor(prices, x.pair) == PriceFor(prices, row.pair);
    }
  }

  lemma {:induction false} AttemptsOnlyFailed(signals: seq<Signal>, prices: seq<PriceData>, failed: set<string>)
    requires forall x :: x in signals ==> !NeedsWrite(x, prices) || x.id in failed
    ensures forall id :: id in Attempts(signals, prices) ==> id in failed
    ensures failed == {} ==> Attempts(signals, prices) == []
  {
    if signals != [] {
      var init := signals[..|signals| - 1];
      assert forall x :: x in init ==> x in signals;
      AttemptsOnlyFailed(init, prices, failed);
    }
  }

  /** After one pass, every row the next pass loads needs no write unless
      its own write failed. */
  lemma LoadedAfterPassSettled(rows: seq<Signal>, prices: seq<PriceData>, failed: set<string>, now: string)
    ensures forall x :: x in Loaded(AfterPass(rows, prices, failed, now)) ==> !NeedsWrite(x, prices) || x.id in failed
  {
    var after := AfterPass(rows, prices, failed, now);
    forall x | x in Loaded(after) ensures !NeedsWrite(x, prices) || x.id in failed {
      assert x in after;
      var j :| 0 <= j < |after| && after[j] == x;
      RowAfterSettled(rows[j], prices, failed, now);
    }
  }

  /** Re-running the evaluator with the same ticks writes only to rows whose
      write failed the first time; when none failed it writes nothing. */
  lemma SecondPassWritesOnlyFailed(rows: seq<Signal>, prices: seq<PriceData>, failed: set<string>, now: string)
    ensures forall id :: id in Attempts(Loaded(AfterPass(rows, prices, failed, now)), prices) ==> id in failed
    ensures failed == {} ==> Attempts(Loaded(AfterPass(rows, prices, failed, now)), prices) == []
  {
    LoadedAfterPassSettled(rows, prices, failed, now);
    AttemptsOnlyFailed(Loaded(AfterPass(rows, prices, failed, now)), prices, failed);
  }
}

/** The `trade-executor` edge function: the ordered pre-execution checks of a
    signal, the lot-size formula, the decision flow of executing a signal
    through the MT5 bridge, closing and modifying a stored position, and the
    action dispatch that maps the outcome to the signal's status and the
    response. The clock, the open-position count, the stored position rows
    and every answer of the MT5 bridge are parameters. Times are epoch
    milliseconds. */
module TradeExecutor {
  import opened Common

  /** The columns of `trade_signals` the executor reads. A missing
      `expiry_time` is None. */
  datatype Signal = Signal(
    id: string,
    symbol: string,
    signalType: string,
    entryPrice: real,
    stopLoss: real,
    takeProfit: real,
    positionSize: real,
    confidence: real,
    expiryTime: Option<int>)

  /** The columns of `trading_accounts` the executor reads. */
  datatype Account = Account(id: string, balance: real, freeMargin: real)

  // ---------------------------------------------------------------------
  // performPreExecutionChecks

  const MinConfidence: real := 0.7
  const MaxOpenPerSymbol: nat := 3
  const MillisPerHour: int := 3600000

  /** `getUTCHours` of an epoch time: the floor division is Dafny's Euclidean
      one, as the divisor is positive. */
  function UtcHour(nowMs: int): (h: int)
    ensures 0 <= h < 24
    ensures h == (nowMs / MillisPerHour) % 24
  {
    (nowMs / MillisPerHour) % 24
  }

  /** The free margin does not cover one hundredth of the signal's notional. */
  predicate MarginShort(s: Signal, a: Account)
  {
    a.freeMargin < s.positionSize * s.entryPrice * 0.01
  }

  /** The signal has an expiry time that lies before now. */
  predicate Expired(s: Signal, nowMs: int)
  {
    s.expiryTime.Some? && s.expiryTime.value < nowMs
  }

  predicate LowConfidence(s: Signal)
  {
    s.confidence < MinConfidence
  }

  /** The basic market-hours window is 01:00 to 21:59 UTC. */
  predicate OutsideHours(hour: int)
  {
    hour < 1 || hour > 21
  }

  /** The position query returned rows, and at least three of them. A failed
      query (None) lets the check pass. */
  predicate TooManyOpen(openCount: Option<nat>)
  {
    openCount.Some? && openCount.value >= MaxOpenPerSymbol
  }

  datatype PreChecks = PreChecks(passed: bool, reason: string)

  /** `performPreExecutionChecks`: margin, expiry, confidence, market hours and
      open positions, in that order; the first failing check gives the
      reason, and the reason stays empty when all pass. */
  function CheckSignal(s: Signal, a: Account, nowMs: int, openCount: Option<nat>): (c: PreChecks)
    ensures c.passed <==>
      (!MarginShort(s, a) && !Expired(s, nowMs) && !LowConfidence(s)
       && !OutsideHours(UtcHour(nowMs)) && !TooManyOpen(openCount))
    ensures c.passed ==> c.reason == ""
    ensures MarginShort(s, a) ==> c.reason == "Insufficient margin"
    ensures (!MarginShort(s, a) && Expired(s, nowMs)) ==> c.reason == "Signal expired"
    ensures (!MarginShort(s, a) && !Expired(s, nowMs) && LowConfidence(s)) ==>
      c.reason == "Signal confidence too low"
    ensures (!MarginShort(s, a) && !Expired(s, nowMs) && !LowConfidence(s)
             && OutsideHours(UtcHour(nowMs))) ==> c.reason == "Outside market hours"
    ensures (!MarginShort(s, a) && !Expired(s, nowMs) && !LowConfidence(s)
             && !OutsideHours(UtcHour(nowMs)) && TooManyOpen(openCount)) ==>
      c.reason == "Too many open positions for symbol"
  {
    if MarginShort(s, a) then PreChecks(false, "Insufficient margin")
    else if Expired(s, nowMs) then PreChecks(false, "Signal expired")
    else if LowConfidence(s) then PreChecks(false, "Signal confidence too low")
    else if OutsideHours(UtcHour(nowMs)) then PreChecks(false, "Outside market hours")
    else if TooManyOpen(openCount) then PreChecks(false, "Too many open positions for symbol")
    else PreChecks(true, "")
  }

  /** The reason names the check that failed: each of the five reasons is
      given for exactly one check, so a reason identifies the first failure. */
  lemma CheckReasonIdentifies(s: Signal, a: Account, nowMs: int, openCount: Option<nat>)
    ensures var c := CheckSignal(s, a, nowMs, openCount);
      && (c.reason == "Insufficient margin" <==> MarginShort(s, a))
      && (c.reason == "Signal expired" <==> !MarginShort(s, a) && Expired(s, nowMs))
      && (c.reason == "Signal confidence too low" <==>
            !MarginShort(s, a) && !Expired(s, nowMs) && LowConfidence(s))
      && (c.reason == "" <==> c.passed)
  {
  }

  /** Relaxing a check never turns a passing signal into a failing one: more
      free margin, more confidence and fewer open positions all keep it
      passing. */
  lemma CheckSignalMonotone(s: Signal, a: Account, nowMs: int, openCount: Option<nat>,
                            freeMargin: real, confidence: real, fewer: Option<nat>)
    requires CheckSignal(s, a, nowMs, openCount).passed
    requires freeMargin >= a.freeMargin && confidence >= s.confidence
    requires fewer.Some? ==> openCount.Some? && fewer.value <= openCount.value
    ensures CheckSignal(s.(confidence := confidence), a.(freeMargin := freeMargin), nowMs, fewer).passed
  {
  }

  /** A confidence of exactly 0.7 passes the confidence check; anything lower
      fails it once margin and expiry have passed. */
  lemma ConfidenceBoundary(s: Signal, a: Account, nowMs: int, openCount: Option<nat>)
    requires !MarginShort(s, a) && !Expired(s, nowMs)
    ensures s.confidence == 0.7 ==> CheckSignal(s, a, nowMs, openCount).reason != "Signal confidence too low"
    ensures s.confidence < 0.7 <==> CheckSignal(s, a, nowMs, openCount).reason == "Signal confidence too low"
  {
  }

  /** Of the 24 UTC hours exactly 0, 22 and 23 are outside market hours. */
  lemma HoursBoundary(nowMs: int)
    ensures OutsideHours(UtcHour(nowMs)) <==>
      (UtcHour(nowMs) == 0 || UtcHour(nowMs) == 22 || UtcHour(nowMs) == 23)
    ensures !OutsideHours(UtcHour(nowMs)) <==> 1 <= UtcHour(nowMs) <= 21
  {
  }

  /** One millisecond before 01:00 UTC on 1 January 1970 is outside market
      hours, 01:00 itself is inside, and so is 21:59:59.999; 22:00 is not. */
  lemma HoursExamples()
    ensures OutsideHours(UtcHour(MillisPerHour - 1))
    ensures !OutsideHours(UtcHour(MillisPerHour))
    ensures !OutsideHours(UtcHour(22 * MillisPerHour - 1))
    ensures OutsideHours(UtcHour(22 * MillisPerHour))
    ensures !OutsideHours(UtcHour(24 * MillisPerHour + 5 * MillisPerHour))
  {
  }

  /** Three open positions on the symbol fail the last check, two pass it. */
  lemma OpenPositionsBoundary(s: Signal, a: Account, nowMs: int)
    requires !MarginShort(s, a) && !Expired(s, nowMs) && !LowConfidence(s) && !OutsideHours(UtcHour(nowMs))
    ensures CheckSignal(s, a, nowMs, Some(3)).reason == "Too many open positions for symbol"
    ensures CheckSignal(s, a, nowMs, Some(2)).passed
    ensures CheckSignal(s, a, nowMs, None).passed
  {
  }

  // ---------------------------------------------------------------------
  // calculatePositionSize

  const RiskPerTrade: real := 0.01
  const PipValue: real := 10.0
  const PipSize: real := 0.10
  const MaxLots: real := 0.1
  const MinLots: real := 0.01

  /** A lot size; None stands for the NaN that `0 / 0` produces when the stop
      coincides with the entry on an account with a zero balance. */
  type Lots = Option<real>

  /** `calculatePositionSize`: 1% of the balance over the stop distance in
      pips times the pip value, capped by 0.1 and by the signal's own size,
      rounded to cents and floored at 0.01. A zero stop distance divides by
      zero: a positive balance gives +Infinity (so the caps decide), a
      negative one -Infinity (so the floor decides), a zero one NaN. */
  function PositionSize(s: Signal, a: Account): (r: Lots)
    ensures r.None? <==> (s.entryPrice == s.stopLoss && a.balance == 0.0)
    ensures r.Some? ==> MinLots <= r.value <= MaxLots
  {
    var accountRisk := a.balance * RiskPerTrade;
    var distance := Abs(s.entryPrice - s.stopLoss);
    if distance == 0.0 then
      if accountRisk == 0.0 then None
      else if accountRisk > 0.0 then Some(Floored(Min(MaxLots, s.positionSize)))
      else Some(MinLots)
    else
      var pips := distance / PipSize;
      var calculated := accountRisk / (pips * PipValue);
      Some(Floored(Min(Min(calculated, MaxLots), s.positionSize)))
  }

  /** The lots that risk exactly 1% of the balance if the stop is hit: the
      formula before any cap, rounding or floor. */
  function RiskLots(balance: real, distance: real): (lots: real)
    requires distance > 0.0
    ensures lots * (distance / PipSize * PipValue) == balance * RiskPerTrade
  {
    balance * RiskPerTrade / (distance / PipSize * PipValue)
  }

  /** With a real stop distance the size is the 1%-risk lots rounded to cents
      whenever neither cap nor floor binds, and it never risks more than 1%
      of the balance beyond the rounding unless the 0.01 floor lifts it. */
  lemma PositionSizeRiskRule(s: Signal, a: Account)
    requires Abs(s.entryPrice - s.stopLoss) > 0.0
    ensures var lots := RiskLots(a.balance, Abs(s.entryPrice - s.stopLoss));
      && PositionSize(s, a).Some?
      && (MinLots <= lots <= Min(MaxLots, s.positionSize) ==> PositionSize(s, a) == Some(RoundCents(lots)))
      && PositionSize(s, a).value <= Max(MinLots, lots + 0.005)
  {
  }

  /** `Math.max(0.01, Number(x.toFixed(2)))` on a size already capped at 0.1. */
  function Floored(x: real): (r: real)
    requires x <= MaxLots
    ensures MinLots <= r <= MaxLots
    ensures x >= MinLots ==> r == RoundCents(x)
    ensures x < 0.005 ==> r == MinLots
  {
    assert RoundCents(x) <= MaxLots by {
      if x >= 0.0 {
        RoundCentsBelow(x, 10);
      }
    }
    Max(MinLots, RoundCents(x))
  }

  /** The size never exceeds the signal's own size by more than the rounding,
      unless the 0.01 floor lifts it. */
  lemma PositionSizeBelowSignal(s: Signal, a: Account)
    requires PositionSize(s, a).Some?
    ensures PositionSize(s, a).value <= Max(MinLots, s.positionSize + 0.005)
  {
  }

  /** With a stop one dollar away the risk formula is balance / 10000: a
      balance of 5000 and a signal asking for a full lot give 0.1 lots, a
      balance of 500 gives 0.05. */
  lemma PositionSizeExamples(s: Signal, a: Account)
    requires s.entryPrice == s.stopLoss + 1.0 && s.positionSize == 1.0
    ensures a.balance == 5000.0 ==> PositionSize(s, a) == Some(0.1)
    ensures a.balance == 500.0 ==> PositionSize(s, a) == Some(0.05)
    ensures a.balance <= 0.0 ==> PositionSize(s, a) == Some(MinLots)
  {
    var calculated := a.balance * RiskPerTrade / (1.0 / PipSize * PipValue);
    assert calculated == a.balance / 10000.0;
    if a.balance == 500.0 {
      RoundCentsBelow(0.05, 5);
      RoundCentsAbove(0.05, 5);
    }
    if a.balance == 5000.0 {
      RoundCentsBelow(0.1, 10);
      RoundCentsAbove(0.1, 10);
    }
  }

  // ---------------------------------------------------------------------
  // executeSignal

  datatype Side = BuyOrder | SellOrder

  /** Every signal type other than 'BUY' is sent as a sell order. */
  function SideOf(signalType: string): (d: Side)
    ensures d == BuyOrder <==> signalType == "BUY"
  {
    if signalType == "BUY" then BuyOrder else SellOrder
  }

  const MagicNumber: int := 42

  /** The insert into `trading_positions` names no status: the stored value
      is the column's default, which the table definition outside this
      function supplies and which is taken to be 'open'. */
  const DefaultPositionStatus: string := "open"

  /** The order handed to the MT5 bridge. */
  datatype Order = Order(
    symbol: string,
    side: Side,
    volume: Lots,
    price: real,
    sl: real,
    tp: real,
    comment: string,
    magic: int)

  /** The bridge's answer: a ticket and the fill price, or an error text. */
  datatype BridgeReply = Filled(ticket: string, price: real) | Refused(error: string)

  /** The row inserted into `trading_positions` after a fill. */
  datatype PositionRow = PositionRow(
    accountId: string,
    positionId: string,
    symbol: string,
    kind: string,
    volume: Lots,
    openPrice: real,
    stopLoss: real,
    takeProfit: real,
    openTime: int,
    comment: string,
    magic: int,
    status: string,
    closePrice: Option<real>,
    closeTime: Option<int>,
    profit: Option<real>,
    updatedAt: Option<int>)

  function SignalComment(s: Signal): string
  {
    "AI_SIGNAL_" + s.id
  }

  /** What `executeSignal` does: stop at a failed pre-check, send an order,
      and either store the filled position or report the bridge's error. */
  datatype Execution =
    | CheckFailed(checks: PreChecks)
    | Executed(order: Order, row: PositionRow, ticket: string, price: real)
    | BridgeFailed(order: Order, error: string)

  /** `executeSignal`, with the bridge's reply to the order as a parameter. */
  function ExecuteSignal(s: Signal, a: Account, nowMs: int, openCount: Option<nat>,
                         reply: BridgeReply): (e: Execution)
    ensures e.CheckFailed? <==> !CheckSignal(s, a, nowMs, openCount).passed
    ensures e.CheckFailed? ==> e.checks == CheckSignal(s, a, nowMs, openCount)
    ensures !e.CheckFailed? ==> var o := e.order;
      && o.side == SideOf(s.signalType)
      && o.volume == PositionSize(s, a)
      && o.price == s.entryPrice && o.sl == s.stopLoss && o.tp == s.takeProfit
      && o.symbol == s.symbol && o.comment == SignalComment(s) && o.magic == MagicNumber
    ensures e.Executed? <==> CheckSignal(s, a, nowMs, openCount).passed && reply.Filled?
    ensures e.BridgeFailed? ==> reply.Refused? && e.error == reply.error
    ensures e.Executed? ==> e.ticket == reply.ticket && e.price == reply.price
  {
    var checks := CheckSignal(s, a, nowMs, openCount);
    if !checks.passed then CheckFailed(checks)
    else
      var size := PositionSize(s, a);
      var order := Order(s.symbol, SideOf(s.signalType), size, s.entryPrice,
                         s.stopLoss, s.takeProfit, SignalComment(s), MagicNumber);
      match reply
      case Filled(ticket, price) =>
        var row := PositionRow(a.id, ticket, s.symbol, s.signalType, size, price,
                               s.stopLoss, s.takeProfit, nowMs, SignalComment(s),
                               MagicNumber, DefaultPositionStatus, None, None, None, None);
        Executed(order, row, ticket, price)
      case Refused(error) => BridgeFailed(order, error)
  }

  /** The stored position is the signal's: its type, its levels, the final
      lot size, opened at the fill price on this account under the ticket,
      with the column's default status. */
  lemma ExecutedRow(s: Signal, a: Account, nowMs: int, openCount: Option<nat>, reply: BridgeReply)
    requires ExecuteSignal(s, a, nowMs, openCount, reply).Executed?
    ensures var r := ExecuteSignal(s, a, nowMs, openCount, reply).row;
      && r.accountId == a.id && r.positionId == reply.ticket && r.symbol == s.symbol
      && r.kind == s.signalType && r.volume == PositionSize(s, a)
      && r.openPrice == reply.price && r.stopLoss == s.stopLoss && r.takeProfit == s.takeProfit
      && r.openTime == nowMs && r.magic == MagicNumber && r.status == DefaultPositionStatus
      && (r.volume.Some? ==> MinLots <= r.volume.value <= MaxLots)
  {
  }

  /** The `success` and `message` an action reports, and the fill price when
      it has one. */
  datatype ActionResult = ActionResult(success: bool, message: string, executionPrice: Option<real>)

  /** JavaScript's `String(x)` on a lot size: NaN prints as "NaN". */
  function LotsText(l: Lots, numberText: real -> string): string
  {
    if l.None? then "NaN" else numberText(l.value)
  }

  /** The result object of `executeSignal`; `numberText` is JavaScript's
      number-to-string conversion. */
  function ExecutionResult(s: Signal, e: Execution, numberText: real -> string): (r: ActionResult)
    ensures r.success <==> e.Executed?
    ensures e.CheckFailed? ==> r.message == "Pre-execution check failed: " + e.checks.reason
    ensures e.BridgeFailed? ==> r.message == "Trade execution failed: " + e.error
    ensures e.Executed? ==> r.executionPrice == Some(e.price)
    ensures !e.Executed? ==> r.executionPrice.None?
  {
    match e
    case CheckFailed(checks) =>
      ActionResult(false, "Pre-execution check failed: " + checks.reason, None)
    case Executed(order, _, _, price) =>
      ActionResult(true, "Trade executed successfully: " + s.signalType + " "
                         + LotsText(order.volume, numberText) + " lots at " + numberText(price),
                   Some(price))
    case BridgeFailed(_, error) =>
      ActionResult(false, "Trade execution failed: " + error, None)
  }

  /** A signal succeeds exactly when every pre-check passes and the bridge
      fills the order; a failed pre-check reports its reason. */
  lemma ExecuteSignalSuccess(s: Signal, a: Account, nowMs: int, openCount: Option<nat>,
                             reply: BridgeReply, numberText: real -> string)
    ensures var c := CheckSignal(s, a, nowMs, openCount);
      var r := ExecutionResult(s, ExecuteSignal(s, a, nowMs, openCount, reply), numberText);
      && (r.success <==> c.passed && reply.Filled?)
      && (!c.passed ==> r.message == "Pre-execution check failed: " + c.reason)
  {
  }

  // ---------------------------------------------------------------------
  // closePosition and modifyPosition

  /** The rows `.eq('position_id', id).eq('account_id', acct)` selects. */
  function Matching(rows: seq<PositionRow>, positionId: string, accountId: string): (m: seq<PositionRow>)
    ensures forall r :: r in m ==> r in rows && r.positionId == positionId && r.accountId == accountId
    ensures forall r :: r in rows && r.positionId == positionId && r.accountId == accountId ==> r in m
    ensures |m| <= |rows|
  {
    if |rows| == 0 then []
    else
      var rest := Matching(rows[1..], positionId, accountId);
      assert rows == [rows[0]] + rows[1..];
      if rows[0].positionId == positionId && rows[0].accountId == accountId then [rows[0]] + rest
      else rest
  }

  /** `.single()`: the row when exactly one matches, otherwise no data. */
  function FindPosition(rows: seq<PositionRow>, positionId: string, accountId: string): (p: Option<PositionRow>)
    ensures p.Some? ==> p.value in rows && p.value.positionId == positionId && p.value.accountId == accountId
    ensures p.None? ==> |Matching(rows, positionId, accountId)| != 1
  {
    var m := Matching(rows, positionId, accountId);
    if |m| == 1 then Some(m[0]) else None
  }

  /** The update `.eq('position_id', id)` applies to every row with that
      position id, whatever its account. */
  function UpdateWhere(rows: seq<PositionRow>, positionId: string, f: PositionRow -> PositionRow): (r: seq<PositionRow>)
    ensures |r| == |rows|
    ensures forall i :: 0 <= i < |rows| ==>
      r[i] == (if rows[i].positionId == positionId then f(rows[i]) else rows[i])
  {
    seq(|rows|, i requires 0 <= i < |rows| => if rows[i].positionId == positionId then f(rows[i]) else rows[i])
  }

  /** The bridge's answer to a close: success, the close price and the
      realised profit. */
  datatype CloseReply = CloseReply(success: bool, price: real, profit: real)

  /** `closePosition`: the rows afterwards and the result. */
  datatype Closing = Closing(result: ActionResult, rows: seq<PositionRow>)

  function ClosePosition(rows: seq<PositionRow>, positionId: string, a: Account,
                         reply: CloseReply, nowMs: int): (c: Closing)
    ensures FindPosition(rows, positionId, a.id).None? ==>
      c == Closing(ActionResult(false, "Close position error: Position not found", None), rows)
    ensures FindPosition(rows, positionId, a.id).Some? ==>
      && c.result.success == reply.success
      && c.result.message == (if reply.success then "Position closed successfully" else "Failed to close position")
      && c.result.executionPrice == Some(reply.price)
    ensures !reply.success ==> c.rows == rows
    ensures |c.rows| == |rows|
    ensures forall i :: 0 <= i < |rows| && rows[i].positionId != positionId ==> c.rows[i] == rows[i]
  {
    match FindPosition(rows, positionId, a.id)
    case None => Closing(ActionResult(false, "Close position error: Position not found", None), rows)
    case Some(_) =>
      var after := if reply.success
        then UpdateWhere(rows, positionId, r => CloseRow(r, reply, nowMs))
        else rows;
      Closing(ActionResult(reply.success,
                           if reply.success then "Position closed successfully" else "Failed to close position",
                           Some(reply.price)),
              after)
  }

  function CloseRow(r: PositionRow, reply: CloseReply, nowMs: int): PositionRow
  {
    r.(status := "closed", closePrice := Some(reply.price), closeTime := Some(nowMs), profit := Some(reply.profit))
  }

  /** A successful close marks the position closed with the bridge's price and
      profit and keeps everything else about it. */
  lemma ClosedRow(rows: seq<PositionRow>, positionId: string, a: Account, reply: CloseReply, nowMs: int, i: nat)
    requires FindPosition(rows, positionId, a.id).Some? && reply.success
    requires i < |rows| && rows[i].positionId == positionId
    ensures var r := ClosePosition(rows, positionId, a, reply, nowMs).rows[i];
      && r.status == "closed" && r.closePrice == Some(reply.price) && r.profit == Some(reply.profit)
      && r.closeTime == Some(nowMs)
      && r.(status := rows[i].status, closePrice := rows[i].closePrice,
            closeTime := rows[i].closeTime, profit := rows[i].profit) == rows[i]
  {
  }

  /** The requested levels; a missing one is 0. */
  datatype Modifications = Modifications(stopLoss: real, takeProfit: real)

  /** `modifyPosition`: the rows afterwards and the result. */
  datatype Modifying = Modifying(result: ActionResult, rows: seq<PositionRow>)

  /** Every row with the position id receives the levels computed from the
      selected position. */
  function ModifyPosition(rows: seq<PositionRow>, positionId: string, mods: Modifications,
                          a: Account, bridgeOk: bool, nowMs: int): (m: Modifying)
    ensures FindPosition(rows, positionId, a.id).None? ==>
      m == Modifying(ActionResult(false, "Modify position error: Position not found", None), rows)
    ensures FindPosition(rows, positionId, a.id).Some? ==>
      m.result == ActionResult(bridgeOk,
                               if bridgeOk then "Position modified successfully" else "Failed to modify position",
                               None)
    ensures !bridgeOk ==> m.rows == rows
    ensures |m.rows| == |rows|
    ensures forall i :: 0 <= i < |rows| && rows[i].positionId != positionId ==> m.rows[i] == rows[i]
  {
    match FindPosition(rows, positionId, a.id)
    case None => Modifying(ActionResult(false, "Modify position error: Position not found", None), rows)
    case Some(p) =>
      var sl := OrDefault(mods.stopLoss, p.stopLoss);
      var tp := OrDefault(mods.takeProfit, p.takeProfit);
      var after := if bridgeOk
        then UpdateWhere(rows, positionId, (r: PositionRow) => r.(stopLoss := sl, takeProfit := tp, updatedAt := Some(nowMs)))
        else rows;
      Modifying(ActionResult(bridgeOk,
                             if bridgeOk then "Position modified successfully" else "Failed to modify position",
                             None),
                after)
  }

  /** On the selected position a successful modification changes the stop
      loss and take profit (each kept when the request leaves it 0) and the
      update time, and nothing else. */
  lemma ModifiedRow(rows: seq<PositionRow>, positionId: string, mods: Modifications,
                    a: Account, nowMs: int, i: nat)
    requires i < |rows| && FindPosition(rows, positionId, a.id) == Some(rows[i])
    ensures var r := ModifyPosition(rows, positionId, mods, a, true, nowMs).rows[i];
      && r.stopLoss == (if mods.stopLoss == 0.0 then rows[i].stopLoss else mods.stopLoss)
      && r.takeProfit == (if mods.takeProfit == 0.0 then rows[i].takeProfit else mods.takeProfit)
      && r.updatedAt == Some(nowMs)
      && r.(stopLoss := rows[i].stopLoss, takeProfit := rows[i].takeProfit, updatedAt := rows[i].updatedAt) == rows[i]
  {
  }

  /** A request of zeros rewrites the selected position with its own levels. */
  lemma ModifyNothingRequested(rows: seq<PositionRow>, positionId: string, a: Account, nowMs: int, i: nat)
    requires i < |rows| && FindPosition(rows, positionId, a.id) == Some(rows[i])
    ensures ModifyPosition(rows, positionId, Modifications(0.0, 0.0), a, true, nowMs).rows[i]
      == rows[i].(updatedAt := Some(nowMs))
  {
  }

  // ---------------------------------------------------------------------
  // The request handler

  datatype Action = ExecuteAction | CloseAction | ModifyAction

  /** The three action names the handler accepts. */
  function ParseAction(action: string): (r: Option<Action>)
    ensures r == Some(ExecuteAction) <==> action == "EXECUTE_SIGNAL"
    ensures r == Some(CloseAction) <==> action == "CLOSE_POSITION"
    ensures r == Some(ModifyAction) <==> action == "MODIFY_POSITION"
  {
    if action == "EXECUTE_SIGNAL" then Some(ExecuteAction)
    else if action == "CLOSE_POSITION" then Some(CloseAction)
    else if action == "MODIFY_POSITION" then Some(ModifyAction)
    else None
  }

  /** The response body's status and its patch (on success) or reason (on an
      error), and the status written to the signal, None when the handler
      failed before writing one. */
  datatype Response = Response(status: string, message: string, signalStatus: Option<string>)

  function Rejected(reason: string): Response
  {
    Response("rejected", reason, None)
  }

  /** The handler: look up the signal and the account, dispatch on the
      action, write EXECUTED or FAILED to the signal and answer 'applied' or
      'rejected'. `run` is the result each action produces. */
  function Handle(action: string, signal: Option<Signal>, account: Option<Account>,
                  run: Action -> ActionResult): (r: Response)
    ensures signal.None? ==> r == Rejected("Signal not found or invalid")
    ensures signal.Some? && account.None? ==> r == Rejected("Account not found or invalid")
    ensures signal.Some? && account.Some? && ParseAction(action).None? ==>
      r == Rejected("Unknown action: " + action)
    ensures signal.Some? && account.Some? && ParseAction(action).Some? ==>
      var res := run(ParseAction(action).value);
      && r.signalStatus == Some(if res.success then "EXECUTED" else "FAILED")
      && r.status == (if res.success then "applied" else "rejected")
      && r.message == res.message
  {
    if signal.None? then Rejected("Signal not found or invalid")
    else if account.None? then Rejected("Account not found or invalid")
    else match ParseAction(action)
      case None => Rejected("Unknown action: " + action)
      case Some(act) =>
        var res := run(act);
        Response(if res.success then "applied" else "rejected", res.message,
                 Some(if res.success then "EXECUTED" else "FAILED"))
  }

  /** The response is 'applied' exactly when the signal is marked EXECUTED,
      and a signal is marked FAILED only after its action ran and failed. */
  lemma HandleStatusAgrees(action: string, signal: Option<Signal>, account: Option<Account>,
                           run: Action -> ActionResult)
    ensures var r := Handle(action, signal, account, run);
      && (r.status == "applied" <==> r.signalStatus == Some("EXECUTED"))
      && (r.signalStatus == Some("FAILED") ==>
            ParseAction(action).Some? && !run(ParseAction(action).value).success)
      && (r.status == "applied" || r.status == "rejected")
  {
  }

  /** An unknown action never writes a status to the signal. */
  lemma UnknownActionRejected(signal: Signal, account: Account, run: Action -> ActionResult)
    ensures Handle("CANCEL_ORDER", Some(signal), Some(account), run)
      == Rejected("Unknown action: CANCEL_ORDER")
  {
  }

  // ---------------------------------------------------------------------
  // The actions behind the dispatch

  /** The parsed request body: the action, and for a close or a modification
      the position id and the requested levels a client sends. */
  datatype Request = Request(action: string, positionId: string, modifications: Modifications)

  /** What the actions meet outside the handler: the clock, the open-position
      count, the stored positions, the bridge's replies and JavaScript's
      number-to-string conversion. */
  datatype World = World(
    nowMs: int,
    openCount: Option<nat>,
    rows: seq<PositionRow>,
    orderReply: BridgeReply,
    closeReply: CloseReply,
    modifyOk: bool,
    numberText: real -> string)

  /** The result of one action on a given position id and modification. */
  function Perform(act: Action, positionId: string, mods: Modifications, s: Signal, a: Account, w: World): ActionResult
  {
    match act
    case ExecuteAction => ExecutionResult(s, ExecuteSignal(s, a, w.nowMs, w.openCount, w.orderReply), w.numberText)
    case CloseAction => ClosePosition(w.rows, positionId, a, w.closeReply, w.nowMs).result
    case ModifyAction => ModifyPosition(w.rows, positionId, mods, a, w.modifyOk, w.nowMs).result
  }

  /** A stand-in result for the branch `Handle` never runs. */
  const NoResult: ActionResult := ActionResult(false, "", None)

  /** `req.body.positionId` after `await req.json()`: the body is a consumed
      stream without that property, and the undefined id is written into the
      `eq.` filter as this text. */
  const UndefinedText: string := "undefined"

  /** The error V8 raises when `modifyPosition` reads `stop_loss` of the
      undefined `req.body.modifications`. */
  const ModificationsTypeError: string := "Cannot read properties of undefined (reading 'stop_loss')"

  /** The actions as the handler runs them: a close or a modification looks up
      the position "undefined", whatever the request named, and a modification
      that found one fails on the undefined modifications. */
  function PerformAsWritten(act: Action, s: Signal, a: Account, w: World): (r: ActionResult)
    ensures act == ExecuteAction ==> r == Perform(act, UndefinedText, Modifications(0.0, 0.0), s, a, w)
    ensures act == CloseAction ==> r == ClosePosition(w.rows, UndefinedText, a, w.closeReply, w.nowMs).result
    ensures act == ModifyAction && FindPosition(w.rows, UndefinedText, a.id).Some? ==>
      r == ActionResult(false, "Modify position error: " + ModificationsTypeError, None)
    ensures act == ModifyAction && FindPosition(w.rows, UndefinedText, a.id).None? ==>
      r == ActionResult(false, "Modify position error: Position not found", None)
  {
    match act
    case ModifyAction =>
      if FindPosition(w.rows, UndefinedText, a.id).None?
      then ActionResult(false, "Modify position error: Position not found", None)
      else ActionResult(false, "Modify position error: " + ModificationsTypeError, None)
    case _ => Perform(act, UndefinedText, Modifications(0.0, 0.0), s, a, w)
  }

  /** The handler as written, from the parsed request to the response. */
  function HandleRequestAsWritten(req: Request, signal: Option<Signal>, account: Option<Account>, w: World): Response
  {
    Handle(req.action, signal, account,
      (act: Action) => if signal.Some? && account.Some? then PerformAsWritten(act, signal.value, account.value, w) else NoResult)
  }

  /** No stored position is called "undefined". */
  predicate NoUndefinedId(rows: seq<PositionRow>)
  {
    forall i :: 0 <= i < |rows| ==> rows[i].positionId != UndefinedText
  }

  lemma NothingMatchesUndefined(rows: seq<PositionRow>, accountId: string)
    requires NoUndefinedId(rows)
    ensures FindPosition(rows, UndefinedText, accountId).None?
  {
    var m := Matching(rows, UndefinedText, accountId);
    if |m| == 1 {
      assert m[0] in rows;
    }
  }

  /** As written, every close and every modification request fails with
      "Position not found", whatever position it names and however the
      bridge would answer, and marks the signal FAILED. */
  lemma HandleAsWrittenNeverFinds(req: Request, s: Signal, a: Account, w: World)
    requires ParseAction(req.action) == Some(CloseAction) || ParseAction(req.action) == Some(ModifyAction)
    requires NoUndefinedId(w.rows)
    ensures var r := HandleRequestAsWritten(req, Some(s), Some(a), w);
      && r.status == "rejected" && r.signalStatus == Some("FAILED")
      && r.message == (if ParseAction(req.action) == Some(CloseAction)
                       then "Close position error: Position not found"
                       else "Modify position error: Position not found")
  {
    NothingMatchesUndefined(w.rows, a.id);
  }

  /** The handler as intended: the actions use the request's own position id
      and modifications. */
  function HandleRequest(req: Request, signal: Option<Signal>, account: Option<Account>, w: World): Response
  {
    Handle(req.action, signal, account,
      (act: Action) => if signal.Some? && account.Some?
                       then Perform(act, req.positionId, req.modifications, signal.value, account.value, w)
                       else NoResult)
  }

  /** As intended, a close of a stored position reports the bridge's outcome
      and a modification of one reports whether the bridge accepted it. */
  lemma HandleRequestReachesPosition(req: Request, s: Signal, a: Account, w: World)
    requires ParseAction(req.action) == Some(CloseAction) || ParseAction(req.action) == Some(ModifyAction)
    requires FindPosition(w.rows, req.positionId, a.id).Some?
    ensures var r := HandleRequest(req, Some(s), Some(a), w);
      var ok := if ParseAction(req.action) == Some(CloseAction) then w.closeReply.success else w.modifyOk;
      && (r.status == "applied" <==> ok)
      && r.signalStatus == Some(if ok then "EXECUTED" else "FAILED")
      && (ParseAction(req.action) == Some(CloseAction) ==>
            r.message == (if ok then "Position closed successfully" else "Failed to close position"))
      && (ParseAction(req.action) == Some(ModifyAction) ==>
            r.message == (if ok then "Position modified successfully" else "Failed to modify position"))
  {
  }

  /** Both handlers answer signal executions and unknown actions alike. */
  lemma HandleRequestAgrees(req: Request, signal: Option<Signal>, account: Option<Account>, w: World)
    requires ParseAction(req.action) != Some(CloseAction) && ParseAction(req.action) != Some(ModifyAction)
    ensures HandleRequestAsWritten(req, signal, account, w) == HandleRequest(req, signal, account, w)
  {
  }
}

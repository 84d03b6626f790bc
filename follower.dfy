/**
 * The per-symbol position follower (class Position in test.py).
 *
 * The exchange reports a position as a JSON object whose fields are all
 * strings (a Snapshot). A Position is built from one snapshot, refreshed from
 * each later one, and `follow` polls while the position is open: below a PnL
 * of -0.3 it takes the stop-out branch (which only logs), between -0.3 and
 * -0.2 it places one protective limit sell at the entry price unless one was
 * already accepted (with the corrected constructor `Init`; with the
 * constructor as written, `InitAsWritten`, it never does), and otherwise it
 * only logs.
 *
 * The pure functions Init, Update, StepSpec and Run specify the class; the
 * class methods are proved against them and the lemmas are about them.
 */
module Follower {
  import opened Wrappers
  import opened Decimal

  /** One element of the exchange's position list: field name to field text. */
  type Snapshot = map<string, string>

  /** The fields the bot keeps from a snapshot, in the order it lists them (`KEYS`). */
  const KEYS: seq<string> := ["symbol", "side", "avgPrice", "markPrice", "size", "positionValue",
                              "unrealisedPnl", "createdTime", "updatedTime"]

  /** A snapshot that carries every KEYS field. */
  predicate HasKeys(snap: Snapshot) { forall k :: k in KEYS ==> k in snap }

  /** Below this unrealised PnL the stop-out branch is taken. */
  const STOP_OUT_PNL: real := -0.3
  /** Below this unrealised PnL (and not below STOP_OUT_PNL) the protective limit sell is due. */
  const LIMIT_PNL: real := -0.2
  /** The stop-loss price is this fraction of the entry price. */
  const STOP_LOSS_RATIO: real := 0.92

  /** The exchange reports a flat position with an empty or `"0"` size text. */
  predicate IsFlat(size: string) { size == "" || size == "0" }

  predicate IsRealField(snap: Snapshot, key: string) { key in snap && ParseReal(snap[key]).Some? }

  predicate IsIntField(snap: Snapshot, key: string) { key in snap && ParseInt(snap[key]).Some? }

  function RealField(snap: Snapshot, key: string): real
    requires IsRealField(snap, key)
  { ParseReal(snap[key]).value }

  function IntField(snap: Snapshot, key: string): int
    requires IsIntField(snap, key)
  { ParseInt(snap[key]).value }

  /**
   * `round(x, 2)`: the nearest multiple of 0.01, ties to the even hundredth.
   */
  function Round2(x: real): (r: real)
    ensures (r * 100.0).Floor as real == r * 100.0
    ensures -0.005 <= r - x <= 0.005
  {
    var y := x * 100.0;
    var f := y.Floor;
    var frac := y - f as real;
    var n := if frac < 0.5 then f else if frac > 0.5 then f + 1 else if f % 2 == 0 then f else f + 1;
    n as real / 100.0
  }

  // ---------------------------------------------------------------------------
  // State

  datatype OrderAck = OrderAck(orderId: string, orderLinkId: string)

  /** The decoded reply of `place_order`. */
  datatype OrderReply = OrderReply(retCode: int, retMsg: string, result: OrderAck)

  /** The arguments of one `place_order` call made by `follow`. */
  datatype LimitOrder = LimitOrder(symbol: string, side: string, orderType: string, qty: int, price: real)

  /** An order `follow` placed, with the exchange's reply to it. */
  datatype Placement = Placement(order: LimitOrder, reply: OrderReply)
  {
    predicate Accepted() { reply.retMsg == "OK" }
  }

  /** One iteration's inputs: the polled snapshot, and the reply an order would get. */
  datatype Tick = Tick(snapshot: Snapshot, reply: OrderReply)

  /** The attributes of a Position; `isOpen` is the source's `opened`. */
  datatype PositionState = PositionState(
    symbol: string, side: string,
    avgPrice: real, markPrice: real, size: real, positionValue: real, unrealisedPnl: real,
    createdTime: int, updatedTime: int,
    isOpen: bool, stopLoss: real, pnlPercent: real,
    limitOpened: bool, limitOrderId: Option<OrderAck>)

  /** The attributes a flat Position has; the source sets only `opened` and `size`. */
  const Unset: PositionState :=
    PositionState("", "", 0.0, 0.0, 0.0, 0.0, 0.0, 0, 0, false, 0.0, 0.0, false, None)

  /** What the constructor reads from a non-flat snapshot, and the division it makes. */
  predicate CanOpen(snap: Snapshot)
  {
    "symbol" in snap && "side" in snap &&
    IsRealField(snap, "avgPrice") && IsRealField(snap, "markPrice") && IsRealField(snap, "size") &&
    IsRealField(snap, "positionValue") && IsRealField(snap, "unrealisedPnl") &&
    IsIntField(snap, "createdTime") && IsIntField(snap, "updatedTime") &&
    RealField(snap, "positionValue") != 0.0
  }

  predicate CanInit(snap: Snapshot)
  {
    "size" in snap && (!IsFlat(snap["size"]) ==> CanOpen(snap))
  }

  /** What `update_position` reads from a non-flat snapshot. */
  predicate CanUpdate(snap: Snapshot)
  {
    "size" in snap &&
    (!IsFlat(snap["size"]) ==>
      IsRealField(snap, "markPrice") && IsRealField(snap, "positionValue") &&
      IsRealField(snap, "unrealisedPnl") && IsIntField(snap, "updatedTime"))
  }

  /**
   * `Position.__init__`, with the limit flag starting false (see InitAsWritten).
   */
  function Init(snap: Snapshot): (r: PositionState)
    requires CanInit(snap)
    ensures r.isOpen <==> !IsFlat(snap["size"])
    ensures !r.isOpen ==> r.size == 0.0
    ensures r.isOpen ==>
      r.symbol == snap["symbol"] && r.side == snap["side"] &&
      r.avgPrice == RealField(snap, "avgPrice") && r.markPrice == RealField(snap, "markPrice") &&
      r.size == RealField(snap, "size") && r.positionValue == RealField(snap, "positionValue") &&
      r.unrealisedPnl == RealField(snap, "unrealisedPnl") &&
      r.createdTime == IntField(snap, "createdTime") && r.updatedTime == IntField(snap, "updatedTime")
    ensures r.isOpen ==> r.stopLoss == r.avgPrice * STOP_LOSS_RATIO
    ensures r.isOpen ==> -0.005 <= r.pnlPercent - r.unrealisedPnl / r.positionValue * 100.0 <= 0.005
    ensures !r.limitOpened && r.limitOrderId == None
  {
    if IsFlat(snap["size"]) then Unset.(isOpen := false, size := 0.0)
    else
      LiveState(snap["symbol"], snap["side"],
             RealField(snap, "avgPrice"), RealField(snap, "markPrice"), RealField(snap, "size"),
             RealField(snap, "positionValue"), RealField(snap, "unrealisedPnl"),
             IntField(snap, "createdTime"), IntField(snap, "updatedTime"))
  }

  /** The attributes the constructor gives a live position. */
  function LiveState(symbol: string, side: string, avgPrice: real, markPrice: real, size: real,
                     positionValue: real, unrealisedPnl: real, createdTime: int, updatedTime: int): PositionState
    requires positionValue != 0.0
  {
    PositionState(
      symbol, side, avgPrice, markPrice, size, positionValue, unrealisedPnl, createdTime, updatedTime,
      true, avgPrice * STOP_LOSS_RATIO, Round2(unrealisedPnl / positionValue * 100.0),
      false, None)
  }

  /** `Position.__init__` as written: a freshly opened position already claims a limit order. */
  function InitAsWritten(snap: Snapshot): (r: PositionState)
    requires CanInit(snap)
    ensures r.isOpen ==> r.limitOpened && r.limitOrderId == None
    ensures r == Init(snap).(limitOpened := Init(snap).isOpen)
  {
    var s := Init(snap);
    if s.isOpen then s.(limitOpened := true) else s
  }

  /** The constructor reads nothing but the KEYS fields. */
  lemma SameFieldsSameInit(a: Snapshot, b: Snapshot)
    requires CanInit(a)
    requires forall k :: k in KEYS ==> k in a && k in b && a[k] == b[k]
    ensures CanInit(b) && Init(b) == Init(a)
  {
    assert "size" in KEYS;
    if !IsFlat(a["size"]) {
      assert "symbol" in KEYS && "side" in KEYS && "avgPrice" in KEYS && "markPrice" in KEYS;
      assert "positionValue" in KEYS && "unrealisedPnl" in KEYS && "createdTime" in KEYS && "updatedTime" in KEYS;
      assert RealField(a, "avgPrice") == RealField(b, "avgPrice");
      assert RealField(a, "markPrice") == RealField(b, "markPrice");
      assert RealField(a, "size") == RealField(b, "size");
      assert RealField(a, "positionValue") == RealField(b, "positionValue");
      assert RealField(a, "unrealisedPnl") == RealField(b, "unrealisedPnl");
      assert IntField(a, "createdTime") == IntField(b, "createdTime");
      assert IntField(a, "updatedTime") == IntField(b, "updatedTime");
    }
  }

  /** `update_position`: refresh the market fields, or mark the position closed. */
  function Update(s: PositionState, snap: Snapshot): (r: PositionState)
    requires CanUpdate(snap)
    requires !IsFlat(snap["size"]) ==> s.avgPrice != 0.0
    // unchanged on every snapshot
    ensures r.symbol == s.symbol && r.side == s.side && r.avgPrice == s.avgPrice &&
            r.createdTime == s.createdTime && r.stopLoss == s.stopLoss &&
            r.limitOpened == s.limitOpened && r.limitOrderId == s.limitOrderId
    // a live snapshot refreshes exactly five fields
    ensures !IsFlat(snap["size"]) ==>
      r.isOpen == s.isOpen && r.size == s.size &&
      r.markPrice == RealField(snap, "markPrice") && r.positionValue == RealField(snap, "positionValue") &&
      r.unrealisedPnl == RealField(snap, "unrealisedPnl") && r.updatedTime == IntField(snap, "updatedTime") &&
      -0.005 <= r.pnlPercent - r.unrealisedPnl / s.avgPrice * 100.0 <= 0.005
    // a flat snapshot closes the position and leaves the market fields stale
    ensures IsFlat(snap["size"]) ==>
      !r.isOpen && r.size == 0.0 &&
      r.markPrice == s.markPrice && r.positionValue == s.positionValue &&
      r.unrealisedPnl == s.unrealisedPnl && r.updatedTime == s.updatedTime && r.pnlPercent == s.pnlPercent
  {
    if !IsFlat(snap["size"]) then
      var unrealisedPnl := RealField(snap, "unrealisedPnl");
      s.(markPrice := RealField(snap, "markPrice"),
         positionValue := RealField(snap, "positionValue"),
         unrealisedPnl := unrealisedPnl,
         updatedTime := IntField(snap, "updatedTime"),
         pnlPercent := Round2(unrealisedPnl / s.avgPrice * 100.0))
    else s.(isOpen := false, size := 0.0)
  }

  // ---------------------------------------------------------------------------
  // One decision step of `follow`

  datatype Branch = StopOut | Protect | Hold

  /** Which branch of `follow` an unrealised PnL selects. */
  function Classify(pnl: real): (b: Branch)
    ensures b == StopOut <==> pnl < STOP_OUT_PNL
    ensures b == Protect <==> STOP_OUT_PNL <= pnl < LIMIT_PNL
    ensures b == Hold <==> LIMIT_PNL <= pnl
  {
    if pnl < STOP_OUT_PNL then StopOut
    else if pnl != 0.0 && pnl < LIMIT_PNL then Protect   // a zero PnL is falsy in the source's test
    else Hold
  }

  datatype StepResult = StepResult(state: PositionState, placement: Option<Placement>)

  predicate CanStep(s: PositionState, snap: Snapshot)
  {
    CanUpdate(snap) && (!IsFlat(snap["size"]) ==> s.avgPrice != 0.0)
  }

  /** The protective order: sell one unit at the entry price with a limit order. */
  function ProtectiveSell(s: PositionState): LimitOrder
  {
    LimitOrder(s.symbol, "Sell", "Limit", 1, s.avgPrice)
  }

  /** One iteration of the `while self.opened` loop. */
  function StepSpec(s: PositionState, t: Tick): (r: StepResult)
    requires CanStep(s, t.snapshot)
    ensures var u := Update(s, t.snapshot);
      // the branch is decided on the refreshed (or, when flat, stale) PnL
      && (r.placement.Some? <==> !s.limitOpened && Classify(u.unrealisedPnl) == Protect)
      && (r.placement.Some? ==> r.placement.value == Placement(ProtectiveSell(s), t.reply))
      // the flag is raised, and the id recorded, only by an accepted order
      && (r.state.limitOpened <==> s.limitOpened || (r.placement.Some? && t.reply.retMsg == "OK"))
      && r.state.limitOrderId == (if r.placement.Some? && t.reply.retMsg == "OK" then Some(t.reply.result)
                                  else s.limitOrderId)
      // apart from the flag and the id, the new state is the refreshed one
      && r.state.(limitOpened := u.limitOpened, limitOrderId := u.limitOrderId) == u
  {
    var u := Update(s, t.snapshot);
    match Classify(u.unrealisedPnl)
    case StopOut => StepResult(u, None)          // stop_loss only logs
    case Hold => StepResult(u, None)
    case Protect =>
      if u.limitOpened then StepResult(u, None)  // 'limit already opened'
      else
        var p := Placement(ProtectiveSell(u), t.reply);
        if p.Accepted() then StepResult(u.(limitOpened := true, limitOrderId := Some(t.reply.result)), Some(p))
        else StepResult(u, Some(p))
  }

  /** The stop-out branch places nothing and changes nothing beyond the refresh. */
  lemma StopOutIsInert(s: PositionState, t: Tick)
    requires CanStep(s, t.snapshot)
    requires Update(s, t.snapshot).unrealisedPnl < STOP_OUT_PNL
    ensures StepSpec(s, t) == StepResult(Update(s, t.snapshot), None)
  {
    assert Classify(Update(s, t.snapshot).unrealisedPnl) == StopOut;
  }

  /**
   * A flat poll closes the position but still runs the branch test, on the
   * PnL of the previous poll: if that PnL was in the limit band and no limit
   * order was accepted yet, this last iteration places one more.
   */
  lemma FlatPollDecidesOnStalePnl(s: PositionState, t: Tick)
    requires CanStep(s, t.snapshot) && IsFlat(t.snapshot["size"])
    ensures !StepSpec(s, t).state.isOpen
    ensures StepSpec(s, t).placement.Some? <==> !s.limitOpened && STOP_OUT_PNL <= s.unrealisedPnl < LIMIT_PNL
  {
  }

  // ---------------------------------------------------------------------------
  // The follow loop over a finite sequence of polls

  datatype RunResult = RunResult(state: PositionState, placements: seq<Placement>, polls: nat)

  /** Every poll the loop may make can be processed from a position with this entry price. */
  predicate Ready(s: PositionState, ticks: seq<Tick>)
  {
    (s.isOpen ==> s.avgPrice != 0.0) && forall i :: 0 <= i < |ticks| ==> CanUpdate(ticks[i].snapshot)
  }

  function OptionToSeq<T>(o: Option<T>): seq<T> { if o.Some? then [o.value] else [] }

  /** `follow`: step while the position is open and polls remain. */
  function Run(s: PositionState, ticks: seq<Tick>): (r: RunResult)
    requires Ready(s, ticks)
    ensures |r.placements| <= r.polls <= |ticks|
    decreases |ticks|
  {
    if !s.isOpen || ticks == [] then RunResult(s, [], 0)
    else
      var st := StepSpec(s, ticks[0]);
      var rest := Run(st.state, ticks[1..]);
      RunResult(rest.state, OptionToSeq(st.placement) + rest.placements, rest.polls + 1)
  }

  /** A step closes an open position exactly on a flat snapshot, and keeps its entry price. */
  lemma StepClosesOnFlat(s: PositionState, t: Tick)
    requires CanStep(s, t.snapshot) && s.isOpen
    ensures StepSpec(s, t).state.isOpen <==> !IsFlat(t.snapshot["size"])
    ensures StepSpec(s, t).state.avgPrice == s.avgPrice
  {
    var u := Update(s, t.snapshot);
    assert StepSpec(s, t).state.(limitOpened := u.limitOpened, limitOrderId := u.limitOrderId) == u;
  }

  /** The first turn of the loop, unfolded. */
  lemma RunFirstStep(s: PositionState, ticks: seq<Tick>)
    requires Ready(s, ticks) && s.isOpen && ticks != []
    ensures Ready(StepSpec(s, ticks[0]).state, ticks[1..])
    ensures var st := StepSpec(s, ticks[0]);
      var rest := Run(st.state, ticks[1..]);
      Run(s, ticks) == RunResult(rest.state, OptionToSeq(st.placement) + rest.placements, rest.polls + 1)
  {
  }

  /**
   * One turn of the loop: if `whole` is what is already placed and polled
   * followed by the run from `s`, it is also that followed by the run from the
   * state after one step.
   */
  lemma RunAdvance(whole: RunResult, placements: seq<Placement>, polls: nat, s: PositionState,
                   ticks: seq<Tick>, next: PositionState, placement: Option<Placement>)
    requires polls < |ticks| && s.isOpen && Ready(s, ticks[polls..])
    requires StepResult(next, placement) == StepSpec(s, ticks[polls])
    requires var r := Run(s, ticks[polls..]);
      whole == RunResult(r.state, placements + r.placements, polls + r.polls)
    ensures Ready(next, ticks[polls + 1..])
    ensures var r := Run(next, ticks[polls + 1..]);
      whole == RunResult(r.state, (placements + OptionToSeq(placement)) + r.placements, polls + 1 + r.polls)
  {
    var left := ticks[polls..];
    assert left[0] == ticks[polls] && left[1..] == ticks[polls + 1..];
    RunFirstStep(s, left);
    var rest := Run(next, ticks[polls + 1..]);
    assert placements + (OptionToSeq(placement) + rest.placements)
        == (placements + OptionToSeq(placement)) + rest.placements;
  }

  /** Every order the loop places is the protective sell of this position. */
  lemma {:induction false} RunPlacesOnlyProtectiveSells(s: PositionState, ticks: seq<Tick>)
    requires Ready(s, ticks)
    ensures forall p :: p in Run(s, ticks).placements ==> p.order == ProtectiveSell(s)
    decreases |ticks|
  {
    if s.isOpen && ticks != [] {
      var st := StepSpec(s, ticks[0]);
      RunPlacesOnlyProtectiveSells(st.state, ticks[1..]);
    }
  }

  /**
   * At most one limit order per position: nothing is placed once the flag is
   * up, every placement but the last was rejected, and the flag and the order
   * id end up set exactly when the last placement was accepted.
   */
  lemma {:induction false} RunAcceptsAtMostOneLimit(s: PositionState, ticks: seq<Tick>)
    requires Ready(s, ticks)
    ensures var r := Run(s, ticks);
      && (s.limitOpened ==> r.placements == [])
      && (forall i :: 0 <= i < |r.placements| - 1 ==> !r.placements[i].Accepted())
      && (r.state.limitOpened <==> s.limitOpened || (r.placements != [] && r.placements[|r.placements| - 1].Accepted()))
      && r.state.limitOrderId == (if r.placements != [] && r.placements[|r.placements| - 1].Accepted()
                                  then Some(r.placements[|r.placements| - 1].reply.result)
                                  else s.limitOrderId)
    decreases |ticks|
  {
    if s.isOpen && ticks != [] {
      var st := StepSpec(s, ticks[0]);
      var rest := Run(st.state, ticks[1..]);
      RunAcceptsAtMostOneLimit(st.state, ticks[1..]);
      var ps := Run(s, ticks).placements;
      assert ps == OptionToSeq(st.placement) + rest.placements;
      if st.placement.Some? && st.placement.value.Accepted() {
        assert rest.placements == [];
      }
    }
  }

  /**
   * The loop runs only while the position is open: an open position polls at
   * least once when a poll is given, and a run with no poll leaves the state
   * as it was; the loop stops right after the first flat snapshot, and
   * otherwise only when the polls run out.
   */
  lemma {:induction false} RunStopsAtFlat(s: PositionState, ticks: seq<Tick>)
    requires Ready(s, ticks)
    ensures var r := Run(s, ticks);
      && r.polls <= |ticks|
      && (!s.isOpen ==> r.polls == 0 && r.state == s)
      && (s.isOpen && ticks != [] ==> r.polls > 0)
      && (r.polls == 0 ==> r.state == s)
      && (forall k :: 0 <= k < r.polls - 1 ==> !IsFlat(ticks[k].snapshot["size"]))
      && (r.polls > 0 ==> (r.state.isOpen <==> !IsFlat(ticks[r.polls - 1].snapshot["size"])))
      && (r.polls < |ticks| ==> !r.state.isOpen)
    decreases |ticks|
  {
    if s.isOpen && ticks != [] {
      RunFirstStep(s, ticks);
      var st := StepSpec(s, ticks[0]);
      StepClosesOnFlat(s, ticks[0]);
      RunStopsAtFlat(st.state, ticks[1..]);
      var rest := Run(st.state, ticks[1..]);
      assert Run(s, ticks).polls == rest.polls + 1 && Run(s, ticks).state == rest.state;
      forall k | 0 <= k < rest.polls
        ensures !IsFlat(ticks[k].snapshot["size"])
      {
        if k == 0 {
          assert st.state.isOpen;
        } else {
          assert ticks[k] == ticks[1..][k - 1];
        }
      }
      if rest.polls > 0 {
        assert ticks[rest.polls] == ticks[1..][rest.polls - 1];
      }
    }
  }

  /**
   * As written, the constructor raises the limit flag, so `follow` never
   * places the protective limit sell on any sequence of polls.
   */
  lemma AsWrittenPlacesNoLimitOrder(snap: Snapshot, ticks: seq<Tick>)
    requires CanInit(snap) && Ready(InitAsWritten(snap), ticks)
    ensures Run(InitAsWritten(snap), ticks).placements == []
  {
    var s := InitAsWritten(snap);
    if s.isOpen {
      RunAcceptsAtMostOneLimit(s, ticks);
    }
  }

  /**
   * The input that shows it: a position opened from a live snapshot whose next
   * poll reports a PnL between -0.3 and -0.2. The corrected constructor leads
   * to the protective sell; the one as written does not.
   */
  lemma LimitBranchDeadAsWritten(snap: Snapshot, t: Tick)
    requires CanInit(snap) && !IsFlat(snap["size"]) && RealField(snap, "avgPrice") != 0.0
    requires CanUpdate(t.snapshot) && !IsFlat(t.snapshot["size"])
    requires STOP_OUT_PNL <= RealField(t.snapshot, "unrealisedPnl") < LIMIT_PNL
    ensures StepSpec(Init(snap), t).placement == Some(Placement(ProtectiveSell(Init(snap)), t.reply))
    ensures StepSpec(InitAsWritten(snap), t).placement == None
  {
    assert Update(Init(snap), t.snapshot).unrealisedPnl == RealField(t.snapshot, "unrealisedPnl");
    assert Update(InitAsWritten(snap), t.snapshot).unrealisedPnl == RealField(t.snapshot, "unrealisedPnl");
  }

  /** The flatness test reads the size TEXT: a `"0.0"` size opens a Position of size zero. */
  lemma ZeroDecimalTextIsNotFlat(snap: Snapshot)
    requires CanInit(snap) && snap["size"] == "0.0"
    ensures Init(snap).isOpen && Init(snap).size == 0.0
  {
    ZeroTexts();
  }

  // ---------------------------------------------------------------------------
  // The stateful object

  class Position {
    var symbol: string
    var side: string
    var avgPrice: real
    var markPrice: real
    var size: real
    var positionValue: real
    var unrealisedPnl: real
    var createdTime: int
    var updatedTime: int
    var isOpen: bool
    var stopLoss: real
    var pnlPercent: real
    var limitOpened: bool
    var limitOrderId: Option<OrderAck>

    function State(): PositionState
      reads this
    {
      PositionState(symbol, side, avgPrice, markPrice, size, positionValue, unrealisedPnl,
                    createdTime, updatedTime, isOpen, stopLoss, pnlPercent, limitOpened, limitOrderId)
    }

    constructor (snap: Snapshot)
      requires CanInit(snap)
      ensures State() == Init(snap)
    {
      if !IsFlat(snap["size"]) {
        var avg := RealField(snap, "avgPrice");
        var pnl := RealField(snap, "unrealisedPnl");
        var value := RealField(snap, "positionValue");
        symbol, side := snap["symbol"], snap["side"];
        avgPrice, markPrice, size := avg, RealField(snap, "markPrice"), RealField(snap, "size");
        positionValue, unrealisedPnl := value, pnl;
        createdTime, updatedTime := IntField(snap, "createdTime"), IntField(snap, "updatedTime");
        isOpen := true;
        stopLoss := avg * STOP_LOSS_RATIO;
        pnlPercent := Round2(pnl / value * 100.0);
        limitOpened, limitOrderId := false, None;
      } else {
        // the source sets only these two; the other attributes take Unset's values
        isOpen := false;
        size := 0.0;
        symbol, side := Unset.symbol, Unset.side;
        avgPrice, markPrice, positionValue, unrealisedPnl := 0.0, 0.0, 0.0, 0.0;
        createdTime, updatedTime, stopLoss, pnlPercent := 0, 0, 0.0, 0.0;
        limitOpened, limitOrderId := false, None;
      }
    }

    method UpdatePosition(snap: Snapshot)
      requires CanStep(State(), snap)
      modifies this
      ensures State() == Update(old(State()), snap)
    {
      if !IsFlat(snap["size"]) {
        markPrice := RealField(snap, "markPrice");
        positionValue := RealField(snap, "positionValue");
        unrealisedPnl := RealField(snap, "unrealisedPnl");
        updatedTime := IntField(snap, "updatedTime");
        pnlPercent := Round2(unrealisedPnl / avgPrice * 100.0);
      } else {
        isOpen := false;
        size := 0.0;
      }
    }

    /** `stop_loss`: a stub that only logs. */
    method StopLoss()
      ensures State() == old(State())
    {
    }

    /** One iteration of `follow`, given the polled snapshot and the reply an order would get. */
    method Step(t: Tick) returns (placement: Option<Placement>)
      requires CanStep(State(), t.snapshot)
      modifies this
      ensures StepResult(State(), placement) == StepSpec(old(State()), t)
    {
      UpdatePosition(t.snapshot);
      placement := None;
      if unrealisedPnl < STOP_OUT_PNL {
        StopLoss();
      } else if unrealisedPnl != 0.0 && unrealisedPnl < LIMIT_PNL {
        if !limitOpened {
          var order := LimitOrder(symbol, "Sell", "Limit", 1, avgPrice);
          placement := Some(Placement(order, t.reply));
          if t.reply.retMsg == "OK" {
            limitOpened := true;
            limitOrderId := Some(t.reply.result);
          }
        }
      }
    }

    /**
     * `follow`: the `while self.opened` loop over the polls available; returns
     * the orders it placed and how many polls it consumed.
     */
    method Follow(ticks: seq<Tick>) returns (placements: seq<Placement>, polls: nat)
      requires Ready(State(), ticks)
      modifies this
      ensures RunResult(State(), placements, polls) == Run(old(State()), ticks)
    {
      placements, polls := [], 0;
      while isOpen && polls < |ticks|
        invariant polls <= |ticks|
        invariant Ready(State(), ticks[polls..])
        invariant var r := Run(State(), ticks[polls..]);
          Run(old(State()), ticks) == RunResult(r.state, placements + r.placements, polls + r.polls)
        decreases |ticks| - polls
      {
        ghost var before := State();
        var placement := Step(ticks[polls]);
        RunAdvance(Run(old(State()), ticks), placements, polls, before, ticks, State(), placement);
        placements := placements + OptionToSeq(placement);
        polls := polls + 1;
      }
    }
  }
}

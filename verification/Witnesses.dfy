/** Runs on which a money law fails: an exit from a zero stop, a fill that joins a
    partly exited position, and snaps that add up to a refused stop order. */
module Witnesses {
  import opened Prelude
  import opened Domain
  import opened Sizing
  import opened Planning
  import opened Ledger
  import opened ReplayAgreement
  import opened RowSoundness
  import opened Accounting
  import opened FillAccounting
  import opened Runs
  import opened MoneyRuns

  type Tolerance = t: real | 0.0 <= t <= 0.000000001

  /** The settings of these runs, in exact arithmetic or with the tolerance of the code. */
  function Cfg(t: Tolerance): Settings {
    Settings(1.0, 2.0, 100.0, 3, 600, 300, 15.0, 20.0, 30, 0.5, 0.3, 1.0, 3.0, false, 0.1, 1.0, t)
  }

  const EXACT := Cfg(0.0)

  const SLACK: Tolerance := 0.000000001

  /** A candidate whose opening range is 0.5 to 1.0 and whose retest reached `low`. */
  function Candidate(low: real): PlanInput {
    PlanInput(MarketSnapshot("XYZ", 1.0, None, None, None, Some(1.0), Some(0.5), Some(low), Some(1.0), Some(5.0),
                             Some(0.6),
                             false, 0.0, None, None, true, false),
              80.0, ClassifyQuality(90.0), CoreMomentum)
  }

  const MARKET := MarketContext(
    MarketSnapshot("XYZ", 1.0, Some(1.0), Some(1.0), Some(1.0), None, None, None, None, None, None,
                   false, 0.0, Some(0.0), None, true, false), true)

  const P: Id := 7
  const FIRST: Id := 8
  const SECOND: Id := 9

  const LISTING := Listing([P], [P])

  function Buy(price: real, quantity: int): FillArgs {
    FillArgs(P, price, quantity, 30, false, None, None)
  }

  /** Retest lows at which the plan below is issued on the grid. */
  predicate Low(low: real) {
    low == 0.0 || low == 0.5
  }

  function Plan(low: real): TradePlan {
    TradePlan(P, "XYZ", 1.0, 1.003, low, if low == 0.0 then 2.5 else 1.75, if low == 0.0 then 3.0 else 2.0, 0.25, 0.30,
              0, 600, 1.0, PlanActive, None)
  }

  lemma GridPoint(x: real, n: int)
    requires x * 10000.0 == n as real
    ensures Round4(x) == x
  {
    RoundInteger(n);
  }

  /** A retest low of zero issues a plan with a stop of zero. */
  lemma PlanIsIssued(t: Tolerance, low: real)
    requires Low(low)
    ensures BuildTradePlan(Candidate(low), Cfg(t), P, 0) == Ok(Plan(low))
  {
    hide Round4;
    GridPoint(1.0, 10000);
    GridPoint(1.003, 10030);
    if low == 0.0 {
      GridPoint(0.0, 0);
      GridPoint(2.5, 25000);
      GridPoint(3.0, 30000);
    } else {
      GridPoint(0.5, 5000);
      GridPoint(1.75, 17500);
      GridPoint(2.0, 20000);
    }
  }

  /* ---- the rows after each command ---- */

  function Shares(low: real): nat {
    if low == 0.0 then 10 else 20
  }

  function Reserved(low: real, quantity: nat): Reservation {
    Reservation(P, quantity, quantity as real * 1.003, quantity as real * (1.0 - low), 301)
  }

  function Position(low: real): PositionState {
    PositionState(FIRST, P, "XYZ", 10, 10, 1.0, Some(low), Some(Plan(low).tp1), Some(Plan(low).tp2), 2, Some(1802),
                  0.0, true,
                  "FILL_ACK", None, Unprotected, None, None, 0, Reconciled, Some(2))
  }

  function Issued(low: real): Rows {
    Rows(Some(WalletState(1000.0, 1000.0, 0.0, 0.0, 0.0, 1, Some(0))), map[P := Plan(low)], map[], map[])
  }

  function Activated(low: real): Rows {
    Rows(Some(WalletState(1000.0, 1000.0, 0.0, 10.0, Shares(low) as real * 1.003, 2, Some(1))),
         map[P := Plan(low).(status := PlanReserved)], map[P := Reserved(low, Shares(low))], map[])
  }

  /** Ten shares filled: all of the first reservation, half of the second. */
  function Filled(low: real): Rows {
    var all := low == 0.0;
    Rows(Some(WalletState(1000.0, 990.0, 0.0, 10.0, if all then 0.0 else 10.03, 3, Some(2))),
         map[P := Plan(low).(status := if all then PlanFilled else PlanReserved)],
         if all then map[] else map[P := Reserved(low, 10)],
         map[FIRST := Position(low)])
  }

  function Exited(): Rows {
    var rows := Filled(0.5);
    rows.(wallet := Some(WalletState(1000.0, 994.0, 0.0, 8.0, 10.03, 4, Some(3))),
          positions := map[FIRST := Position(0.5).(remainingQuantity := 6)])
  }

  lemma SweepIdle(l: Ledger, now: int)
    requires forall id :: id in l.rows.plans ==> now <= l.rows.plans[id].expiresAt
    requires forall id :: id in l.rows.reservations ==> now <= l.rows.reservations[id].expiresAt
    ensures Sweep(l, LISTING, now) == l
  {
    assert [P][..0] == [];
    assert SweepPlans(l, [P], now) == l && SweepReservations(l, [P], now) == l;
  }

  lemma IssueStep(t: Tolerance, l: Ledger, low: real)
    requires Low(low) && l.rows == Issued(low).(plans := map[])
    ensures var r := IssuePlan(l, Candidate(low), Cfg(t), P, 0); r.Ok? && r.value.rows == Issued(low)
  {
    PlanIsIssued(t, low);
    hide BuildTradePlan;
  }

  lemma SizedShares(t: Tolerance, low: real)
    requires Low(low)
    ensures SizeFromWallet(Issued(low).wallet.value, Plan(low), None, LimitsOf(Cfg(t))).allowed
    ensures SizeFromWallet(Issued(low).wallet.value, Plan(low), None, LimitsOf(Cfg(t))).quantity == Shares(low)
  {
    var w, plan, limits := Issued(low).wallet.value, Plan(low), LimitsOf(Cfg(t));
    assert RiskBudget(w, plan, limits) == 10.0 && FreeCash(w) == 1000.0 && NotionalLimit(w, limits) == 1000.0;
    FloorOfQuotient(1000.0, 1.003, 20);
    FloorOfQuotient(10.0, 1.0 - low, Shares(low));
    FloorOfQuotient(10.0, 1.0 - low, Shares(low) + 1);
    hide RiskBudget, FreeCash, NotionalLimit;
  }

  lemma CentAmount(quantity: nat, price: real, cents: int)
    requires quantity as real * price * 100.0 == cents as real
    ensures Amount(quantity, price) == quantity as real * price
  {
    RoundInteger(cents);
  }

  lemma ActivateStep(t: Tolerance, l: Ledger, low: real)
    requires Low(low) && l.rows == Issued(low)
    ensures var r := ActivateWithContext(l, Cfg(t), P, MARKET, 1); r.Ok? && r.value.rows == Activated(low)
  {
    SizedShares(t, low);
    CentAmount(Shares(low), 1.003, if low == 0.0 then 1003 else 2006);
    CentAmount(Shares(low), 1.0 - low, 1000);
    assert OpenPositions(l.rows) == {};
    hide SizeFromWallet, Amount;
  }

  lemma NothingOpen(rows: Rows)
    requires rows.positions == map[]
    ensures OpenPositions(rows) == {} && OpenPositionOf(rows, P) == None
  {
  }

  function FirstContext(low: real): FillContext {
    FillContext(Activated(low).wallet.value, Plan(low).(status := PlanReserved), Reserved(low, Shares(low)), None, 0)
  }

  lemma FillStep(t: Tolerance, l: Ledger, low: real)
    requires Low(low) && l.rows == Activated(low)
    ensures var r := ConfirmFill(l, Cfg(t), Buy(1.0, 10), FillClock(2, 2, 2), LISTING, FIRST);
            r.Ok? && r.value.rows == Filled(low)
  {
    hide FillRejection, OpenPositions, OpenPositionOf, BookFill;
    SweepIdle(l, 2);
    NothingOpen(l.rows);
    FirstGates(t, FirstContext(low), low);
    FirstBooked(t, l, low);
    hide Sweep;
  }

  lemma FirstBooked(t: Tolerance, l: Ledger, low: real)
    requires Low(low) && l.rows == Activated(low)
    ensures var r := BookFill(l, FirstContext(low), Cfg(t), Buy(1.0, 10), FIRST, 2);
            r.Ok? && r.value.rows == Filled(low)
  {
    hide FilledPosition, Consumed;
    FirstPosition(FirstContext(low), low);
    FirstConsumed(low);
  }

  lemma FirstPosition(c: FillContext, low: real)
    requires Low(low) && c.existing.None? && c.plan == Plan(low).(status := PlanReserved)
    ensures FilledPosition(c, Buy(1.0, 10), FIRST, 2) == Position(low)
  {
    hide Round4;
    GridPoint(Plan(low).tp1, if low == 0.0 then 25000 else 17500);
    GridPoint(Plan(low).tp2, if low == 0.0 then 30000 else 20000);
  }

  lemma FirstConsumed(low: real)
    requires Low(low)
    ensures Consumed(Plan(low).(status := PlanReserved), Reserved(low, Shares(low)), 10)
            == Reserved(low, Shares(low) - 10)
  {
    CentAmount(Shares(low) - 10, 1.003, if low == 0.0 then 0 else 1003);
    CentAmount(Shares(low) - 10, 1.0 - low, if low == 0.0 then 0 else 500);
    hide Amount;
  }

  lemma FirstGates(t: Tolerance, c: FillContext, low: real)
    requires Low(low) && c.existing.None? && c.plan == Plan(low).(status := PlanReserved) && c.openCount == 0
    requires c.wallet == Activated(low).wallet.value && c.reservation == Reserved(low, Shares(low))
    ensures FillRejection(c, Cfg(t), Buy(1.0, 10)).None?
  {
    assert EntryAverage(None, 1.0, 10) == 1.0;
    hide EntryAverage;
  }

  lemma ExitStep(l: Ledger)
    requires l.rows == Filled(0.5)
    ensures var r := ConfirmExit(l, FIRST, 1.0, 4, 3); r.Ok? && r.value.rows == Exited()
  {
  }

  /* ---- the runs ---- */

  function Opening(low: real): seq<Command> {
    [Seed(1000.0, 1000.0, 0), BuildPlan(Candidate(low), P, 0), ActivateBegin(P, LISTING, 1), ActivateEnd(P, MARKET, 1),
     Fill(Buy(1.0, 10), FillClock(2, 2, 2), LISTING, FIRST)]
  }

  const SELL := Exit(FIRST, 1.0, 4, 3)

  /** A run with one seed and neither of the calls that break a law. */
  ghost predicate PlainRun(cfg: Settings, cs: seq<Command>) {
    SteadyRun(cfg, cs, 1000.0) && WholeRun(cfg, cs) && StoppedRun(cfg, cs)
  }

  lemma After(t: Tolerance, cs: seq<Command>, c: Command)
    ensures Run(Cfg(t), cs + [c]) == Step(Cfg(t), Run(Cfg(t), cs), c)
    ensures var l := Run(Cfg(t), cs).ledger;
            && (SteadyRun(Cfg(t), cs + [c], 1000.0) <==>
                  SteadyRun(Cfg(t), cs, 1000.0) && Admissible(Cfg(t), l, c) && Steady(l, c, 1000.0))
            && (WholeRun(Cfg(t), cs + [c]) <==> WholeRun(Cfg(t), cs) && FillsWhole(l, c))
            && (StoppedRun(Cfg(t), cs + [c]) <==> StoppedRun(Cfg(t), cs) && ExitsStopped(l, c))
  {
    hide Perform;
    assert (cs + [c])[..|cs|] == cs;
  }

  lemma AfterNothing(t: Tolerance)
    ensures Run(Cfg(t), []) == START && PlainRun(Cfg(t), [])
  {
  }

  /** The run up to and including the evaluation that reserves. */
  lemma ActivatedRun(t: Tolerance, low: real)
    requires Low(low)
    ensures var cs := Opening(low)[..4]; Run(Cfg(t), cs).ledger.rows == Activated(low) && PlainRun(Cfg(t), cs)
  {
    hide Run, SteadyRun, WholeRun, StoppedRun, IssuePlan, ActivateWithContext, Sweep;
    var cs := Opening(low);
    AfterNothing(t);
    After(t, [], cs[0]);
    assert [] + [cs[0]] == cs[..1];
    var w1 := Run(Cfg(t), cs[..1]);
    assert w1.ledger.rows == Issued(low).(plans := map[]);
    After(t, cs[..1], cs[1]);
    assert cs[..1] + [cs[1]] == cs[..2];
    IssueStep(t, w1.ledger, low);
    var w2 := Run(Cfg(t), cs[..2]);
    After(t, cs[..2], cs[2]);
    assert cs[..2] + [cs[2]] == cs[..3];
    SweepIdle(w2.ledger, 1);
    var w3 := Run(Cfg(t), cs[..3]);
    assert w3.ledger == w2.ledger && (P, 1) in w3.pending;
    After(t, cs[..3], cs[3]);
    assert cs[..3] + [cs[3]] == cs[..4];
    ActivateStep(t, w3.ledger, low);
  }

  lemma FilledRun(t: Tolerance, low: real)
    requires Low(low)
    ensures Run(Cfg(t), Opening(low)).ledger.rows == Filled(low) && PlainRun(Cfg(t), Opening(low))
  {
    hide Run, SteadyRun, WholeRun, StoppedRun, ConfirmFill;
    var cs := Opening(low);
    ActivatedRun(t, low);
    After(t, cs[..4], cs[4]);
    assert cs[..4] + [cs[4]] == cs;
    FillStep(t, Run(Cfg(t), cs[..4]).ledger, low);
  }

  /** The books of a run without the two breaking calls, with the rows it ended with. */
  lemma RunIsBalanced(cs: seq<Command>)
    requires PlainRun(EXACT, cs) && Run(EXACT, cs).ledger.rows.wallet.Some?
    ensures var rows := Run(EXACT, cs).ledger.rows;
            Sound(rows) && StoplessPositive(rows) && Balanced(rows, 1000.0, 0.0) && Agrees(Run(EXACT, cs).ledger)
  {
    hide Perform;
    SteadyIsAdmissible(EXACT, cs, 1000.0);
    RunAgrees(EXACT, cs);
    RunBooks(EXACT, cs, 1000.0);
  }

  /** A run that issues a plan at a retest low of zero and sells four of the ten shares
      it bought: the books balance before the exit, and after it open risk stands above
      what the rows carry. The other three laws still hold. */
  lemma ZeroStopBreaksBooks()
    ensures var cs := Opening(0.0);
            var rows := Run(EXACT, cs + [SELL]).ledger.rows;
            && PlainRun(EXACT, cs) && Balanced(Run(EXACT, cs).ledger.rows, 1000.0, 0.0)
            && SteadyRun(EXACT, cs + [SELL], 1000.0)
            && ReservedHeld(rows) && CapitalHeld(rows, 1000.0, 0.0) && RiskCovered(rows, 0.0) && !RiskBacked(rows)
  {
    hide Run, SteadyRun, WholeRun, StoppedRun, ReservedHeld, CapitalHeld, RiskCovered, RiskBacked, Sound;
    var cs := Opening(0.0);
    FilledRun(0.0, 0.0);
    RunIsBalanced(cs);
    After(0.0, cs, SELL);
    ExitBalancedIff(Run(EXACT, cs).ledger, FIRST, 1.0, 4, 3, 1000.0);
  }

  /* ---- a fill after a partial exit ---- */

  /** The second fill, at a tenth of a cent more. */
  const MORE := Fill(Buy(1.001, 5), FillClock(4, 4, 4), LISTING, SECOND)

  lemma SoldRun()
    ensures var cs := Opening(0.5) + [SELL]; Run(EXACT, cs).ledger.rows == Exited() && PlainRun(EXACT, cs)
  {
    hide Run, SteadyRun, WholeRun, StoppedRun, ConfirmExit;
    FilledRun(0.0, 0.5);
    After(0.0, Opening(0.5), SELL);
    ExitStep(Run(EXACT, Opening(0.5)).ledger);
  }

  function Joined(): FillContext {
    FillContext(Exited().wallet.value, Plan(0.5).(status := PlanReserved), Reserved(0.5, 10),
                Some(Exited().positions[FIRST]), 1)
  }

  lemma OneOpen(rows: Rows)
    requires rows.positions == Exited().positions
    ensures OpenPositions(rows) == {FIRST} && OpenPositionOf(rows, P) == Some(FIRST)
  {
    assert rows.positions[FIRST].Open() && rows.positions[FIRST].planId == P;
    assert FIRST in OpenPositions(rows);
  }

  lemma MoreAverages()
    ensures EntryAverage(Joined().existing, 1.001, 5) == 15.005 / 15.0
  {
  }

  lemma MoreGates()
    ensures FillRejection(Joined(), EXACT, Buy(1.001, 5)).None?
  {
    MoreAverages();
    hide EntryAverage;
  }

  lemma MoreBooked(l: Ledger)
    requires l.rows == Exited()
    ensures BookFill(l, Joined(), EXACT, Buy(1.001, 5), SECOND, 4).Ok?
  {
    MoreAverages();
    Round2Error(5.0 * 1.003);
    CentAmount(5, 0.5, 250);
    hide EntryAverage, Round2, Round4;
  }

  /** A run that fills half a reservation, sells four of those ten shares, and then
      fills five more: the books balance before the second fill and not after it. */
  lemma JoinedFillBreaksBooks()
    ensures var cs := Opening(0.5) + [SELL];
            && PlainRun(EXACT, cs) && Balanced(Run(EXACT, cs).ledger.rows, 1000.0, 0.0)
            && SteadyRun(EXACT, cs + [MORE], 1000.0) && !Balanced(Run(EXACT, cs + [MORE]).ledger.rows, 1000.0, 0.0)
  {
    hide Run, SteadyRun, WholeRun, StoppedRun, Balanced, Sound, FillRejection, BookFill, OpenPositions,
         OpenPositionOf, Sweep;
    var cs := Opening(0.5) + [SELL];
    SoldRun();
    RunIsBalanced(cs);
    After(0.0, cs, MORE);
    var l := Run(EXACT, cs).ledger;
    SweepIdle(l, 4);
    OneOpen(l.rows);
    assert ContextOf(l.rows, P) == Joined();
    MoreGates();
    MoreBooked(l);
    BookFillBalancedIff(l, Joined(), EXACT, Buy(1.001, 5), SECOND, 4, 1000.0);
  }

  /* ---- an accounting error raised for a valid stop order ---- */

  /** Stops so close under the average of 1.0 that the risk of ten shares, or what a
      loosening within the tolerance adds to it, is less than the tolerance. */
  const NEAR := 1.0 - 0.00000000009
  const LOOSER := 1.0 - 0.00000000018

  function Raise(stop: real, now: int): Command {
    Protect(FIRST, stop, None, now)
  }

  /** Rows with this position and this open risk. */
  ghost predicate Holding(rows: Rows, stop: real, openRisk: real) {
    && rows.wallet.Some? && rows.wallet.value.openRisk == openRisk
    && P in rows.plans && rows.plans[P].stop == 0.0
    && FIRST in rows.positions && rows.positions[FIRST].planId == P && rows.positions[FIRST].stop == Some(stop)
    && rows.positions[FIRST].averageFill == 1.0 && rows.positions[FIRST].remainingQuantity == 10
  }

  lemma RaiseStep(l: Ledger, before: real, risk: real, stop: real, now: int)
    requires Holding(l.rows, before, risk) && stop >= before - SLACK && stop >= 0.0
    requires Abs(risk - RiskAt(1.0, before, 10) + RiskAt(1.0, stop, 10)) < SLACK
    ensures var r := ProtectPosition(l, Cfg(SLACK), FIRST, stop, None, now); r.Ok? && Holding(r.value.rows, stop, 0.0)
  {
    hide RiskAt;
  }

  /** A run of valid calls with the tolerance of the code: two stop orders just under
      the average each make the service drop a remainder of risk below its tolerance,
      and a third, tightening the stop to the average, is refused as a broken invariant. */
  lemma SnapsTripTheGuard()
    ensures var cs := Opening(0.0) + [Raise(NEAR, 3)] + [Raise(LOOSER, 4)];
            && PlainRun(Cfg(SLACK), cs)
            && ProtectPosition(Run(Cfg(SLACK), cs).ledger, Cfg(SLACK), FIRST, 1.0, None, 5)
            == Raised("WALLET_ACCOUNTING_INVARIANT_BROKEN")
  {
    hide Run, SteadyRun, WholeRun, StoppedRun, ProtectPosition;
    var cs := Opening(0.0);
    var cs1 := cs + [Raise(NEAR, 3)];
    FilledRun(SLACK, 0.0);
    After(SLACK, cs, Raise(NEAR, 3));
    RaiseStep(Run(Cfg(SLACK), cs).ledger, 0.0, 10.0, NEAR, 3);
    After(SLACK, cs1, Raise(LOOSER, 4));
    RaiseStep(Run(Cfg(SLACK), cs1).ledger, NEAR, 0.0, LOOSER, 4);
    GuardTrips(Run(Cfg(SLACK), cs1 + [Raise(LOOSER, 4)]).ledger);
  }

  lemma GuardTrips(l: Ledger)
    requires Holding(l.rows, LOOSER, 0.0)
    ensures ProtectPosition(l, Cfg(SLACK), FIRST, 1.0, None, 5) == Raised("WALLET_ACCOUNTING_INVARIANT_BROKEN")
  {
  }
}

/** Runs of the service: any sequence of its public steps, raising ones included.
    `activate` is two transactions with market reads in between, so it is two
    commands here and any others may run between them. */
module Runs {
  import opened Prelude
  import opened Domain
  import opened Tables
  import opened Planning
  import opened Ledger
  import opened Rebuilding
  import opened ReplayAgreement
  import opened RowSoundness
  import opened Lifecycle
  import opened TriggerLog
  import opened Accounting
  import opened FillAccounting

  datatype Command =
    | Seed(capital: real, cash: real, now: int)
    | ReconcileWalletCmd(capital: real, cash: real, dailyLoss: real, now: int)
    | Import(position: ImportArgs, ids: ImportIds, now: int)
    | ReconcileHoldingsCmd(holdings: seq<Holding>, order: seq<Id>, notes: seq<Event>, now: int)
    | BuildPlan(input: PlanInput, planId: Id, now: int)
    | SweepExpired(listing: Listing, now: int)
    | Trigger(planId: Id, at: int)
    | ActivateBegin(planId: Id, listing: Listing, now: int)
    | ActivateEnd(planId: Id, ctx: MarketContext, now: int)
    | ReleaseReservation(planId: Id, reason: ReleaseReason, now: int)
    | Fill(fill: FillArgs, clock: FillClock, listing: Listing, positionId: Id)
    | Protect(positionId: Id, stop: real, brokerOrderRef: Option<string>, now: int)
    | Exit(positionId: Id, price: real, quantity: int, now: int)
    | Observe(event: Event)

  /** The ledger, and the activations whose market reads are in flight. */
  datatype World = World(ledger: Ledger, pending: set<(Id, int)>)

  const START := World(EMPTY, {})

  ghost function Perform(cfg: Settings, l: Ledger, c: Command): Result<Ledger> {
    match c
    case Seed(capital, cash, now) => SeedWallet(l, capital, cash, now)
    case ReconcileWalletCmd(capital, cash, dailyLoss, now) => ReconcileWallet(l, capital, cash, dailyLoss, now)
    case Import(a, ids, now) => ImportPosition(l, a, ids, now)
    case ReconcileHoldingsCmd(holdings, order, notes, now) => ReconcileHoldings(l, holdings, order, notes, now)
    case BuildPlan(input, planId, now) => IssuePlan(l, input, cfg, planId, now)
    case SweepExpired(listing, now) => Ok(Sweep(l, listing, now))
    case Trigger(planId, at) => Ok(RecordTrigger(l, cfg, planId, at))
    case ActivateBegin(_, listing, now) => Ok(Sweep(l, listing, now))
    case ActivateEnd(planId, ctx, now) => ActivateWithContext(l, cfg, planId, ctx, now)
    case ReleaseReservation(planId, reason, now) => Ok(Release(l, planId, reason, now))
    case Fill(a, clock, listing, positionId) => ConfirmFill(l, cfg, a, clock, listing, positionId)
    case Protect(positionId, stop, ref, now) => ProtectPosition(l, cfg, positionId, stop, ref, now)
    case Exit(positionId, price, quantity, now) => ConfirmExit(l, positionId, price, quantity, now)
    case Observe(event) => Ok(Commit(l, l.rows, [event]))
  }

  /** A raising command leaves the ledger as it was; the second half of an
      activation runs only for a first half that got through. */
  ghost function Step(cfg: Settings, w: World, c: Command): World {
    if c.ActivateEnd? && (c.planId, c.now) !in w.pending then w
    else
      var r := Perform(cfg, w.ledger, c);
      if r.Raised? then w
      else
        World(r.value,
              if c.ActivateBegin? && ProceedsToMarket(r.value.rows, c.planId, c.now)
              then w.pending + {(c.planId, c.now)} else w.pending)
  }

  ghost function Run(cfg: Settings, cs: seq<Command>): World
    decreases |cs|
  {
    if cs == [] then START else Step(cfg, Run(cfg, cs[..|cs| - 1]), cs[|cs| - 1])
  }

  ghost predicate NotesOnly(notes: seq<Event>) {
    forall i :: 0 <= i < |notes| ==>
      notes[i].payload == NO_ROWS && notes[i].kind in {ReconciliationMismatch, UnknownHolding}
  }

  /** What the environment supplies: fresh identifiers, a complete listing, and
      events that carry no rows. */
  ghost predicate Admissible(cfg: Settings, l: Ledger, c: Command) {
    match c
    case Import(a, ids, _) => FreshImport(l.rows, ids)
    case ReconcileHoldingsCmd(_, order, notes, _) =>
      NotesOnly(notes) && forall id :: id in l.rows.positions ==> id in order
    case BuildPlan(_, planId, _) => FreshPlan(l.rows, planId)
    case Fill(_, _, _, positionId) => positionId !in l.rows.positions
    case Observe(event) => event.payload == NO_ROWS && event.kind.OtherEvent?
    case _ => true
  }

  ghost predicate AdmissibleRun(cfg: Settings, cs: seq<Command>)
    decreases |cs|
  {
    cs == [] || (AdmissibleRun(cfg, cs[..|cs| - 1]) && Admissible(cfg, Run(cfg, cs[..|cs| - 1]).ledger, cs[|cs| - 1]))
  }

  /** Whatever runs in between, the plan of an activation in flight is still not
      late at the activation's own timestamp. */
  ghost predicate PendingLive(w: World) {
    forall p :: p in w.pending ==> p.0 in w.ledger.rows.plans && p.1 <= w.ledger.rows.plans[p.0].expiresAt
  }

  /** A command that may take effect in this world. */
  ghost predicate Enabled(cfg: Settings, w: World, c: Command) {
    && Perform(cfg, w.ledger, c).Ok? && (c.ActivateEnd? ==> (c.planId, c.now) in w.pending)
  }

  /* ---- what single commands do ---- */

  lemma PerformIssue(cfg: Settings, l: Ledger, c: Command)
    requires c.BuildPlan?
    ensures Perform(cfg, l, c) == IssuePlan(l, c.input, cfg, c.planId, c.now)
  {
  }

  lemma PerformTrigger(cfg: Settings, l: Ledger, c: Command)
    requires c.Trigger?
    ensures Perform(cfg, l, c) == Ok(RecordTrigger(l, cfg, c.planId, c.at))
  {
  }

  lemma PerformActivation(cfg: Settings, l: Ledger, c: Command)
    requires c.ActivateEnd?
    ensures Perform(cfg, l, c) == ActivateWithContext(l, cfg, c.planId, c.ctx, c.now)
  {
  }

  lemma PerformExit(cfg: Settings, l: Ledger, c: Command)
    requires c.Exit?
    ensures Perform(cfg, l, c) == ConfirmExit(l, c.positionId, c.price, c.quantity, c.now)
  {
  }

  lemma StepAges(cfg: Settings, w: World, c: Command)
    requires PendingLive(w) && Admissible(cfg, w.ledger, c) && Enabled(cfg, w, c)
    ensures PlansAge(w.ledger.rows, Perform(cfg, w.ledger, c).value.rows)
  {
    hide RiskAt, Sum, ImportedPosition, ImportedWallet, ProtectedPosition, ExitedPosition, ExitedWallet,
         ReconciledPositions, BuildTradePlan, ConfirmFill, ActivateWithContext, Sweep, Release;
    var l := w.ledger;
    match c
    case SweepExpired(listing, now) => SweepAges(l, listing, now);
    case ActivateBegin(_, listing, now) => SweepAges(l, listing, now);
    case ActivateEnd(planId, ctx, now) =>
      assert (planId, now) in w.pending;
      ActivationAges(l, cfg, planId, ctx, now);
    case ReleaseReservation(planId, reason, now) => ReleaseAges(l, planId, reason, now);
    case Fill(a, clock, listing, positionId) => ConfirmFillAges(l, cfg, a, clock, listing, positionId);
    case _ =>
  }

  lemma StepPendingLive(cfg: Settings, w: World, c: Command)
    requires PendingLive(w) && Admissible(cfg, w.ledger, c)
    ensures PendingLive(Step(cfg, w, c))
  {
    hide Perform;
    if Enabled(cfg, w, c) {
      StepAges(cfg, w, c);
      var w' := Step(cfg, w, c);
      forall p | p in w'.pending ensures p.0 in w'.ledger.rows.plans && p.1 <= w'.ledger.rows.plans[p.0].expiresAt {
        if p in w.pending {
          var id := p.0;
          assert id in w.ledger.rows.plans;
          assert w'.ledger == Perform(cfg, w.ledger, c).value;
          assert PlanAges(w.ledger.rows.plans[id], w'.ledger.rows.plans[id]);
        }
      }
    }
  }

  lemma StepAgrees(cfg: Settings, w: World, c: Command)
    requires Agrees(w.ledger) && PendingLive(w) && Admissible(cfg, w.ledger, c) && Enabled(cfg, w, c)
    ensures Agrees(Perform(cfg, w.ledger, c).value)
  {
    var l := w.ledger;
    match c
    case Seed(capital, cash, now) => SeedAgrees(l, capital, cash, now);
    case ReconcileWalletCmd(capital, cash, dailyLoss, now) => ReconcileWalletAgrees(l, capital, cash, dailyLoss, now);
    case Import(a, ids, now) => ImportAgrees(l, a, ids, now);
    case ReconcileHoldingsCmd(holdings, order, notes, now) => ReconcileHoldingsAgrees(l, holdings, order, notes, now);
    case BuildPlan(input, planId, now) => IssueAgrees(l, input, cfg, planId, now);
    case SweepExpired(listing, now) => SweepAgrees(l, listing, now);
    case Trigger(planId, at) => TriggerAgrees(l, cfg, planId, at);
    case ActivateBegin(_, listing, now) => SweepAgrees(l, listing, now);
    case ActivateEnd(planId, ctx, now) =>
      assert (planId, now) in w.pending;
      ActivationAgreesIff(l, cfg, planId, ctx, now);
    case ReleaseReservation(planId, reason, now) => ReleaseAgrees(l, planId, reason, now);
    case Fill(a, clock, listing, positionId) => ConfirmFillAgrees(l, cfg, a, clock, listing, positionId);
    case Protect(positionId, stop, ref, now) => ProtectAgrees(l, cfg, positionId, stop, ref, now);
    case Exit(positionId, price, quantity, now) => ExitAgrees(l, positionId, price, quantity, now);
    case Observe(event) => CommitNotes(l, [event]);
  }

  /** Over every run the event log alone rebuilds the stored wallet, plans,
      reservations and positions. */
  lemma {:induction false} RunAgrees(cfg: Settings, cs: seq<Command>)
    requires AdmissibleRun(cfg, cs)
    ensures Agrees(Run(cfg, cs).ledger) && PendingLive(Run(cfg, cs))
    decreases |cs|
  {
    if cs != [] {
      hide Perform;
      var before, c := cs[..|cs| - 1], cs[|cs| - 1];
      var w := Run(cfg, before);
      RunAgrees(cfg, before);
      StepPendingLive(cfg, w, c);
      if Enabled(cfg, w, c) {
        StepAgrees(cfg, w, c);
      }
    }
  }

  /** In every reachable world the unlogged expiry write is unreachable, whatever
      other steps ran between the two halves of an activation. */
  lemma ActivationNeverWritesUnlogged(cfg: Settings, cs: seq<Command>, planId: Id, ctx: MarketContext, now: int)
    requires AdmissibleRun(cfg, cs) && (planId, now) in Run(cfg, cs).pending
    ensures !WritesUnlogged(Run(cfg, cs).ledger.rows, planId, now)
  {
    RunAgrees(cfg, cs);
    var p := (planId, now);
    assert p in Run(cfg, cs).pending;
  }

  /* ---- structure and lifecycle ---- */

  lemma ConfirmFillSound(l: Ledger, cfg: Settings, a: FillArgs, clock: FillClock, listing: Listing, positionId: Id)
    requires Sound(l.rows) && Agrees(l) && positionId !in l.rows.positions
    requires ConfirmFill(l, cfg, a, clock, listing, positionId).Ok?
    ensures Sound(ConfirmFill(l, cfg, a, clock, listing, positionId).value.rows)
    ensures Fillable(Sweep(l, listing, clock.swept).rows, ContextOf(Sweep(l, listing, clock.swept).rows, a.planId), a,
                     positionId)
  {
    hide BookFill, ApplyAll, PositionRejection;
    var swept := Sweep(l, listing, clock.swept);
    SweepSound(l, listing, clock.swept);
    SweepAgrees(l, listing, clock.swept);
    SweepKeepsPositions(l, listing, clock.swept);
    BookFillSound(swept, ContextOf(swept.rows, a.planId), cfg, a, positionId, clock.booked);
  }

  lemma StepSound(cfg: Settings, w: World, c: Command)
    requires Sound(w.ledger.rows) && Agrees(w.ledger) && Admissible(cfg, w.ledger, c) && Enabled(cfg, w, c)
    ensures Sound(Perform(cfg, w.ledger, c).value.rows)
  {
    var l := w.ledger;
    match c
    case Seed(capital, cash, now) => SeedSound(l, capital, cash, now);
    case ReconcileWalletCmd(capital, cash, dailyLoss, now) => ReconcileWalletSound(l, capital, cash, dailyLoss, now);
    case Import(a, ids, now) => ImportSound(l, a, ids, now);
    case ReconcileHoldingsCmd(holdings, order, notes, now) => ReconcileHoldingsSound(l, holdings, order, notes, now);
    case BuildPlan(input, planId, now) => IssueSound(l, input, cfg, planId, now);
    case SweepExpired(listing, now) => SweepSound(l, listing, now);
    case Trigger(planId, at) => TriggerSound(l, cfg, planId, at);
    case ActivateBegin(_, listing, now) => SweepSound(l, listing, now);
    case ActivateEnd(planId, ctx, now) => ActivationSound(l, cfg, planId, ctx, now);
    case ReleaseReservation(planId, reason, now) => ReleaseSound(l, planId, reason, now);
    case Fill(a, clock, listing, positionId) => ConfirmFillSound(l, cfg, a, clock, listing, positionId);
    case Protect(positionId, stop, ref, now) => ProtectSound(l, cfg, positionId, stop, ref, now);
    case Exit(positionId, price, quantity, now) => ExitSound(l, positionId, price, quantity, now);
    case Observe(event) =>
  }

  /** In every reachable world a plan is RESERVED exactly while it has a
      reservation, and has at most one open position. */
  lemma {:induction false} RunSound(cfg: Settings, cs: seq<Command>)
    requires AdmissibleRun(cfg, cs)
    ensures Sound(Run(cfg, cs).ledger.rows)
    decreases |cs|
  {
    if cs != [] {
      hide Perform, ApplyAll;
      var before, c := cs[..|cs| - 1], cs[|cs| - 1];
      RunAgrees(cfg, before);
      RunSound(cfg, before);
      if Enabled(cfg, Run(cfg, before), c) {
        StepSound(cfg, Run(cfg, before), c);
      }
    }
  }

  /** From one world of a run to the next, plans only age: levels never move,
      expiry never moves earlier, FILLED and EXPIRED are never left. */
  lemma RunAges(cfg: Settings, cs: seq<Command>, c: Command)
    requires AdmissibleRun(cfg, cs + [c])
    ensures PlansAge(Run(cfg, cs).ledger.rows, Run(cfg, cs + [c]).ledger.rows)
  {
    hide Perform, ApplyAll;
    assert (cs + [c])[..|cs + [c]| - 1] == cs;
    RunAgrees(cfg, cs);
    if Enabled(cfg, Run(cfg, cs), c) {
      StepAges(cfg, Run(cfg, cs), c);
    }
  }

  lemma IssueQuiet(l: Ledger, input: PlanInput, cfg: Settings, planId: Id, now: int)
    requires FreshPlan(l.rows, planId) && IssuePlan(l, input, cfg, planId, now).Ok?
    ensures Quiet(l, IssuePlan(l, input, cfg, planId, now).value)
  {
    hide VolatilityGateReason, TargetAtrBudgetReason, LaneRiskMultiplier, Round4;
  }

  lemma StepQuiet(cfg: Settings, w: World, c: Command)
    requires Admissible(cfg, w.ledger, c) && Enabled(cfg, w, c) && !c.Trigger?
    ensures Quiet(w.ledger, Perform(cfg, w.ledger, c).value)
  {
    hide RiskAt, Sum, ImportedPosition, ImportedWallet, ProtectedPosition, ExitedPosition, ExitedWallet,
         ReconciledPositions, BuildTradePlan, ConfirmFill, ActivateWithContext, Sweep, Release;
    var l := w.ledger;
    match c
    case BuildPlan(input, planId, now) => IssueQuiet(l, input, cfg, planId, now);
    case SweepExpired(listing, now) => SweepQuiet(l, listing, now);
    case ActivateBegin(_, listing, now) => SweepQuiet(l, listing, now);
    case ActivateEnd(planId, ctx, now) => ActivationQuiet(l, cfg, planId, ctx, now);
    case ReleaseReservation(planId, reason, now) => ReleaseQuiet(l, planId, reason, now);
    case Fill(a, clock, listing, positionId) => ConfirmFillQuiet(l, cfg, a, clock, listing, positionId);
    case _ =>
  }

  lemma StepTriggers(cfg: Settings, w: World, c: Command)
    requires TriggersLogged(w.ledger) && Admissible(cfg, w.ledger, c) && Enabled(cfg, w, c)
    ensures TriggersLogged(Perform(cfg, w.ledger, c).value)
  {
    hide TriggersLogged, Quiet;
    if c.Trigger? {
      RecordTriggerLogged(w.ledger, cfg, c.planId, c.at);
    } else {
      hide Perform;
      StepQuiet(cfg, w, c);
      QuietKeepsLog(w.ledger, Perform(cfg, w.ledger, c).value);
    }
  }

  /** Over every run each plan logs one TRIGGER_HIT if it was triggered, else none. */
  lemma {:induction false} RunTriggers(cfg: Settings, cs: seq<Command>)
    requires AdmissibleRun(cfg, cs)
    ensures TriggersLogged(Run(cfg, cs).ledger)
    decreases |cs|
  {
    if cs != [] {
      hide Perform;
      var before, c := cs[..|cs| - 1], cs[|cs| - 1];
      RunTriggers(cfg, before);
      if Enabled(cfg, Run(cfg, before), c) {
        StepTriggers(cfg, Run(cfg, before), c);
      }
    }
  }
}

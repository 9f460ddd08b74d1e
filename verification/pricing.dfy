// The poll loop's numbers: its incremental prices add up to what the broker
// reported, it asks a bounded number of times, and its status agrees.
module Pricing {
  import opened Money
  import opened Models
  import opened TradeCloser
  import opened Accounting
  import opened Ledger
  import opened Environment
  import opened Fills

  lemma {:induction false} FillsSnoc(fills: seq<Fill>, f: Fill, id: Id)
    ensures FillsOf(fills + [f], id) == if f.orderId == id then FillsOf(fills, id) + [f] else FillsOf(fills, id)
  {
    assert (fills + [f])[..|fills|] == fills;
  }

  lemma {:induction false} SumsSnoc(fs: seq<Fill>, f: Fill)
    ensures SumQty(fs + [f]) == SumQty(fs) + f.qty
    ensures SumValue(fs + [f]) == SumValue(fs) + f.price * f.qty
  {
    assert (fs + [f])[..|fs|] == fs;
  }

  lemma {:induction false} SettlingAddsNoFill(t: Tables, job: PollJob, f: Fill, faults: Faults)
    ensures SettleSpec(t, job, f, faults).tables.fills == t.fills
    ensures SettleSpec(t, job, f, faults).tables.orders == t.orders
  {
    var ticker := job.decision.ticker;
    var update := ApplyFill(GetPosition(t, ticker), f, job.decision, job.side, job.reason,
                            CarriedFor(t, ticker, f, job.side));
    if update.Ok? { StoringAddsNoFill(t, ticker, update.value, f.id, faults); }
  }

  lemma {:induction false} StoringAddsNoFill(t: Tables, ticker: Ticker, update: PositionUpdate, fill: Id,
                                             faults: Faults)
    ensures StoreUpdate(t, ticker, update, fill, faults).tables.fills == t.fills
    ensures StoreUpdate(t, ticker, update, fill, faults).tables.orders == t.orders
  {
  }

  // ---- the incremental prices telescope ----

  /** The order's fill rows hold the recorded shares, and their value is the recorded
      notional up to the seed's rounding and half a tick for each share of this call. */
  ghost predicate Telescopes(s: PollState, job: PollJob, seed: nat, startQty: nat) {
    var own := FillsOf(s.tables.fills, job.orderId);
    && SumQty(own) == s.recordedQty && startQty <= s.recordedQty
    && Within(SumValue(own) - TICKS_PER_CENT * s.recordedNotional, seed + (s.recordedQty - startQty))
  }

  lemma {:induction false} StartTelescopes(t: Tables, job: PollJob)
    ensures var s := PollStart(t, job.orderId);
            Telescopes(s, job, if FillsOf(t.fills, job.orderId) == [] then 0 else TICKS_PER_CENT, s.recordedQty)
  {
    if FillsOf(t.fills, job.orderId) == [] { RoundExact(0, TICKS_PER_CENT); }
  }

  lemma {:induction false} IncrementPriced(delta: Cents, newQty: Shares)
    ensures Within(RoundHalfEven(TICKS_PER_CENT * delta, newQty) * newQty - TICKS_PER_CENT * delta, newQty)
  {
  }

  /** One more fill, priced from the increment. */
  lemma {:induction false} IncrementTelescopes(own: seq<Fill>, f: Fill, notional: Cents, delta: Cents, seed: nat,
                                               startQty: nat)
    requires f.price == RoundHalfEven(TICKS_PER_CENT * delta, f.qty) && startQty <= SumQty(own)
    requires Within(SumValue(own) - TICKS_PER_CENT * notional, seed + (SumQty(own) - startQty))
    ensures SumQty(own + [f]) == SumQty(own) + f.qty
    ensures Within(SumValue(own + [f]) - TICKS_PER_CENT * (notional + delta), seed + (SumQty(own) + f.qty - startQty))
  {
    SumsSnoc(own, f);
    IncrementPriced(delta, f.qty);
  }

  lemma {:induction false} TelescopesOnward(s: PollState, s': PollState, job: PollJob, f: Fill, delta: Cents, seed: nat,
                                            startQty: nat)
    requires Telescopes(s, job, seed, startQty)
    requires s'.tables.fills == s.tables.fills + [f] && f.orderId == job.orderId
    requires s'.recordedQty == s.recordedQty + f.qty && s'.recordedNotional == s.recordedNotional + delta
    requires f.price == RoundHalfEven(TICKS_PER_CENT * delta, f.qty)
    ensures Telescopes(s', job, seed, startQty)
  {
    FillsSnoc(s.tables.fills, f, job.orderId);
    IncrementTelescopes(FillsOf(s.tables.fills, job.orderId), f, s.recordedNotional, delta, seed, startQty);
  }

  /** A turn that records a fill row and cannot settle it. */
  ghost predicate Unsettled(s: PollState, job: PollJob, env: Env) {
    env.broker.read(job.clientOrderId, s.polls).Ok?
    && var fill := NewFill(s, job, env.broker.read(job.clientOrderId, s.polls).value, env);
    && fill.Some?
    && var t1 := InsertFill(s.tables, fill.value, env.faults);
    t1.Ok? && SettleSpec(t1.value, job, fill.value, env.faults).error.Some?
  }

  /** A row that is there and not counted. */
  lemma {:induction false} UncountedBreaks(s: PollState, s': PollState, job: PollJob, f: Fill, seed: nat, startQty: nat)
    requires Telescopes(s, job, seed, startQty)
    requires s'.tables.fills == s.tables.fills + [f] && f.orderId == job.orderId && s'.recordedQty == s.recordedQty
    ensures !Telescopes(s', job, seed, startQty)
  {
    FillsSnoc(s.tables.fills, f, job.orderId);
    SumsSnoc(FillsOf(s.tables.fills, job.orderId), f);
  }

  lemma {:induction false} NewFillTelescopes(s: PollState, job: PollJob, bo: BrokerOrder, env: Env, seed: nat,
                                             startQty: nat)
    requires Telescopes(s, job, seed, startQty) && env.broker.read(job.clientOrderId, s.polls) == Ok(bo)
    ensures Telescopes(RecordNew(s, job, bo, env).state, job, seed, startQty) <==> !Unsettled(s, job, env)
  {
    var fill := NewFill(s, job, bo, env);
    if fill.Some? && InsertFill(s.tables, fill.value, env.faults).Ok? {
      var f, s' := fill.value, RecordNew(s, job, bo, env).state;
      var t1 := InsertFill(s.tables, f, env.faults).value;
      SettlingAddsNoFill(t1, job, f, env.faults);
      if SettleSpec(t1, job, f, env.faults).error.None? {
        TelescopesOnward(s, s', job, f, CumulativeNotional(bo).value - s.recordedNotional, seed, startQty);
      } else {
        UncountedBreaks(s, s', job, f, seed, startQty);
      }
    }
  }

  /** What a turn leaves when it goes on, or ends well. */
  ghost predicate Healthy(step: PollStep) { step.Stop? ==> step.result.Ok? }

  lemma {:induction false} ConcludeTelescopes(recorded: Recorded, job: PollJob, bo: BrokerOrder, env: Env, seed: nat,
                                              startQty: nat)
    ensures Telescopes(Conclude(recorded, job, bo, env).state, job, seed, startQty)
            <==> Telescopes(recorded.state, job, seed, startQty)
  {
  }

  /** However a turn ends, the sums still hold exactly when it did not leave a fill unsettled. */
  lemma {:induction false} TurnTelescopes(s: PollState, job: PollJob, env: Env, seed: nat, startQty: nat)
    requires Telescopes(s, job, seed, startQty)
    ensures Telescopes(Turn(s, job, env).state, job, seed, startQty) <==> !Unsettled(s, job, env)
    ensures var step := Turn(s, job, env);
            step.Continue? || step.result.Ok? || step.result.error.BrokerFailed? ==> !Unsettled(s, job, env)
  {
    match env.broker.read(job.clientOrderId, s.polls)
    case Err(_) =>
    case Ok(bo) =>
      NewFillTelescopes(s, job, bo, env, seed, startQty);
      ConcludeTelescopes(RecordNew(s, job, bo, env), job, bo, env, seed, startQty);
  }

  /** Still in the loop after n more turns, where the sleep between turns returns for the interval. */
  ghost predicate StillPolling(s: PollState, job: PollJob, env: Env, sleeps: int -> bool, n: nat)
    decreases n
  {
    n == 0
    || (Turn(s, job, env).Continue? && sleeps(job.interval)
        && StillPolling(Turn(s, job, env).state, job, env, sleeps, n - 1))
  }

  /** The loop's variables after n turns. */
  ghost function AfterTurns(s: PollState, job: PollJob, env: Env, n: nat): PollState
    decreases n
  {
    if n == 0 then s else AfterTurns(Turn(s, job, env).state, job, env, n - 1)
  }

  /** At every iteration the sums hold. */
  lemma {:induction false} EveryTurnTelescopes(s: PollState, job: PollJob, env: Env, sleeps: int -> bool, n: nat,
                                               seed: nat, startQty: nat)
    requires Telescopes(s, job, seed, startQty) && StillPolling(s, job, env, sleeps, n)
    ensures Telescopes(AfterTurns(s, job, env, n), job, seed, startQty)
    decreases n
  {
    if n > 0 {
      TurnTelescopes(s, job, env, seed, startQty);
      EveryTurnTelescopes(Turn(s, job, env).state, job, env, sleeps, n - 1, seed, startQty);
    }
  }

  /** The loop's variables when its last turn began. */
  ghost function LastTurn(s: PollState, job: PollJob, env: Env): PollState
    requires Ends(s, job)
    decreases job.timeout - s.elapsed
  {
    match Turn(s, job, env)
    case Stop(_, _) => s
    case Continue(s') => TurnAdvances(s, job, env); LastTurn(s', job, env)
  }

  /** However a poll ends, a broker error or a failed update included, the sums hold exactly when its
      last turn did not leave a fill unsettled. */
  lemma {:induction false} PollTelescopes(s: PollState, job: PollJob, env: Env, seed: nat, startQty: nat)
    requires Ends(s, job) && Telescopes(s, job, seed, startQty)
    ensures Telescopes(Poll(s, job, env).state, job, seed, startQty) <==> !Unsettled(LastTurn(s, job, env), job, env)
    ensures var r := Poll(s, job, env).result;
            r.Ok? || r.error.BrokerFailed? ==> !Unsettled(LastTurn(s, job, env), job, env)
    decreases job.timeout - s.elapsed
  {
    TurnTelescopes(s, job, env, seed, startQty);
    match Turn(s, job, env)
    case Stop(_, _) =>
    case Continue(s') =>
      TurnAdvances(s, job, env);
      PollTelescopes(s', job, env, seed, startQty);
  }

  // ---- how often the broker is asked ----

  /** Every read but the first came an interval after a read made in time. */
  ghost predicate OnSchedule(polls: nat, elapsed: int, job: PollJob) {
    elapsed == polls * job.interval && (polls == 0 || (polls - 1) * job.interval < job.timeout)
  }

  lemma {:induction false} ScheduleAdvances(polls: nat, elapsed: int, job: PollJob)
    requires OnSchedule(polls, elapsed, job) && elapsed < job.timeout
    ensures OnSchedule(polls + 1, elapsed + job.interval, job)
  {
    assert (polls + 1) * job.interval == polls * job.interval + job.interval;
  }

  lemma {:induction false} ReadsBounded(s: PollState, job: PollJob, env: Env)
    requires Ends(s, job) && OnSchedule(s.polls, s.elapsed, job)
    ensures exists elapsed :: OnSchedule(Poll(s, job, env).state.polls, elapsed, job)
    decreases job.timeout - s.elapsed
  {
    match Turn(s, job, env)
    case Stop(_, _) =>
      TurnStopsHere(s, job, env);
      assert OnSchedule(Poll(s, job, env).state.polls, s.elapsed, job);
    case Continue(s') =>
      TurnAdvances(s, job, env);
      ScheduleAdvances(s.polls, s.elapsed, job);
      ReadsBounded(s', job, env);
      assert Poll(s, job, env) == Poll(s', job, env);
  }

  /** With a positive interval a poll makes at most ceil(timeout / interval) + 1 reads. */
  lemma {:induction false} ReadCount(t: Tables, job: PollJob, env: Env)
    requires job.interval >= 1
    ensures var asked := Poll(PollStart(t, job.orderId), job, env).state.polls + 1;
            asked <= (Max(0, job.timeout) + job.interval - 1) / job.interval + 1
  {
    ReadsBounded(PollStart(t, job.orderId), job, env);
    var last := Poll(PollStart(t, job.orderId), job, env).state.polls;
    if last > 0 { CeilAtLeast(last, job.timeout, job.interval); }
    QuotientBounds(Max(0, job.timeout) + job.interval - 1, job.interval);
  }

  lemma {:induction false} CeilAtLeast(n: nat, total: int, part: int)
    requires part >= 1 && n >= 1 && (n - 1) * part < total
    ensures n <= (total + part - 1) / part
  {
    QuotientBounds(total + part - 1, part);
    var q := (total + part - 1) / part;
    assert n * part == (n - 1) * part + part;
    assert (q + 1) * part == q * part + part;
    if q < n { MulMonotone(q + 1, n, part); }
  }

  lemma {:induction false} TurnStopsHere(s: PollState, job: PollJob, env: Env)
    requires Turn(s, job, env).Stop?
    ensures Turn(s, job, env).state.polls == s.polls
  {
  }

  lemma {:induction false} LeavesInTime(s: PollState, job: PollJob, env: Env, sleeps: int -> bool, n: nat)
    requires job.interval >= 1 && n >= 1 && (n - 1) * job.interval >= job.timeout - s.elapsed
    ensures !StillPolling(s, job, env, sleeps, n)
    decreases n
  {
    if Turn(s, job, env).Continue? {
      TurnAdvances(s, job, env);
      assert (n - 1) * job.interval == (n - 2) * job.interval + job.interval;
      if n > 1 { LeavesInTime(Turn(s, job, env).state, job, env, sleeps, n - 1); }
    }
  }

  /** An order the broker accepted and never fills. */
  const IDLE := BrokerOrder("", Submitted, 0, None)

  lemma {:induction false} IdleStays(s: PollState, job: PollJob, env: Env, sleeps: int -> bool, n: nat)
    requires job.interval <= 0 && sleeps(job.interval) && s.elapsed < job.timeout && s.lastStatus == Submitted
    requires forall k: nat :: env.broker.read(job.clientOrderId, k) == Ok(IDLE)
    ensures StillPolling(s, job, env, sleeps, n)
    decreases n
  {
    if n > 0 {
      assert NewFill(s, job, IDLE, env) == None;
      assert Turn(s, job, env) == Continue(s.(elapsed := s.elapsed + job.interval, polls := s.polls + 1));
      IdleStays(Turn(s, job, env).state, job, env, sleeps, n - 1);
    }
  }

  /** The loop returns, or its sleep raises. */
  ghost predicate Leaves(t: Tables, job: PollJob, env: Env, sleeps: int -> bool) {
    exists n: nat :: !StillPolling(PollStart(t, job.orderId), job, env, sleeps, n)
  }

  /** The loop ends whatever the broker answers exactly when the interval is positive, there
      is no time to wait, or the injected sleep raises on the interval. */
  lemma {:induction false} PollEndsExactly(job: PollJob, sleeps: int -> bool)
    ensures (forall t: Tables, env: Env :: Leaves(t, job, env, sleeps))
            <==> CanPoll(job.interval, job.timeout) || !sleeps(job.interval)
  {
    if CanPoll(job.interval, job.timeout) || !sleeps(job.interval) {
      forall t: Tables, env: Env ensures Leaves(t, job, env, sleeps) { LeavesWhen(t, job, env, sleeps); }
    } else {
      var t, env := Tables(map[], map[], [], map[], [], map[], [], [], map[]), IdleEnv();
      forall n: nat ensures StillPolling(PollStart(t, job.orderId), job, env, sleeps, n) {
        IdleStays(PollStart(t, job.orderId), job, env, sleeps, n);
      }
      assert !Leaves(t, job, env, sleeps);
    }
  }

  /** The default sleep, `time.sleep`: it raises ValueError on a negative number of seconds. */
  predicate TimeSleep(seconds: int) { seconds >= 0 }

  /** With the default sleep just the zero interval hangs. */
  lemma {:induction false} PollEndsWithTimeSleep(job: PollJob)
    ensures (forall t: Tables, env: Env :: Leaves(t, job, env, TimeSleep)) <==> job.interval != 0 || job.timeout <= 0
  {
    PollEndsExactly(job, TimeSleep);
  }

  lemma {:induction false} LeavesWhen(t: Tables, job: PollJob, env: Env, sleeps: int -> bool)
    requires CanPoll(job.interval, job.timeout) || !sleeps(job.interval)
    ensures Leaves(t, job, env, sleeps)
  {
    var s := PollStart(t, job.orderId);
    if job.interval >= 1 {
      var n: nat := Max(0, job.timeout) + 1;
      MulMonotone(1, job.interval, n - 1);
      LeavesInTime(s, job, env, sleeps, n);
    } else {
      if Turn(s, job, env).Continue? { TurnAdvances(s, job, env); }
      assert !StillPolling(s, job, env, sleeps, 1);
    }
  }

  function IdleEnv(): Env {
    Env(Broker(Ok(0), Ok(0), _ => Ok(IDLE), (_, _) => Ok(IDLE)),
        Market(Err(""), _ => Err(""), _ => Err("")),
        _ => false, _ => 0, _ => "", [], None)
  }

  // ---- the order's status ----

  ghost predicate StatusAgrees(s: PollState, job: PollJob) {
    job.orderId in s.tables.orders && s.tables.orders[job.orderId].status == s.lastStatus
  }

  lemma {:induction false} TurnStatus(s: PollState, job: PollJob, env: Env)
    requires StatusAgrees(s, job) && Healthy(Turn(s, job, env))
    ensures var step := Turn(s, job, env);
            StatusAgrees(step.state, job) && (step.Stop? ==> step.result.value.finalStatus == step.state.lastStatus)
  {
    var bo := env.broker.read(job.clientOrderId, s.polls).value;
    var fill := NewFill(s, job, bo, env);
    var recorded := RecordNew(s, job, bo, env);
    if fill.Some? {
      SettlingAddsNoFill(InsertFill(s.tables, fill.value, env.faults).value, job, fill.value, env.faults);
    }
    assert StatusAgrees(recorded.state, job);
    ConcludeStatus(recorded, job, bo, env);
  }

  lemma {:induction false} ConcludeStatus(recorded: Recorded, job: PollJob, bo: BrokerOrder, env: Env)
    requires StatusAgrees(recorded.state, job) && Healthy(Conclude(recorded, job, bo, env))
    ensures var step := Conclude(recorded, job, bo, env);
            StatusAgrees(step.state, job) && (step.Stop? ==> step.result.value.finalStatus == step.state.lastStatus)
  {
  }

  /** After a poll that ends well the stored status is the reported final one. */
  lemma {:induction false} PollStatusAgrees(s: PollState, job: PollJob, env: Env)
    requires Ends(s, job) && StatusAgrees(s, job) && Poll(s, job, env).result.Ok?
    ensures var p := Poll(s, job, env);
            job.orderId in p.state.tables.orders
            && p.state.tables.orders[job.orderId].status == p.result.value.finalStatus
    decreases job.timeout - s.elapsed
  {
    TurnStatus(s, job, env);
    match Turn(s, job, env)
    case Stop(_, _) =>
    case Continue(s') =>
      TurnAdvances(s, job, env);
      PollStatusAgrees(s', job, env);
  }

  // ---- nothing the broker reports is lost ----

  function Level(bo: BrokerOrder): Cents { CumulativeNotional(bo).GetOr(0) }

  /** A broker whose cent-rounded cumulative notional strictly grows with its filled quantity. */
  ghost predicate Growing(id: Id, env: Env) {
    && (forall k: nat {:trigger env.broker.read(id, k)} :: env.broker.read(id, k).Ok?
          && env.broker.read(id, k).value.filledQty > 0
          ==> env.broker.read(id, k).value.filledAvgPrice.Some? && Level(env.broker.read(id, k).value) > 0)
    && (forall j: nat, k: nat {:trigger env.broker.read(id, j), env.broker.read(id, k)} ::
          j < k && env.broker.read(id, j).Ok? && env.broker.read(id, k).Ok?
          ==> var a, b := env.broker.read(id, j).value, env.broker.read(id, k).value;
              a.filledQty <= b.filledQty && (a.filledQty < b.filledQty ==> Level(a) < Level(b)))
  }

  /** What is recorded is what some earlier read reported, or nothing. */
  ghost predicate Anchored(s: PollState, before: nat, id: Id, env: Env) {
    || (s.recordedQty == 0 && s.recordedNotional == 0)
    || exists j: nat :: j < before && env.broker.read(id, j).Ok?
         && env.broker.read(id, j).value.filledQty == s.recordedQty
           && Level(env.broker.read(id, j).value) == s.recordedNotional
  }

  /** And it is never ahead of the broker. */
  ghost predicate NotAhead(s: PollState, from: nat, id: Id, env: Env) {
    forall k: nat :: k >= from && env.broker.read(id, k).Ok? ==> s.recordedQty <= env.broker.read(id, k).value.filledQty
  }

  /** What the last good one of the first n reads reported; nothing before any. */
  ghost function ReportedBy(id: Id, env: Env, n: nat): nat {
    if n == 0 then 0
    else if env.broker.read(id, n - 1).Ok? then env.broker.read(id, n - 1).value.filledQty
    else ReportedBy(id, env, n - 1)
  }

  /** A turn whose new fill row cannot be inserted. */
  ghost predicate RowRefused(s: PollState, job: PollJob, env: Env) {
    env.broker.read(job.clientOrderId, s.polls).Ok?
    && var fill := NewFill(s, job, env.broker.read(job.clientOrderId, s.polls).value, env);
    fill.Some? && InsertFill(s.tables, fill.value, env.faults).Err?
  }

  /** Rows and recorded quantity are what was last reported. */
  ghost predicate UpToDate(s: PollState, job: PollJob, env: Env) {
    && SumQty(FillsOf(s.tables.fills, job.orderId)) == s.recordedQty == ReportedBy(job.clientOrderId, env, s.polls)
    && Anchored(s, s.polls, job.clientOrderId, env) && NotAhead(s, s.polls, job.clientOrderId, env)
  }

  lemma {:induction false} ConcludeFills(recorded: Recorded, job: PollJob, bo: BrokerOrder, env: Env)
    ensures var s := Conclude(recorded, job, bo, env).state;
            && s.tables.fills == recorded.state.tables.fills
            && s.recordedQty == recorded.state.recordedQty && s.recordedNotional == recorded.state.recordedNotional
  {
  }

  /** A growing broker has a fill to record whenever it reports more than is recorded. */
  lemma {:induction false} FillWhenBehind(s: PollState, job: PollJob, bo: BrokerOrder, env: Env)
    requires Growing(job.clientOrderId, env) && Anchored(s, s.polls, job.clientOrderId, env)
    requires NotAhead(s, s.polls, job.clientOrderId, env) && env.broker.read(job.clientOrderId, s.polls) == Ok(bo)
    ensures s.recordedQty <= bo.filledQty
    ensures NewFill(s, job, bo, env).None? ==> bo.filledQty == s.recordedQty
    ensures NewFill(s, job, bo, env).Some? ==> NewFill(s, job, bo, env).value.qty == bo.filledQty - s.recordedQty
  {
  }

  lemma {:induction false} RecordKeepsUp(s: PollState, job: PollJob, bo: BrokerOrder, env: Env)
    requires Growing(job.clientOrderId, env) && UpToDate(s, job, env)
    requires env.broker.read(job.clientOrderId, s.polls) == Ok(bo)
    ensures var r := RecordNew(s, job, bo, env);
            && (SumQty(FillsOf(r.state.tables.fills, job.orderId)) == bo.filledQty <==> !RowRefused(s, job, env))
            && (r.error.None? ==>
                  && r.state.recordedQty == bo.filledQty && !RowRefused(s, job, env)
                  && Anchored(r.state, s.polls + 1, job.clientOrderId, env))
  {
    var fill := NewFill(s, job, bo, env);
    FillWhenBehind(s, job, bo, env);
    if fill.Some? && !RowRefused(s, job, env) {
      SettlingAddsNoFill(InsertFill(s.tables, fill.value, env.faults).value, job, fill.value, env.faults);
      FillsSnoc(s.tables.fills, fill.value, job.orderId);
      SumsSnoc(FillsOf(s.tables.fills, job.orderId), fill.value);
    }
  }

  /** Where a poll ended: its order's rows sum to what was last reported, exactly unless the last row was
      refused; and where it ended well or by a broker error, that is also what it counts as recorded. */
  ghost predicate KeptUp(p: Polled, refused: bool, job: PollJob, env: Env) {
    var last := ReportedBy(job.clientOrderId, env, p.state.polls + 1);
    && (SumQty(FillsOf(p.state.tables.fills, job.orderId)) == last <==> !refused)
    && (p.result.Ok? || p.result.error.BrokerFailed? ==> p.state.recordedQty == last)
  }

  lemma {:induction false} TurnKeepsUp(s: PollState, job: PollJob, env: Env)
    requires Growing(job.clientOrderId, env) && UpToDate(s, job, env)
    ensures match Turn(s, job, env)
            case Continue(s') => UpToDate(s', job, env)
            case Stop(s', r) => KeptUp(Polled(s', r), RowRefused(s, job, env), job, env)
  {
    match env.broker.read(job.clientOrderId, s.polls)
    case Err(_) =>
    case Ok(bo) =>
      RecordKeepsUp(s, job, bo, env);
      ConcludeFills(RecordNew(s, job, bo, env), job, bo, env);
      var step := Turn(s, job, env);
      if step.Continue? {
        TurnAdvances(s, job, env);
        StaysAnchored(RecordNew(s, job, bo, env).state, step.state, job, bo, env);
      } else {
        TurnStopsHere(s, job, env);
      }
  }

  lemma {:induction false} StaysAnchored(r: PollState, s': PollState, job: PollJob, bo: BrokerOrder, env: Env)
    requires Growing(job.clientOrderId, env) && s'.polls >= 1 && Anchored(r, s'.polls, job.clientOrderId, env)
    requires env.broker.read(job.clientOrderId, s'.polls - 1) == Ok(bo)
    requires s'.recordedQty == r.recordedQty == bo.filledQty && s'.recordedNotional == r.recordedNotional
    ensures Anchored(s', s'.polls, job.clientOrderId, env) && NotAhead(s', s'.polls, job.clientOrderId, env)
  {
  }

  /** The same of a whole poll, however it ends. */
  lemma {:induction false} PollKeepsUp(s: PollState, job: PollJob, env: Env)
    requires Ends(s, job) && Growing(job.clientOrderId, env) && UpToDate(s, job, env)
    ensures KeptUp(Poll(s, job, env), RowRefused(LastTurn(s, job, env), job, env), job, env)
    decreases job.timeout - s.elapsed
  {
    TurnKeepsUp(s, job, env);
    match Turn(s, job, env)
    case Stop(_, _) =>
    case Continue(s') =>
      TurnAdvances(s, job, env);
      PollKeepsUp(s', job, env);
  }
}

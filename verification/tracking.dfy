// Exactly what a poll does with what it reads: which rows it adds, what they say,
// what it notes of the status, and after which read it stops.
module Tracking {
  import opened Money
  import opened Models
  import opened Ledger
  import opened Environment
  import opened Fills
  import opened Pricing

  // ---- one read ----

  /** A read reports more shares than are recorded, at an average price that makes them worth more. */
  predicate News(bo: BrokerOrder, qty: nat, notional: Cents) {
    bo.filledQty > qty && bo.filledAvgPrice.Some? && Worth(bo) > notional
  }

  /** What a read says all shares filled so far cost, to the cent. */
  function Worth(bo: BrokerOrder): Cents {
    if bo.filledAvgPrice.Some? then ToCents(bo.filledQty * bo.filledAvgPrice.value) else 0
  }

  /** The row the k-th read makes: the new shares, at their share of the new cost, and without a fee. */
  ghost predicate RowFor(f: Fill, bo: BrokerOrder, k: nat, qty: nat, notional: Cents, job: PollJob, env: Env) {
    && f.qty == bo.filledQty - qty && IsHalfEven(TICKS_PER_CENT * (Worth(bo) - notional), f.qty, f.price) && f.fee == 0
    && f.orderId == job.orderId && f.id == env.uuid(FreshFill(job.clientOrderId, k))
    && f.filledAt == env.now(Filling(job.clientOrderId, k))
  }

  predicate Fits(t: Tables, f: Fill, faults: Faults) {
    !faults(InsertFillStmt(f.id)) && f.orderId in t.orders && forall g :: g in t.fills ==> g.id != f.id
  }

  lemma {:induction false} NewFillExactly(s: PollState, job: PollJob, bo: BrokerOrder, env: Env)
    ensures var fill := NewFill(s, job, bo, env);
            && (fill.Some? <==> News(bo, s.recordedQty, s.recordedNotional))
            && (fill.Some? ==> RowFor(fill.value, bo, s.polls, s.recordedQty, s.recordedNotional, job, env)
                               && CumulativeNotional(bo) == Some(Worth(bo)))
  {
    if bo.filledAvgPrice.Some? {
      assert bo.filledQty * bo.filledAvgPrice.value == bo.filledAvgPrice.value * bo.filledQty;
    }
  }

  lemma {:induction false} InsertsExactly(t: Tables, f: Fill, faults: Faults)
    ensures InsertFill(t, f, faults).Ok? <==> Fits(t, f, faults)
    ensures InsertFill(t, f, faults).Ok? ==> InsertFill(t, f, faults).value == t.(fills := t.fills + [f])
    ensures InsertFill(t, f, faults).Err? ==> InsertFill(t, f, faults).error != NoSuchRow
  {
  }

  /** What a read leaves recorded: nothing new without news; without a row if it does not fit; with a row and
      not counted if it cannot be settled; and otherwise counted. */
  ghost predicate ReadRecorded(s: PollState, bo: BrokerOrder, f: Fill, r: Recorded, job: PollJob, env: Env) {
    if !News(bo, s.recordedQty, s.recordedNotional) then r == RecordedFill(s, None)
    else
      && RowFor(f, bo, s.polls, s.recordedQty, s.recordedNotional, job, env)
      && if !Fits(s.tables, f, env.faults) then r.state == s && r.error.Some? && r.error.value.DbFailed?
         else
           var settled := SettleSpec(s.tables.(fills := s.tables.fills + [f]), job, f, env.faults);
           && r.error == settled.error
           && r.state == if settled.error.Some? then s.(tables := settled.tables)
                         else s.(tables := settled.tables, recordedQty := bo.filledQty, recordedNotional := Worth(bo),
                                 fillsRecorded := s.fillsRecorded + 1)
  }

  lemma {:induction false} ReadRecordsExactly(s: PollState, job: PollJob, bo: BrokerOrder, env: Env) returns (f: Fill)
    ensures ReadRecorded(s, bo, f, RecordNew(s, job, bo, env), job, env)
  {
    NewFillExactly(s, job, bo, env);
    var fill := NewFill(s, job, bo, env);
    if fill.Some? {
      f := fill.value;
      InsertsExactly(s.tables, f, env.faults);
    } else {
      f := Fill("", "", 0, 1, 0, 0);
    }
  }

  /** A changed status is stored on the order's row with the broker's id, and nothing else of it changes. */
  lemma {:induction false} NotesExactly(s: PollState, job: PollJob, bo: BrokerOrder, env: Env)
    ensures var r := NoteStatus(s, job, bo, env);
            if bo.status == s.lastStatus then r == RecordedFill(s, None)
            else if env.faults(UpdateOrderStmt(job.orderId, Some(s.polls))) || job.orderId !in s.tables.orders then
              r.state == s && r.error.Some? && r.error.value.DbFailed?
            else
              var row := s.tables.orders[job.orderId].(status := bo.status, brokerOrderId := Some(bo.brokerOrderId));
              r == RecordedFill(s.(tables := s.tables.(orders := s.tables.orders[job.orderId := row]),
                                   lastStatus := bo.status), None)
  {
  }

  predicate Ended(status: OrderStatus) { status in {Filled, Canceled, BrokerRejected} }

  /** After an error the loop stops; after a good read with nothing left to wait for, or no time left, it ends well,
      with the status read; otherwise it goes on. */
  lemma {:induction false} StopsExactly(s: PollState, job: PollJob, env: Env)
    ensures match env.broker.read(job.clientOrderId, s.polls)
            case Err(message) => Turn(s, job, env) == Stop(s, Err(BrokerFailed(message)))
            case Ok(bo) =>
              var step, recorded := Turn(s, job, env), RecordNew(s, job, bo, env);
              if recorded.error.Some? then step == Stop(recorded.state, Err(recorded.error.value))
              else
                var noted := NoteStatus(recorded.state, job, bo, env);
                if noted.error.Some? then step == Stop(noted.state, Err(noted.error.value))
                else if Ended(bo.status) || s.elapsed >= job.timeout then
                  step == Stop(noted.state, Ok(PollOutcome(noted.state.fillsRecorded, bo.status)))
                else
                  step == Continue(noted.state.(elapsed := s.elapsed + job.interval, polls := s.polls + 1))
  {
  }

  /** A poll begins at read 0 with no time gone, the order submitted, and what is stored of it recorded. */
  lemma {:induction false} StartsExactly(t: Tables, orderId: Id)
    ensures var s, own := PollStart(t, orderId), FillsOf(t.fills, orderId);
            && s.tables == t && s.polls == 0 && s.elapsed == 0 && s.fillsRecorded == 0 && s.lastStatus == Submitted
            && s.recordedQty == SumQty(own) && IsHalfEven(SumValue(own), TICKS_PER_CENT, s.recordedNotional)
  {
  }

  // ---- the whole poll ----

  /** After the k-th read there was something to wait for, and time. */
  ghost predicate WaitsAfter(k: int, s: PollState, job: PollJob, env: Env)
    requires k >= s.polls
  {
    && env.broker.read(job.clientOrderId, k).Ok? && !Ended(env.broker.read(job.clientOrderId, k).value.status)
    && s.elapsed + (k - s.polls) * job.interval < job.timeout
  }

  /** Whether read n ends the poll as it ended. */
  ghost predicate EndsAt(n: int, s: PollState, job: PollJob, r: Result<PollOutcome, FillsError>, env: Env)
    requires n >= s.polls
  {
    match r
    case Err(BrokerFailed(message)) => env.broker.read(job.clientOrderId, n) == Err(message)
    case Err(_) => env.broker.read(job.clientOrderId, n).Ok?
    case Ok(o) =>
      && env.broker.read(job.clientOrderId, n).Ok?
      && o.finalStatus == env.broker.read(job.clientOrderId, n).value.status
      && !WaitsAfter(n, s, job, env)
  }

  lemma {:induction false} LaterWaits(k: int, s: PollState, s': PollState, job: PollJob, env: Env)
    requires s'.polls == s.polls + 1 && s'.elapsed == s.elapsed + job.interval && k >= s'.polls
    ensures WaitsAfter(k, s, job, env) <==> WaitsAfter(k, s', job, env)
  {
    assert (k - s.polls) * job.interval == (k - s'.polls) * job.interval + job.interval;
  }

  lemma {:induction false} SettlementIsNoRead(t: Tables, job: PollJob, f: Fill, faults: Faults)
    ensures SettleSpec(t, job, f, faults).error.Some? ==> !SettleSpec(t, job, f, faults).error.value.BrokerFailed?
  {
  }

  lemma {:induction false} TurnEnds(s: PollState, job: PollJob, env: Env)
    ensures match Turn(s, job, env)
            case Continue(_) => WaitsAfter(s.polls, s, job, env)
            case Stop(_, r) => EndsAt(s.polls, s, job, r, env)
  {
    StopsExactly(s, job, env);
    match env.broker.read(job.clientOrderId, s.polls)
    case Err(_) =>
    case Ok(bo) =>
      var f := ReadRecordsExactly(s, job, bo, env);
      SettlementIsNoRead(s.tables.(fills := s.tables.fills + [f]), job, f, env.faults);
      NotesExactly(RecordNew(s, job, bo, env).state, job, bo, env);
  }

  /** The poll reads on exactly as long as every read is good, leaves something to wait for, and is in time. */
  lemma {:induction false} PollRunsUntil(s: PollState, job: PollJob, env: Env)
    requires Ends(s, job)
    ensures var p := Poll(s, job, env);
            && s.polls <= p.state.polls && EndsAt(p.state.polls, s, job, p.result, env)
            && forall k :: s.polls <= k < p.state.polls ==> WaitsAfter(k, s, job, env)
    decreases job.timeout - s.elapsed
  {
    TurnEnds(s, job, env);
    PollUnrolls(s, job, env);
    match Turn(s, job, env)
    case Stop(_, _) => TurnStopsHere(s, job, env);
    case Continue(s') =>
      TurnAdvances(s, job, env);
      PollRunsUntil(s', job, env);
      var p := Poll(s', job, env);
      forall k | s'.polls <= k <= p.state.polls ensures WaitsAfter(k, s, job, env) <==> WaitsAfter(k, s', job, env) {
        LaterWaits(k, s, s', job, env);
      }
  }

  /** The rows reads k..n make, one after the other, with qty and notional recorded before. */
  ghost predicate RowsOf(rows: seq<Fill>, k: nat, n: nat, qty: nat, notional: Cents, job: PollJob, env: Env)
    requires k <= n
    decreases n - k
  {
    if k == n then rows == []
    else
      var read := env.broker.read(job.clientOrderId, k);
      if read.Ok? && News(read.value, qty, notional) then
        && rows != [] && RowFor(rows[0], read.value, k, qty, notional, job, env)
        && RowsOf(rows[1..], k + 1, n, read.value.filledQty, Worth(read.value), job, env)
      else RowsOf(rows, k + 1, n, qty, notional, job, env)
  }

  /** A turn adds the row its read makes, if it fits, and counts it, if it is settled. */
  lemma {:induction false} TurnAdds(s: PollState, job: PollJob, env: Env) returns (added: seq<Fill>)
    ensures var s' := Turn(s, job, env).state;
            && s'.tables.fills == s.tables.fills + added
            && (RowRefused(s, job, env) ==> added == [] && s'.fillsRecorded == s.fillsRecorded)
            && (Unsettled(s, job, env) ==> |added| == 1 && s'.fillsRecorded == s.fillsRecorded)
            && (!RowRefused(s, job, env) ==>
                  RowsOf(added, s.polls, s.polls + 1, s.recordedQty, s.recordedNotional, job, env))
            && (!RowRefused(s, job, env) && !Unsettled(s, job, env) ==>
                  && s'.fillsRecorded == s.fillsRecorded + |added|
                  && var read := env.broker.read(job.clientOrderId, s.polls);
                  if added == [] then s'.recordedQty == s.recordedQty && s'.recordedNotional == s.recordedNotional
                  else s'.recordedQty == read.value.filledQty && s'.recordedNotional == Worth(read.value))
    ensures Turn(s, job, env).Continue? ==> !RowRefused(s, job, env) && !Unsettled(s, job, env)
  {
    match env.broker.read(job.clientOrderId, s.polls)
    case Err(_) => added := [];
    case Ok(bo) =>
      var fill, r := NewFill(s, job, bo, env), RecordNew(s, job, bo, env);
      NewFillExactly(s, job, bo, env);
      ConcludeAdds(r, job, bo, env);
      if fill.None? || InsertFill(s.tables, fill.value, env.faults).Err? {
        added := [];
      } else {
        added := [fill.value];
        SettlingAddsNoFill(InsertFill(s.tables, fill.value, env.faults).value, job, fill.value, env.faults);
      }
  }

  lemma {:induction false} ConcludeAdds(r: Recorded, job: PollJob, bo: BrokerOrder, env: Env)
    ensures var s := Conclude(r, job, bo, env).state;
            && s.tables.fills == r.state.tables.fills && s.fillsRecorded == r.state.fillsRecorded
            && s.recordedQty == r.state.recordedQty && s.recordedNotional == r.state.recordedNotional
    ensures Conclude(r, job, bo, env).Continue? ==> r.error.None?
  {
  }

  lemma {:induction false} RowsPrepend(added: seq<Fill>, rows: seq<Fill>, k: nat, n: nat, qty: nat, notional: Cents,
                                       qty': nat, notional': Cents, job: PollJob, env: Env)
    requires k < n && RowsOf(added, k, k + 1, qty, notional, job, env)
    requires RowsOf(rows, k + 1, n, qty', notional', job, env)
    requires var read := env.broker.read(job.clientOrderId, k);
             if added == [] then qty' == qty && notional' == notional
             else read.Ok? && qty' == read.value.filledQty && notional' == Worth(read.value)
    ensures RowsOf(added + rows, k, n, qty, notional, job, env)
  {
    if added == [] {
      assert added + rows == rows;
    } else {
      assert (added + rows)[1..] == rows;
    }
  }

  /** The rows are those of every read of the poll, the last one left out only if its row did not fit; all of
      them are counted, the last one only if it was settled. */
  ghost predicate Added(s: PollState, p: Polled, refused: bool, unsettled: bool, rows: seq<Fill>, job: PollJob,
                        env: Env)
  {
    && s.polls <= p.state.polls && p.state.tables.fills == s.tables.fills + rows
    && RowsOf(rows, s.polls, if refused then p.state.polls else p.state.polls + 1, s.recordedQty, s.recordedNotional,
              job, env)
    && p.state.fillsRecorded == s.fillsRecorded + |rows| - (if unsettled then 1 else 0)
    && (p.result.Ok? ==> p.result.value.fillsRecorded == p.state.fillsRecorded && !refused && !unsettled)
  }

  lemma {:induction false} AddedFirst(s: PollState, s': PollState, p: Polled, refused: bool, unsettled: bool,
                                      added: seq<Fill>, rest: seq<Fill>, job: PollJob, env: Env)
    requires Added(s', p, refused, unsettled, rest, job, env) && s'.polls == s.polls + 1
    requires s'.tables.fills == s.tables.fills + added && s'.fillsRecorded == s.fillsRecorded + |added|
    requires RowsOf(added, s.polls, s.polls + 1, s.recordedQty, s.recordedNotional, job, env)
    requires var read := env.broker.read(job.clientOrderId, s.polls);
             if added == [] then s'.recordedQty == s.recordedQty && s'.recordedNotional == s.recordedNotional
             else read.Ok? && s'.recordedQty == read.value.filledQty && s'.recordedNotional == Worth(read.value)
    ensures Added(s, p, refused, unsettled, added + rest, job, env)
  {
    RowsPrepend(added, rest, s.polls, if refused then p.state.polls else p.state.polls + 1, s.recordedQty,
                s.recordedNotional, s'.recordedQty, s'.recordedNotional, job, env);
  }

  lemma {:induction false} OneRowIsRead(added: seq<Fill>, k: nat, qty: nat, notional: Cents, job: PollJob, env: Env)
    requires RowsOf(added, k, k + 1, qty, notional, job, env) && added != []
    ensures env.broker.read(job.clientOrderId, k).Ok?
  {
  }

  lemma {:induction false} LastAdds(s: PollState, job: PollJob, env: Env) returns (rows: seq<Fill>)
    requires Turn(s, job, env).Stop?
    ensures Added(s, Polled(Turn(s, job, env).state, Turn(s, job, env).result), RowRefused(s, job, env),
                  Unsettled(s, job, env), rows, job, env)
  {
    rows := TurnAdds(s, job, env);
    TurnStopsHere(s, job, env);
    if Turn(s, job, env).result.Ok? { StopCounts(s, job, env); }
  }

  /** The rows a poll adds are exactly those its reads make, in order. */
  lemma {:induction false} PollAddsRows(s: PollState, job: PollJob, env: Env) returns (rows: seq<Fill>)
    requires Ends(s, job)
    ensures Added(s, Poll(s, job, env), RowRefused(LastTurn(s, job, env), job, env),
                  Unsettled(LastTurn(s, job, env), job, env), rows, job, env)
    decreases job.timeout - s.elapsed
  {
    PollUnrolls(s, job, env);
    match Turn(s, job, env)
    case Stop(_, _) => rows := LastAdds(s, job, env);
    case Continue(s') =>
      var added := TurnAdds(s, job, env);
      TurnAdvances(s, job, env);
      var rest := PollAddsRows(s', job, env);
      if added != [] { OneRowIsRead(added, s.polls, s.recordedQty, s.recordedNotional, job, env); }
      AddedFirst(s, s', Poll(s', job, env), RowRefused(LastTurn(s', job, env), job, env),
                 Unsettled(LastTurn(s', job, env), job, env), added, rest, job, env);
      rows := added + rest;
  }

  lemma {:induction false} StopCounts(s: PollState, job: PollJob, env: Env)
    requires Turn(s, job, env).Stop? && Turn(s, job, env).result.Ok?
    ensures Turn(s, job, env).result.value.fillsRecorded == Turn(s, job, env).state.fillsRecorded
    ensures !RowRefused(s, job, env) && !Unsettled(s, job, env)
  {
  }

  /** None of them carries a fee. */
  lemma {:induction false} RowsAreFree(rows: seq<Fill>, k: nat, n: nat, qty: nat, notional: Cents, job: PollJob,
                                       env: Env)
    requires k <= n && RowsOf(rows, k, n, qty, notional, job, env)
    ensures forall f :: f in rows ==> f.fee == 0
    decreases n - k
  {
    if k < n {
      var read := env.broker.read(job.clientOrderId, k);
      if read.Ok? && News(read.value, qty, notional) {
        RowsAreFree(rows[1..], k + 1, n, read.value.filledQty, Worth(read.value), job, env);
        assert rows == [rows[0]] + rows[1..];
      } else {
        RowsAreFree(rows, k + 1, n, qty, notional, job, env);
      }
    }
  }
}

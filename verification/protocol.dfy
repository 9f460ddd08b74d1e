// Record before submit, at most once: the invariant of the connection and the
// trace, and that recording, committing, rolling back and submitting keep it.
// The trace is closed under prefixes, so a crash between any two steps leaves a
// trace of which all of this still holds.
module Protocol {
  import opened Models
  import opened Ledger
  import opened Environment
  import opened Execution

  /** What the database holds after the given commits and submissions. */
  ghost function Durable(trace: seq<Event>): Option<Tables> {
    if trace == [] then None
    else if trace[|trace| - 1].Committed? then Some(trace[|trace| - 1].tables)
    else Durable(trace[..|trace| - 1])
  }

  /** Everything of an order row that its status updates never touch or lose. */
  ghost predicate SameOrder(a: Order, b: Order) {
    && a.id == b.id && a.decisionId == b.decisionId && a.approvalId == b.approvalId
    && a.clientOrderId == b.clientOrderId && a.mode == b.mode && a.side == b.side && a.qty == b.qty
    && (a.brokerOrderId.Some? ==> b.brokerOrderId.Some?) && (a.submittedAt.Some? ==> b.submittedAt.Some?)
  }

  /** No decision, approval or order is ever lost or rewritten. */
  ghost predicate Grows(a: Tables, b: Tables) {
    && (forall id :: id in a.decisions ==> id in b.decisions && b.decisions[id] == a.decisions[id])
    && (forall id :: id in a.orders ==> id in b.orders && SameOrder(a.orders[id], b.orders[id]))
    && (forall x :: x in a.approvals ==> x in b.approvals)
  }

  /** A request's order, approval and rule-checked decision are rows of t. */
  ghost predicate RecordedIn(t: Tables, r: OrderRequest) {
    && r.clientOrderId in t.orders
    && var o := t.orders[r.clientOrderId];
    && o.clientOrderId == r.clientOrderId == OrderId(o.decisionId) && o.side == r.side && o.qty == r.qty
    && o.decisionId in t.decisions
    && var d := t.decisions[o.decisionId];
    && d.ruleCheck == Passed && d.ticker == r.ticker && OrderSide(d.action) == Some(r.side)
    && exists a :: a in t.approvals && a.id == o.approvalId && a.decisionId == o.decisionId
  }

  ghost predicate RecordedFirst(trace: seq<Event>) {
    forall i :: 0 <= i < |trace| && trace[i].Sent? ==>
      && Durable(trace[..i]).Some?
      && RecordedIn(Durable(trace[..i]).value, trace[i].request)
  }

  ghost predicate AtMostOnce(trace: seq<Event>) {
    forall i, j :: 0 <= i < j < |trace| && trace[i].Sent? && trace[j].Sent?
      ==> trace[i].request.clientOrderId != trace[j].request.clientOrderId
  }

  ghost predicate SentAreOrders(trace: seq<Event>, t: Tables) {
    forall i :: 0 <= i < |trace| && trace[i].Sent? ==> trace[i].request.clientOrderId in t.orders
  }

  /** At every point of the trace, whatever was sent is still an order of the database. */
  ghost predicate SentKept(trace: seq<Event>) {
    forall i :: 0 <= i <= |trace| && Durable(trace[..i]).Some? ==> SentAreOrders(trace[..i], Durable(trace[..i]).value)
  }

  ghost predicate Safe(w: World) {
    && Durable(w.trace) == Some(w.committed)
    && Grows(w.committed, w.working)
    && RecordedFirst(w.trace) && AtMostOnce(w.trace) && SentKept(w.trace)
  }

  lemma {:induction false} GrowsTransitive(a: Tables, b: Tables, c: Tables)
    requires Grows(a, b) && Grows(b, c)
    ensures Grows(a, c)
  {
  }

  lemma {:induction false} SafeWrite(w: World, t: Tables)
    requires Safe(w) && Grows(w.working, t)
    ensures Safe(w.(working := t))
  {
    GrowsTransitive(w.committed, w.working, t);
  }

  lemma {:induction false} DurableSnoc(trace: seq<Event>, e: Event)
    ensures Durable(trace + [e]) == if e.Committed? then Some(e.tables) else Durable(trace)
    ensures (trace + [e])[..|trace|] == trace && (trace + [e])[..|trace| + 1] == trace + [e]
    ensures forall i :: 0 <= i <= |trace| ==> (trace + [e])[..i] == trace[..i]
  {
    assert (trace + [e])[..|trace|] == trace;
  }

  lemma {:induction false} RecordedFirstSnoc(trace: seq<Event>, e: Event)
    requires RecordedFirst(trace)
    requires e.Sent? ==> Durable(trace).Some? && RecordedIn(Durable(trace).value, e.request)
    ensures RecordedFirst(trace + [e])
  {
    DurableSnoc(trace, e);
  }

  lemma {:induction false} SentKeptSnoc(trace: seq<Event>, e: Event)
    requires SentKept(trace)
    requires Durable(trace + [e]).Some? ==> SentAreOrders(trace + [e], Durable(trace + [e]).value)
    ensures SentKept(trace + [e])
  {
    DurableSnoc(trace, e);
  }

  lemma {:induction false} TraceSnoc(trace: seq<Event>, e: Event)
    requires RecordedFirst(trace) && SentKept(trace)
    requires e.Sent? ==> Durable(trace).Some? && RecordedIn(Durable(trace).value, e.request)
    requires var t := if e.Committed? then Some(e.tables) else Durable(trace);
             t.Some? ==> SentAreOrders(trace + [e], t.value)
    ensures Durable(trace + [e]) == if e.Committed? then Some(e.tables) else Durable(trace)
    ensures RecordedFirst(trace + [e]) && SentKept(trace + [e])
  {
    DurableSnoc(trace, e);
    RecordedFirstSnoc(trace, e);
    SentKeptSnoc(trace, e);
  }

  lemma {:induction false} SafeCommit(w: World)
    requires Safe(w)
    ensures Safe(CommitWorld(w))
  {
    SentNow(w);
    TraceSnoc(w.trace, Committed(w.working));
  }

  lemma {:induction false} SafeSend(w: World, r: OrderRequest)
    requires Safe(w) && RecordedIn(w.committed, r)
    requires forall i :: 0 <= i < |w.trace| && w.trace[i].Sent? ==> w.trace[i].request.clientOrderId != r.clientOrderId
    ensures Safe(SendWorld(w, r))
  {
    SentNow(w);
    TraceSnoc(w.trace, Sent(r));
  }

  lemma {:induction false} SentNow(w: World)
    requires Safe(w)
    ensures SentAreOrders(w.trace, w.committed)
  {
    assert w.trace[..|w.trace|] == w.trace;
  }

  // ---- a crash ----

  /** The process dies when `kept` events have happened: only what was committed is left. */
  ghost function Crash(w: World, kept: nat): World
    requires kept <= |w.trace| && Durable(w.trace[..kept]).Some?
  {
    var t := Durable(w.trace[..kept]).value;
    World(t, t, w.trace[..kept])
  }

  /** Safety of a trace is safety of every prefix of it. */
  lemma {:induction false} SafePrefix(w: World, kept: nat)
    requires Safe(w) && kept <= |w.trace| && Durable(w.trace[..kept]).Some?
    ensures Safe(Crash(w, kept))
  {
    var prefix := w.trace[..kept];
    assert forall i :: 0 <= i <= kept ==> prefix[..i] == w.trace[..i];
  }

  // ---- recording ----

  /** The stored decision, if there is one, is the one in hand. */
  ghost predicate Agrees(t: Tables, d: Decision) { d.id in t.decisions ==> t.decisions[d.id] == d }

  lemma {:induction false} RecordAdds(t: Tables, req: ApprovedOrderRequest, mode: Mode, faults: Faults)
    requires Authorized(req) && Agrees(t, req.decision) && RecordOrder(t, req, mode, faults).Ok?
    ensures var u := RecordOrder(t, req, mode, faults).value;
            && req.clientOrderId !in t.orders
            && u.decisions == t.decisions[req.decision.id := req.decision]
            && u.orders == t.orders[req.clientOrderId := NewOrder(req, mode)]
            && u == t.(decisions := u.decisions, orders := u.orders, approvals := t.approvals + [req.approval])
  {
    if req.decision.id in t.decisions {
      assert t.decisions[req.decision.id := req.decision] == t.decisions;
    }
  }

  lemma {:induction false} RecordGrows(t: Tables, req: ApprovedOrderRequest, mode: Mode, faults: Faults)
    requires Authorized(req) && Agrees(t, req.decision) && RecordOrder(t, req, mode, faults).Ok?
    ensures var u := RecordOrder(t, req, mode, faults).value; Grows(t, u) && RecordedIn(u, RequestOf(req))
    ensures req.clientOrderId !in t.orders
  {
    RecordAdds(t, req, mode, faults);
    var u := RecordOrder(t, req, mode, faults).value;
    assert req.approval in u.approvals by { assert u.approvals[|u.approvals| - 1] == req.approval; }
  }

  /** The decisions of a world after executing `d`: what was there, and at most `d` more. */
  ghost predicate OnlyAdds(before: Tables, after: Tables, d: Decision) {
    forall id :: id in after.decisions ==>
      (id in before.decisions && after.decisions[id] == before.decisions[id])
        || (id == d.id && after.decisions[id] == d)
  }

  /** Recording, committing and submitting a request whose order is new. */
  lemma {:induction false} SafeRecord(w: World, t: Tables, r: OrderRequest)
    requires Safe(w) && Grows(w.working, t) && RecordedIn(t, r) && r.clientOrderId !in w.working.orders
    ensures Safe(CommitWorld(w.(working := t)))
    ensures Safe(SendWorld(CommitWorld(w.(working := t)), r))
  {
    SafeWrite(w, t);
    SafeCommit(w.(working := t));
    SentNow(w);
    var w1 := CommitWorld(w.(working := t));
    forall i | 0 <= i < |w1.trace| && w1.trace[i].Sent?
      ensures w1.trace[i].request.clientOrderId != r.clientOrderId
    {
      assert i < |w.trace| && w.trace[i] == w1.trace[i];
    }
    SafeSend(w1, r);
  }

  lemma {:induction false} RecordTransactionSafe(w: World, req: ApprovedOrderRequest, mode: Mode, faults: Faults)
    requires Safe(w) && Authorized(req) && Agrees(w.working, req.decision)
    ensures var (w1, failed) := RecordTransaction(w, req, mode, faults);
            && Safe(w1) && OnlyAdds(w.working, w1.working, req.decision)
            && (failed.None? ==> Safe(SendWorld(w1, RequestOf(req))))
  {
    var t := RecordOrder(w.working, req, mode, faults);
    var (w1, failed) := RecordTransaction(w, req, mode, faults);
    if failed.None? {
      RecordGrows(w.working, req, mode, faults);
      SafeRecord(w, t.value, RequestOf(req));
    }
  }

  /** Executing an authorized request keeps the invariant, whatever fails on the way. */
  lemma {:induction false} ExecuteSafe(w: World, req: ApprovedOrderRequest, env: Env, mode: Mode)
    requires Safe(w) && Authorized(req) && Agrees(w.working, req.decision)
    ensures var w' := ExecuteSpec(w, req, env, mode).world;
            && Safe(w') && OnlyAdds(w.working, w'.working, req.decision)
  {
    var (w1, failed) := RecordTransaction(w, req, mode, env.faults);
    RecordTransactionSafe(w, req, mode, env.faults);
    if failed.None? {
      AfterSubmitSafe(SendWorld(w1, RequestOf(req)), req, env, mode);
    }
  }

  lemma {:induction false} AfterSubmitSafe(w: World, req: ApprovedOrderRequest, env: Env, mode: Mode)
    requires Safe(w)
    ensures var w' := AfterSubmit(w, req, env, mode).world;
            Safe(w') && w'.working.decisions == w.working.decisions && w'.trace == w.trace
              && w'.committed == w.committed
  {
    var w' := AfterSubmit(w, req, env, mode).world;
    if w' != w {
      assert Grows(w.working, w'.working);
      SafeWrite(w, w'.working);
    }
  }

  // ---- exactly when something is sent ----

  /** A request leaves the process exactly when its recording transaction commits. */
  lemma {:induction false} SendsExactlyWhenRecorded(w: World, req: ApprovedOrderRequest, env: Env, mode: Mode)
    requires req.clientOrderId == OrderId(req.decision.id)
    ensures var w' := ExecuteSpec(w, req, env, mode).world;
            var recorded := RecordOrder(w.working, req, mode, env.faults).Ok?
              && !env.faults(CommitStmt(req.clientOrderId));
            && (recorded ==> w'.trace == w.trace + [Committed(w'.committed), Sent(RequestOf(req))])
            && (!recorded ==> w'.trace == w.trace && w'.working == w.committed == w'.committed)
  {
    var (w1, failed) := RecordTransaction(w, req, mode, env.faults);
    if failed.None? {
      var w2 := SendWorld(w1, RequestOf(req));
      assert w2.trace == w.trace + [Committed(w1.committed), Sent(RequestOf(req))];
      var w' := AfterSubmit(w2, req, env, mode).world;
      assert w'.trace == w2.trace && w'.committed == w2.committed;
    }
  }

  /** In live mode the approval is already a row, its second insert is a duplicate,
      and so no live request is ever sent and the whole pending transaction is reverted. */
  lemma {:induction false} LiveNeverSends(w: World, d: Decision, env: Env, nextClose: Time)
    requires ResolveApproval(d, Live, w.working, env, nextClose).Ok?
    ensures var req := ResolveApproval(d, Live, w.working, env, nextClose).value;
            var x := ExecuteSpec(w, req, env, Live);
            && x.world == RollbackWorld(w) && x.result.Err? && x.result.error.RecordFailed?
            && (d.id in w.working.decisions && !env.faults(InsertApprovalStmt(req.approval.id)) ==>
                  x.result.error.why == Duplicate)
  {
    var req := ResolveApproval(d, Live, w.working, env, nextClose).value;
    assert req.approval in w.working.approvals;
    assert RecordOrder(w.working, req, Live, env.faults).Err?;
  }

  /** Submitting a decision a second time fails while recording, and sends nothing. */
  lemma {:induction false} SecondExecuteFails(w: World, req: ApprovedOrderRequest, env: Env, mode: Mode)
    requires req.clientOrderId == OrderId(req.decision.id) && req.clientOrderId in w.working.orders
    ensures var x := ExecuteSpec(w, req, env, mode);
            x.result.Err? && x.result.error.RecordFailed? && x.world == RollbackWorld(w)
  {
    assert RecordOrder(w.working, req, mode, env.faults).Err?;
  }
}

// src/trader/engine/approval.py and order_executor.py: who may authorize an
// order, and record-before-submit.
module Execution {
  import opened Models
  import opened Rules
  import opened Ledger
  import opened Environment

  // ---- approval.py ----

  datatype ApprovalError = NotPassed | NotBuyOrSell | CannotSize(error: SizeError) | NoValidApproval | NotFromKyo

  datatype ApprovedOrderRequest = ApprovedOrderRequest(
    decision: Decision, approval: Approval, side: Side, qty: Shares, clientOrderId: Id)

  function OrderSide(a: Action): Option<Side> {
    match a
    case ActBuy => Some(Buy)
    case ActSell => Some(Sell)
    case _ => None
  }

  function ResolveApproval(d: Decision, mode: Mode, t: Tables, env: Env, nextClose: Time)
    : Result<ApprovedOrderRequest, ApprovalError>
  {
    var side, qty := OrderSide(d.action), OrderQty(d.proposedNotional, d.referencePrice);
    if d.ruleCheck != Passed then Err(NotPassed)
    else if side.None? then Err(NotBuyOrSell)
    else if qty.Err? then Err(CannotSize(qty.error))
    else
      var now := env.now(Approving(d.id));
      match mode
      case Paper =>
        var a := Approval(env.uuid(FreshApproval(d.id)), d.id, System, now, nextClose);
        Ok(ApprovedOrderRequest(d, a, side.value, qty.value, OrderId(d.id)))
      case Live =>
        var found := FindValidApproval(t.approvals, d.id, now);
        if found.None? then Err(NoValidApproval)
        else if found.value.approver != Kyo then Err(NotFromKyo)
        else Ok(ApprovedOrderRequest(d, found.value, side.value, qty.value, OrderId(d.id)))
  }

  /** What holds of every request `ResolveApproval` makes. */
  predicate Authorized(r: ApprovedOrderRequest) {
    && r.decision.ruleCheck == Passed && OrderSide(r.decision.action) == Some(r.side)
    && OrderQty(r.decision.proposedNotional, r.decision.referencePrice) == Ok(r.qty)
    && r.clientOrderId == OrderId(r.decision.id) && r.approval.decisionId == r.decision.id
  }

  lemma {:induction false} ResolvedIsAuthorized(d: Decision, mode: Mode, t: Tables, env: Env, nextClose: Time)
    requires ResolveApproval(d, mode, t, env, nextClose).Ok?
    ensures var r := ResolveApproval(d, mode, t, env, nextClose).value; Authorized(r) && r.decision == d
    ensures var a := ResolveApproval(d, mode, t, env, nextClose).value.approval;
            && (mode.Paper? ==> a.approver == System && a.expiresAt == nextClose)
            && (mode.Live? ==> a in t.approvals && a.approver == Kyo && a.expiresAt > env.now(Approving(d.id)))
  {
  }

  datatype HumanError = NoSuchDecision | DecisionNotPassed | NotStored(why: LedgerError)
  datatype HumanApproval = HumanApproval(world: World, result: Result<Approval, HumanError>)

  /** `trader approve`. A refused insert leaves the `with` block normally, so even
      then whatever else was pending is committed. */
  function HumanApprovalSpec(w: World, decisionId: Id, expiresAt: Time, env: Env): HumanApproval {
    if decisionId !in w.working.decisions then HumanApproval(w, Err(NoSuchDecision))
    else if w.working.decisions[decisionId].ruleCheck != Passed then HumanApproval(w, Err(DecisionNotPassed))
    else
      var a := Approval(env.uuid(FreshApproval(decisionId)), decisionId, Kyo, env.now(Approving(decisionId)),
                        expiresAt);
      var t := InsertApproval(w.working, a, env.faults);
      if env.faults(CommitStmt(a.id)) then HumanApproval(RollbackWorld(w), Err(NotStored(DatabaseFault)))
      else if t.Err? then HumanApproval(CommitWorld(w), Err(NotStored(t.error)))
      else HumanApproval(CommitWorld(w.(working := t.value)), Ok(a))
  }

  method RecordHumanApproval(conn: Connection, decisionId: Id, expiresAt: Time, env: Env)
    returns (r: Result<Approval, HumanError>)
    modifies conn
    ensures HumanApproval(conn.State(), r) == HumanApprovalSpec(old(conn.State()), decisionId, expiresAt, env)
  {
    if decisionId !in conn.working.decisions { return Err(NoSuchDecision); }
    if conn.working.decisions[decisionId].ruleCheck != Passed { return Err(DecisionNotPassed); }
    var a := Approval(env.uuid(FreshApproval(decisionId)), decisionId, Kyo, env.now(Approving(decisionId)), expiresAt);
    var inserted := InsertApproval(conn.working, a, env.faults);
    if inserted.Ok? { conn.working := inserted.value; }
    if env.faults(CommitStmt(a.id)) {
      conn.Rollback();
      return Err(NotStored(DatabaseFault));
    }
    conn.Commit();
    return if inserted.Err? then Err(NotStored(inserted.error)) else Ok(a);
  }

  // ---- order_executor.py ----

  datatype ExecError = RecordFailed(why: LedgerError) | SubmitFailed(message: string) | UpdateFailed(why: LedgerError)

  datatype Executed = Executed(world: World, result: Result<Order, ExecError>)

  function NewOrder(req: ApprovedOrderRequest, mode: Mode): Order {
    Order(OrderId(req.decision.id), req.decision.id, req.approval.id, req.clientOrderId, None, mode,
          req.side, req.qty, Recorded, None, None)
  }

  /** The three inserts of the recording transaction; an already stored decision is skipped. */
  function RecordOrder(t: Tables, req: ApprovedOrderRequest, mode: Mode, faults: Faults): DbResult {
    var t1 := if req.decision.id in t.decisions then Ok(t) else InsertDecision(t, req.decision, faults);
    if t1.Err? then t1
    else
      var t2 := InsertApproval(t1.value, req.approval, faults);
      if t2.Err? then t2 else InsertOrder(t2.value, NewOrder(req, mode), faults)
  }

  /** `with transaction(conn)`: commit everything pending, or revert everything pending. */
  function RecordTransaction(w: World, req: ApprovedOrderRequest, mode: Mode, faults: Faults)
    : (World, Option<LedgerError>)
  {
    var t := RecordOrder(w.working, req, mode, faults);
    if t.Err? then (RollbackWorld(w), Some(t.error))
    else if faults(CommitStmt(req.clientOrderId)) then (RollbackWorld(w), Some(DatabaseFault))
    else (CommitWorld(w.(working := t.value)), None)
  }

  function RequestOf(req: ApprovedOrderRequest): OrderRequest {
    OrderRequest(req.clientOrderId, req.decision.ticker, req.side, req.qty)
  }

  function AfterSubmit(w: World, req: ApprovedOrderRequest, env: Env, mode: Mode): Executed {
    var id := OrderId(req.decision.id);
    match env.broker.submit(RequestOf(req))
    case Err(message) =>
      var t := UpdateOrderStatus(w.working, id, Failed, Some(message), None, None, None, env.faults);
      if t.Err? then Executed(w, Err(UpdateFailed(t.error)))
      else Executed(w.(working := t.value), Err(SubmitFailed(message)))
    case Ok(bo) =>
      var at := env.now(Submitting(req.decision.id));
      var t := UpdateOrderStatus(w.working, id, Submitted, None, Some(bo.brokerOrderId), Some(at), None, env.faults);
      if t.Err? then Executed(w, Err(UpdateFailed(t.error)))
      else Executed(w.(working := t.value),
                    Ok(NewOrder(req, mode).(status := Submitted, brokerOrderId := Some(bo.brokerOrderId),
                                            submittedAt := Some(at))))
  }

  function ExecuteSpec(w: World, req: ApprovedOrderRequest, env: Env, mode: Mode): Executed {
    var (w1, failed) := RecordTransaction(w, req, mode, env.faults);
    if failed.Some? then Executed(w1, Err(RecordFailed(failed.value)))
    else AfterSubmit(SendWorld(w1, RequestOf(req)), req, env, mode)
  }

  method Execute(conn: Connection, req: ApprovedOrderRequest, env: Env, mode: Mode)
    returns (r: Result<Order, ExecError>)
    modifies conn
    ensures Executed(conn.State(), r) == ExecuteSpec(old(conn.State()), req, env, mode)
  {
    var orderId := OrderId(req.decision.id);
    var order := Order(orderId, req.decision.id, req.approval.id, req.clientOrderId, None, mode,
                       req.side, req.qty, Recorded, None, None);
    // with transaction(conn)
    if req.decision.id !in conn.working.decisions {
      var inserted := InsertDecision(conn.working, req.decision, env.faults);
      if inserted.Err? {
        conn.Rollback();
        return Err(RecordFailed(inserted.error));
      }
      conn.working := inserted.value;
    }
    var approved := InsertApproval(conn.working, req.approval, env.faults);
    if approved.Err? {
      conn.Rollback();
      return Err(RecordFailed(approved.error));
    }
    conn.working := approved.value;
    var ordered := InsertOrder(conn.working, order, env.faults);
    if ordered.Err? {
      conn.Rollback();
      return Err(RecordFailed(ordered.error));
    }
    conn.working := ordered.value;
    if env.faults(CommitStmt(req.clientOrderId)) {
      conn.Rollback();
      return Err(RecordFailed(DatabaseFault));
    }
    conn.Commit();

    conn.trace := conn.trace + [Sent(RequestOf(req))];
    match env.broker.submit(OrderRequest(req.clientOrderId, req.decision.ticker, req.side, req.qty))
    case Err(message) =>
      var failed := UpdateOrderStatus(conn.working, orderId, Failed, Some(message), None, None, None, env.faults);
      if failed.Err? { return Err(UpdateFailed(failed.error)); }
      conn.working := failed.value;
      return Err(SubmitFailed(message));
    case Ok(bo) =>
      var at := env.now(Submitting(req.decision.id));
      var updated := UpdateOrderStatus(conn.working, orderId, Submitted, None, Some(bo.brokerOrderId), Some(at), None,
                                       env.faults);
      if updated.Err? { return Err(UpdateFailed(updated.error)); }
      conn.working := updated.value;
      return Ok(order.(status := Submitted, brokerOrderId := Some(bo.brokerOrderId), submittedAt := Some(at)));
  }
}

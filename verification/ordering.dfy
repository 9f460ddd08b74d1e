// Exactly when a decision becomes an order, what its rows say, and what is left of
// each way it can fail.
module Ordering {
  import opened Models
  import opened Rules
  import opened Ledger
  import opened Environment
  import opened Execution
  import opened Protocol
  import opened Reverting

  // ---- approval ----

  /** The approval an order of d goes out with: made on the spot in paper mode, the newest valid one in live mode. */
  ghost predicate ApprovedBy(d: Decision, mode: Mode, t: Tables, env: Env, nextClose: Time, a: Approval) {
    var now := env.now(Approving(d.id));
    match mode
    case Paper => a == Approval(env.uuid(FreshApproval(d.id)), d.id, System, now, nextClose)
    case Live =>
      && a in t.approvals && a.decisionId == d.id && now < a.expiresAt
      && forall b :: b in t.approvals && b.decisionId == d.id && now < b.expiresAt ==> b.approvedAt <= a.approvedAt
  }

  lemma {:induction false} NewestFound(d: Decision, t: Tables, env: Env, nextClose: Time, a: Approval)
    requires ApprovedBy(d, Live, t, env, nextClose, a)
    ensures FindValidApproval(t.approvals, d.id, env.now(Approving(d.id))).Some?
  {
  }

  /** An order is authorized exactly for a passed buy or sell that can be sized and, in live mode, whose newest
      valid approval is the human's. */
  lemma {:induction false} ResolvesExactly(d: Decision, mode: Mode, t: Tables, env: Env, nextClose: Time)
    ensures var r := ResolveApproval(d, mode, t, env, nextClose);
            var found := FindValidApproval(t.approvals, d.id, env.now(Approving(d.id)));
            && (r.Ok? <==> && d.ruleCheck == Passed && d.action in {ActBuy, ActSell}
                           && OrderQty(d.proposedNotional, d.referencePrice).Ok?
                           && (mode == Live ==> found.Some? && found.value.approver == Kyo))
            && (r.Ok? ==> && r.value.decision == d && r.value.clientOrderId == "order_" + d.id
                          && r.value.side == (if d.action == ActBuy then Buy else Sell)
                          && OrderQty(d.proposedNotional, d.referencePrice) == Ok(r.value.qty)
                          && ApprovedBy(d, mode, t, env, nextClose, r.value.approval))
            && (found.None? ==> forall a :: !ApprovedBy(d, Live, t, env, nextClose, a))
  {
    if exists a :: ApprovedBy(d, Live, t, env, nextClose, a) {
      var a :| ApprovedBy(d, Live, t, env, nextClose, a);
      NewestFound(d, t, env, nextClose, a);
    }
  }

  /** A human's approval is stored exactly for a stored, passed decision, under a new id, if neither the insert nor
      the commit fails; a failed commit reverts everything pending, and a failed insert commits it. */
  lemma {:induction false} HumanApprovesExactly(w: World, id: Id, expiresAt: Time, env: Env)
    ensures var h := HumanApprovalSpec(w, id, expiresAt, env);
            var a := Approval(env.uuid(FreshApproval(id)), id, Kyo, env.now(Approving(id)), expiresAt);
            var asked := id in w.working.decisions && w.working.decisions[id].ruleCheck == Passed;
            var fits := !env.faults(InsertApprovalStmt(a.id)) && forall b :: b in w.working.approvals ==> b.id != a.id;
            && (!asked ==> h.world == w && h.result.Err?)
            && (asked && env.faults(CommitStmt(a.id)) ==> h.world == w.(working := w.committed) && h.result.Err?)
            && (asked && !env.faults(CommitStmt(a.id)) && !fits ==> h.world == CommitWorld(w) && h.result.Err?)
            && (asked && !env.faults(CommitStmt(a.id)) && fits ==>
                  && h.result == Ok(a)
                  && h.world == CommitWorld(w.(working := w.working.(approvals := w.working.approvals + [a]))))
  {
  }

  // ---- the order's rows ----

  /** The order's row before anybody was asked. */
  ghost function FirstRow(req: ApprovedOrderRequest, mode: Mode): Order {
    Order(req.clientOrderId, req.decision.id, req.approval.id, req.clientOrderId, None, mode, req.side, req.qty,
          Recorded, None, None)
  }

  /** The three rows of an order. */
  ghost function WithOrder(t: Tables, req: ApprovedOrderRequest, mode: Mode): Tables {
    var d := req.decision;
    t.(decisions := if d.id in t.decisions then t.decisions else t.decisions[d.id := d],
       approvals := t.approvals + [req.approval], orders := t.orders[req.clientOrderId := FirstRow(req, mode)])
  }

  lemma {:induction false} RecordedRows(t: Tables, req: ApprovedOrderRequest, mode: Mode, faults: Faults)
    requires Authorized(req) && RecordOrder(t, req, mode, faults).Ok?
    ensures RecordOrder(t, req, mode, faults).value == WithOrder(t, req, mode)
  {
  }

  /** The order's row once the broker has answered and the answer is noted, if it can be. */
  ghost function AnsweredRow(req: ApprovedOrderRequest, mode: Mode, env: Env): Order {
    match env.broker.submit(OrderRequest(req.clientOrderId, req.decision.ticker, req.side, req.qty))
    case Err(message) => FirstRow(req, mode).(status := Failed, lastError := Some(message))
    case Ok(bo) =>
      FirstRow(req, mode).(status := Submitted, brokerOrderId := Some(bo.brokerOrderId),
                           submittedAt := Some(env.now(Submitting(req.decision.id))))
  }

  /** Executing a request: refused while recording, everything pending is reverted; otherwise its rows are
      committed, it is sent, and the broker's answer is noted on the order's row, pending. */
  lemma {:induction false} ExecutesExactly(w: World, req: ApprovedOrderRequest, env: Env, mode: Mode)
    requires Authorized(req)
    ensures var x, sent := ExecuteSpec(w, req, env, mode),
                           OrderRequest(req.clientOrderId, req.decision.ticker, req.side, req.qty);
            if !Recordable(w.working, req, env.faults) then
              x.world == w.(working := w.committed) && x.result.Err? && x.result.error.RecordFailed?
            else
              var t, noted := WithOrder(w.working, req, mode), !env.faults(UpdateOrderStmt(req.clientOrderId, None));
              && x.world.committed == t && x.world.trace == w.trace + [Committed(t), Sent(sent)]
              && x.world.working == (if noted
                                     then t.(orders := t.orders[req.clientOrderId := AnsweredRow(req, mode, env)])
                                     else t)
              && (x.result.Ok? <==> noted && env.broker.submit(sent).Ok?)
              && (x.result.Ok? ==> x.result.value == AnsweredRow(req, mode, env))
              && (x.result.Err? ==> !x.result.error.RecordFailed?)
  {
    RecordsExactly(w, req, mode, env.faults);
    SendsExactlyWhenRecorded(w, req, env, mode);
    if Recordable(w.working, req, env.faults) {
      RecordedRows(w.working, req, mode, env.faults);
      var w2 := SendWorld(CommitWorld(w.(working := WithOrder(w.working, req, mode))), RequestOf(req));
      AnswerNoted(w2, req, env, mode);
    }
  }

  lemma {:induction false} AnswerNoted(w: World, req: ApprovedOrderRequest, env: Env, mode: Mode)
    requires Authorized(req) && req.clientOrderId in w.working.orders
             && w.working.orders[req.clientOrderId] == FirstRow(req, mode)
    ensures var x := AfterSubmit(w, req, env, mode);
            var noted := !env.faults(UpdateOrderStmt(req.clientOrderId, None));
            && x.world == w.(working := if !noted then w.working else
                               w.working.(orders := w.working.orders[req.clientOrderId := AnsweredRow(req, mode, env)]))
            && (x.result.Ok? <==> noted && env.broker.submit(RequestOf(req)).Ok?)
            && (x.result.Ok? ==> x.result.value == AnsweredRow(req, mode, env))
            && (x.result.Err? ==> !x.result.error.RecordFailed?)
  {
  }
}

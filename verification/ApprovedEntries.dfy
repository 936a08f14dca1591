/** Entries an operator has approved: from the approval request to the one order
    it may lead to. */
module ApprovedEntries {
  import opened Wrappers
  import opened LedgerTables
  import opened Database
  import opened TruthfulBroker
  import opened ServiceRun
  import opened AutoTrade
  import A = Approvals

  /** `_execute_approved_entry`; `termsHold` says that the terms, the live price,
      the risk plan, the quantity and the budget still check out. */
  method ExecuteApprovedEntry(db: Database, broker: Broker, approvals: A.ApprovalTable, id: string, termsHold: bool,
                              t: Ticket, gate: Gate, reply: Reply, now: int, ghost w: World)
    returns (consumed: bool, submitted: bool, ghost es: seq<Event>)
    requires Mirrored(db, broker, w) && w.trader == Vetted(t) && FreshReply(w.broker, reply)
    requires approvals as object != db && approvals as object != broker
    modifies db`orders, broker, approvals
    ensures consumed == (termsHold && A.Succeeds(old(approvals.rows), A.Consume(id, now)))
    ensures approvals.rows == if !termsHold then A.Called(old(approvals.rows), A.Finish(id, false, now))
                              else if !consumed then A.Called(old(approvals.rows), A.Consume(id, now))
                              else A.Called(A.Called(old(approvals.rows), A.Consume(id, now)), A.Finish(id, submitted, now))
    ensures !termsHold && (id !in old(approvals.rows) || old(approvals.rows)[id].stage != A.Consuming) ==> approvals.rows == old(approvals.rows)
    ensures consumed ==> approvals.rows[id].stage == if submitted then A.Executed else A.Failed
    ensures es == if consumed then SubmissionEvents(w, t, gate, reply, now) else []
    ensures Playable(w, es) && Mirrored(db, broker, Played(w, es))
    ensures broker.calls == old(broker.calls) + if consumed && Reaches(w, t, gate, now) then [t.client] else []
    ensures submitted == (consumed && Reaches(w, t, gate, now) && reply.Accepts?)
  {
    hide SubmissionEvents, Reaches, Playable, Played, FreshReply;
    NoSteps(w);
    consumed, submitted, es := false, false, [];
    if !termsHold {
      var done := approvals.FinishApprovalRequest(id, false, now);
      return;
    }
    consumed := approvals.ConsumeApprovalRequest(id, now);
    if !consumed {
      return;
    }
    submitted, es := SubmitWithLedger(db, broker, t, gate, reply, now, w);
    var done := approvals.FinishApprovalRequest(id, submitted, now);
  }

  // ------------------------------------------------------------------ runs

  /** The table, the consumed requests whose caller has yet to submit, and the
      requests an order was submitted for. */
  datatype Desk = Desk(rows: map<string, A.Approval>, holding: multiset<string>, submitted: seq<string>)

  /** Any caller's transaction, a holder submitting, or a holder dying first. */
  datatype Move = Transaction(k: A.Call) | Submit(id: string) | Dies(id: string)

  ghost predicate Allowed(d: Desk, m: Move) {
    m.Transaction? || m.id in d.holding
  }

  ghost function Moved(d: Desk, m: Move): Desk
    requires Allowed(d, m)
  {
    match m
    case Transaction(k) =>
      d.(rows := A.Called(d.rows, k),
         holding := if k.Consume? && A.Succeeds(d.rows, k) then d.holding + multiset{k.id} else d.holding)
    case Submit(id) => d.(holding := d.holding - multiset{id}, submitted := d.submitted + [id])
    case Dies(id) => d.(holding := d.holding - multiset{id})
  }

  ghost predicate Run(ds: seq<Desk>, ms: seq<Move>) {
    && |ds| == |ms| + 1 && ds[0] == Desk(map[], multiset{}, [])
    && forall i :: 0 <= i < |ms| ==> Allowed(ds[i], ms[i]) && ds[i + 1] == Moved(ds[i], ms[i])
  }

  /** Holders and submissions of a request number at most one, and only once it
      was consumed. */
  ghost predicate Accounted(d: Desk, id: string) {
    d.holding[id] + multiset(d.submitted)[id] <= if id in d.rows && A.Rank(d.rows[id].stage) >= 2 then 1 else 0
  }

  lemma MoveAccounted(d: Desk, m: Move, id: string)
    requires Allowed(d, m) && Accounted(d, id)
    ensures Accounted(Moved(d, m), id)
  {
    match m
    case Transaction(k) =>
      if id in d.rows {
        A.StepForward(d.rows, k, id);
      }
    case Submit(other) =>
      assert multiset(d.submitted + [other]) == multiset(d.submitted) + multiset{other};
    case Dies(_) =>
  }

  lemma {:induction false} RunAccounted(ds: seq<Desk>, ms: seq<Move>, j: nat, id: string)
    requires Run(ds, ms) && j < |ds|
    ensures Accounted(ds[j], id)
  {
    if j > 0 {
      RunAccounted(ds, ms, j - 1, id);
      assert Allowed(ds[j - 1], ms[j - 1]) && ds[j - 1 + 1] == Moved(ds[j - 1], ms[j - 1]);
      MoveAccounted(ds[j - 1], ms[j - 1], id);
    }
  }

  /** Only an operator's approval makes a request approved. */
  lemma ApprovalStep(d: Desk, m: Move, id: string)
    requires Allowed(d, m) && id in Moved(d, m).rows && Moved(d, m).rows[id].stage == A.Approved
    ensures (id in d.rows && d.rows[id].stage == A.Approved && d.rows[id].expiresAt == Moved(d, m).rows[id].expiresAt)
            || (m.Transaction? && m.k == A.Resolve(id, true, m.k.at) && A.Succeeds(d.rows, m.k) && m.k.at < Moved(d, m).rows[id].expiresAt)
  {
    if m.Transaction? && id in d.rows {
      A.StepForward(d.rows, m.k, id);
    }
  }

  /** An approved request was approved by an earlier move of the run, before its expiry. */
  lemma {:induction false} ApprovedByMove(ds: seq<Desk>, ms: seq<Move>, j: nat, id: string) returns (a: nat, at: int)
    requires Run(ds, ms) && j < |ds| && id in ds[j].rows && ds[j].rows[id].stage == A.Approved
    ensures a < j && ms[a] == Transaction(A.Resolve(id, true, at)) && A.Succeeds(ds[a].rows, A.Resolve(id, true, at))
    ensures at < ds[j].rows[id].expiresAt
    decreases j
  {
    hide Moved, Allowed, A.Succeeds;
    var d, m := ds[j - 1], ms[j - 1];
    assert Allowed(d, m) && ds[j - 1 + 1] == Moved(d, m);
    ApprovalStep(d, m, id);
    if id in d.rows && d.rows[id].stage == A.Approved && d.rows[id].expiresAt == ds[j].rows[id].expiresAt {
      a, at := ApprovedByMove(ds, ms, j - 1, id);
    } else {
      a, at := j - 1, m.k.at;
    }
  }

  /** A request held by a caller was consumed by an earlier move of the run. */
  lemma {:induction false} HeldByMove(ds: seq<Desk>, ms: seq<Move>, j: nat, id: string) returns (b: nat, at: int)
    requires Run(ds, ms) && j < |ds| && id in ds[j].holding
    ensures b < j && ms[b] == Transaction(A.Consume(id, at)) && A.Succeeds(ds[b].rows, A.Consume(id, at))
    decreases j
  {
    hide A.Called, A.Succeeds;
    var d, m := ds[j - 1], ms[j - 1];
    assert Allowed(d, m) && ds[j - 1 + 1] == Moved(d, m);
    if id in d.holding {
      b, at := HeldByMove(ds, ms, j - 1, id);
    } else {
      b, at := j - 1, m.k.at;
    }
  }

  /** A submission is a move of the run by a holder. */
  lemma {:induction false} SubmittedByMove(ds: seq<Desk>, ms: seq<Move>, j: nat, id: string) returns (s: nat)
    requires Run(ds, ms) && j < |ds| && id in ds[j].submitted
    ensures s < j && ms[s] == Submit(id) && id in ds[s].holding
    decreases j
  {
    var d, m := ds[j - 1], ms[j - 1];
    assert Allowed(d, m) && ds[j - 1 + 1] == Moved(d, m);
    if id in d.submitted {
      s := SubmittedByMove(ds, ms, j - 1, id);
    } else {
      s := j - 1;
    }
  }

  lemma {:induction false} SubmittedStays(ds: seq<Desk>, ms: seq<Move>, k: nat, j: nat, id: string)
    requires Run(ds, ms) && k < j < |ds| && ms[k] == Submit(id)
    ensures id in ds[j].submitted
    decreases j
  {
    var d, m := ds[j - 1], ms[j - 1];
    assert Allowed(d, m) && ds[j - 1 + 1] == Moved(d, m);
    if k < j - 1 {
      SubmittedStays(ds, ms, k, j - 1, id);
    }
  }

  /** A holder's submission is the request's first, and the run has no other. */
  lemma OnlySubmission(ds: seq<Desk>, ms: seq<Move>, k: nat, s: nat, id: string)
    requires Run(ds, ms) && k < |ms| && s < |ms| && ms[k] == Submit(id) == ms[s]
    ensures k == s
  {
    var first, later := if k < s then k else s, if k < s then s else k;
    if first < later {
      assert Allowed(ds[later], ms[later]);
      SubmittedStays(ds, ms, first, later, id);
      RunAccounted(ds, ms, later, id);
      assert false;
    }
  }

  /** In any run of callers, restarts and operators: a request leads to at most
      one submission, and before that the run has a move that approved it and
      then one that consumed it, both strictly before its expiry. */
  lemma OneSubmissionPerApproval(ds: seq<Desk>, ms: seq<Move>, j: nat, id: string)
    returns (approved: nat, approvedAt: int, consumed: nat, consumedAt: int, submitted: nat)
    requires Run(ds, ms) && j < |ds|
    ensures multiset(ds[j].submitted)[id] <= 1
    ensures id in ds[j].submitted ==>
              && approved < consumed < submitted < j
              && ms[approved] == Transaction(A.Resolve(id, true, approvedAt)) && A.Succeeds(ds[approved].rows, A.Resolve(id, true, approvedAt))
              && ms[consumed] == Transaction(A.Consume(id, consumedAt)) && A.Succeeds(ds[consumed].rows, A.Consume(id, consumedAt))
              && id in ds[consumed].rows && approvedAt < ds[consumed].rows[id].expiresAt && consumedAt < ds[consumed].rows[id].expiresAt
              && (forall k :: 0 <= k < |ms| ==> (ms[k] == Submit(id) <==> k == submitted))
  {
    RunAccounted(ds, ms, j, id);
    approved, approvedAt, consumed, consumedAt, submitted := 0, 0, 0, 0, 0;
    if id in ds[j].submitted {
      submitted := SubmittedByMove(ds, ms, j, id);
      consumed, consumedAt := HeldByMove(ds, ms, submitted, id);
      approved, approvedAt := ApprovedByMove(ds, ms, consumed, id);
      forall k | 0 <= k < |ms| && ms[k] == Submit(id)
        ensures k == submitted
      {
        OnlySubmission(ds, ms, k, submitted, id);
      }
    }
  }
}

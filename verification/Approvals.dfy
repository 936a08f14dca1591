/** Operator approval requests of `storage/database.py`: recorded, resolved,
    expired, consumed and finished, each as one transaction. */
module Approvals {
  import opened Wrappers
  import opened Text

  datatype Stage = Pending | Approved | Denied | Expired | Consuming | Executed | Failed

  datatype Approval = Approval(stage: Stage, expiresAt: int, resolvedAt: Option<int>, consumedAt: Option<int>)

  datatype Call =
    | Record(id: string, at: int, expiresAt: Option<int>)
    | Resolve(id: string, approve: bool, at: int)
    | ExpireAll(at: int)
    | Consume(id: string, at: int)
    | Finish(id: string, success: bool, at: int)

  const LIFETIME := 120

  predicate Overdue(r: Approval, stages: set<Stage>, at: int) {
    r.stage in stages && r.expiresAt <= at
  }

  function Expire(r: Approval, stages: set<Stage>, at: int): Approval {
    if Overdue(r, stages, at) then r.(stage := Expired, resolvedAt := Some(at)) else r
  }

  /** Whether the call answers true. */
  predicate Succeeds(rows: map<string, Approval>, k: Call) {
    match k
    case Record(id, _, _) => id != "" && id !in rows
    case Resolve(id, _, at) => !Blank(id) && id in rows && rows[id].stage == Pending && rows[id].expiresAt > at
    case ExpireAll(at) => exists id | id in rows :: Overdue(rows[id], {Pending, Approved}, at)
    case Consume(id, at) => !Blank(id) && id in rows && rows[id].stage == Approved && rows[id].expiresAt > at
    case Finish(id, _, _) => !Blank(id) && id in rows && rows[id].stage == Consuming
  }

  function Called(rows: map<string, Approval>, k: Call): map<string, Approval> {
    match k
    case Record(id, at, expiresAt) =>
      if Succeeds(rows, k) then rows[id := Approval(Pending, expiresAt.GetOr(at + LIFETIME), None, None)] else rows
    case Resolve(id, approve, at) =>
      if Succeeds(rows, k) then rows[id := rows[id].(stage := if approve then Approved else Denied, resolvedAt := Some(at))]
      else if !Blank(id) && id in rows then rows[id := Expire(rows[id], {Pending}, at)]
      else rows
    case ExpireAll(at) => map id | id in rows :: Expire(rows[id], {Pending, Approved}, at)
    case Consume(id, at) =>
      if Succeeds(rows, k) then rows[id := rows[id].(stage := Consuming, consumedAt := Some(at))]
      else if !Blank(id) && id in rows then rows[id := Expire(rows[id], {Approved}, at)]
      else rows
    case Finish(id, success, at) =>
      if Succeeds(rows, k) then rows[id := rows[id].(stage := if success then Executed else Failed, resolvedAt := Some(at))] else rows
  }

  class ApprovalTable {
    var rows: map<string, Approval>

    constructor ()
      ensures rows == map[]
    {
      rows := map[];
    }

    method RecordApprovalRequest(id: string, now: int, expiresAt: Option<int>) returns (created: bool)
      modifies this
      ensures rows == Called(old(rows), Record(id, now, expiresAt)) && created == Succeeds(old(rows), Record(id, now, expiresAt))
    {
      created := id != "" && id !in rows;
      if created {
        var expiry := if expiresAt.Some? then expiresAt.value else now + LIFETIME;
        rows := rows[id := Approval(Pending, expiry, None, None)];
      }
    }

    /** An overdue row is expired first, in the same transaction. */
    method ResolveApprovalRequest(id: string, approve: bool, now: int) returns (resolved: bool)
      modifies this
      ensures rows == Called(old(rows), Resolve(id, approve, now)) && resolved == Succeeds(old(rows), Resolve(id, approve, now))
    {
      resolved := false;
      if Blank(id) || id !in rows {
        return;
      }
      if rows[id].stage == Pending && rows[id].expiresAt <= now {
        rows := rows[id := rows[id].(stage := Expired, resolvedAt := Some(now))];
      }
      if rows[id].stage == Pending && rows[id].expiresAt > now {
        rows := rows[id := rows[id].(stage := if approve then Approved else Denied, resolvedAt := Some(now))];
        resolved := true;
      } else {
        rows := rows[id := rows[id]];
      }
    }

    method ConsumeApprovalRequest(id: string, now: int) returns (consumed: bool)
      modifies this
      ensures rows == Called(old(rows), Consume(id, now)) && consumed == Succeeds(old(rows), Consume(id, now))
    {
      consumed := false;
      if Blank(id) || id !in rows {
        return;
      }
      if rows[id].stage == Approved && rows[id].expiresAt <= now {
        rows := rows[id := rows[id].(stage := Expired, resolvedAt := Some(now))];
      }
      if rows[id].stage == Approved && rows[id].expiresAt > now {
        rows := rows[id := rows[id].(stage := Consuming, consumedAt := Some(now))];
        consumed := true;
      } else {
        rows := rows[id := rows[id]];
      }
    }

    method FinishApprovalRequest(id: string, success: bool, now: int) returns (finished: bool)
      modifies this
      ensures rows == Called(old(rows), Finish(id, success, now)) && finished == Succeeds(old(rows), Finish(id, success, now))
    {
      finished := !Blank(id) && id in rows && rows[id].stage == Consuming;
      if finished {
        rows := rows[id := rows[id].(stage := if success then Executed else Failed, resolvedAt := Some(now))];
      }
    }

    /** The count of rows that expired, as the cursor reports it. */
    method ExpireApprovalRequests(now: int) returns (expired: nat)
      modifies this
      ensures rows == Called(old(rows), ExpireAll(now))
      ensures expired > 0 <==> Succeeds(old(rows), ExpireAll(now))
      ensures expired == |set id | id in old(rows) && Overdue(old(rows)[id], {Pending, Approved}, now)|
    {
      var overdue := set id | id in rows && Overdue(rows[id], {Pending, Approved}, now);
      expired := |overdue|;
      if id :| id in overdue {
        assert Overdue(rows[id], {Pending, Approved}, now);
      } else {
        assert forall id :: id in rows && Overdue(rows[id], {Pending, Approved}, now) ==> id in overdue;
      }
      rows := map id | id in rows :: if id in overdue then rows[id].(stage := Expired, resolvedAt := Some(now)) else rows[id];
    }
  }

  // ------------------------------------------------------------------ runs

  ghost predicate Run(ts: seq<map<string, Approval>>, ks: seq<Call>) {
    && |ts| == |ks| + 1 && ts[0] == map[]
    && forall i :: 0 <= i < |ks| ==> ts[i + 1] == Called(ts[i], ks[i])
  }

  /** How far a request has come; no call takes it back, and 3 is the end. */
  function Rank(s: Stage): nat {
    match s
    case Pending => 0
    case Approved => 1
    case Consuming => 2
    case _ => 3
  }

  lemma StepForward(rows: map<string, Approval>, k: Call, id: string)
    requires id in rows
    ensures var after := Called(rows, k);
            && id in after && after[id].expiresAt == rows[id].expiresAt && Rank(rows[id].stage) <= Rank(after[id].stage)
            && (Rank(rows[id].stage) == 3 ==> after[id] == rows[id])
            && (after[id].stage == Approved != rows[id].stage ==> k == Resolve(id, true, k.at) && Succeeds(rows, k))
            && (after[id].stage == Consuming != rows[id].stage ==> k == Consume(id, k.at) && Succeeds(rows, k))
  {
  }

  /** A request only moves forward, keeps its expiry, and once finished never changes again. */
  lemma {:induction false} NeverBack(ts: seq<map<string, Approval>>, ks: seq<Call>, i: nat, j: nat, id: string)
    requires Run(ts, ks) && i <= j < |ts| && id in ts[i]
    ensures id in ts[j] && ts[j][id].expiresAt == ts[i][id].expiresAt && Rank(ts[i][id].stage) <= Rank(ts[j][id].stage)
    ensures Rank(ts[i][id].stage) == 3 ==> ts[j][id] == ts[i][id]
    decreases j
  {
    if i < j {
      NeverBack(ts, ks, i, j - 1, id);
      assert ts[j - 1 + 1] == Called(ts[j - 1], ks[j - 1]);
      StepForward(ts[j - 1], ks[j - 1], id);
    }
  }

  /** A request is consumed at most once in any run. */
  lemma ConsumedOnce(ts: seq<map<string, Approval>>, ks: seq<Call>, i: nat, j: nat, id: string)
    requires Run(ts, ks) && i < j < |ks| && ks[i].Consume? && ks[j].Consume? && ks[i].id == ks[j].id == id
    requires Succeeds(ts[i], ks[i])
    ensures !Succeeds(ts[j], ks[j])
  {
    assert ts[i + 1] == Called(ts[i], ks[i]);
    NeverBack(ts, ks, i + 1, j, id);
  }

  /** An approved request was approved by a call before its expiry. */
  lemma {:induction false} ApprovedEarlier(ts: seq<map<string, Approval>>, ks: seq<Call>, j: nat, id: string) returns (i: nat)
    requires Run(ts, ks) && j < |ts| && id in ts[j] && ts[j][id].stage == Approved
    ensures i < j && ks[i] == Resolve(id, true, ks[i].at) && Succeeds(ts[i], ks[i]) && ks[i].at < ts[j][id].expiresAt
    decreases j
  {
    assert ts[j - 1 + 1] == Called(ts[j - 1], ks[j - 1]);
    if id in ts[j - 1] {
      StepForward(ts[j - 1], ks[j - 1], id);
      if ts[j - 1][id].stage == Approved {
        i := ApprovedEarlier(ts, ks, j - 1, id);
      } else {
        i := j - 1;
      }
    } else {
      assert false;
    }
  }

  /** A consumption follows an approval, both strictly before the expiry the
      request was recorded with. */
  lemma ConsumedAfterApproval(ts: seq<map<string, Approval>>, ks: seq<Call>, j: nat) returns (i: nat)
    requires Run(ts, ks) && j < |ks| && ks[j].Consume? && Succeeds(ts[j], ks[j])
    ensures i < j && ks[i] == Resolve(ks[j].id, true, ks[i].at) && Succeeds(ts[i], ks[i])
    ensures ks[i].at < ts[j][ks[j].id].expiresAt && ks[j].at < ts[j][ks[j].id].expiresAt
  {
    i := ApprovedEarlier(ts, ks, j, ks[j].id);
  }

  /** A request recorded for the first time is PENDING and expires when its caller
      said, or two minutes later; that expiry stands in every later state. */
  lemma RecordedExpiryStands(ts: seq<map<string, Approval>>, ks: seq<Call>, i: nat, j: nat)
    requires Run(ts, ks) && i < j < |ts| && ks[i].Record? && ks[i].id != "" && ks[i].id !in ts[i]
    ensures ks[i].id in ts[i + 1] && ts[i + 1][ks[i].id].stage == Pending
    ensures ks[i].id in ts[j]
            && ts[j][ks[i].id].expiresAt == if ks[i].expiresAt.Some? then ks[i].expiresAt.value else ks[i].at + 120
  {
    assert ts[i + 1] == Called(ts[i], ks[i]);
    NeverBack(ts, ks, i + 1, j, ks[i].id);
  }

  /** What an operator or the submission decided is how the request ends: refused
      means DENIED, and a finished submission EXECUTED or FAILED as it went, ever after. */
  lemma DecisionStands(ts: seq<map<string, Approval>>, ks: seq<Call>, i: nat, j: nat)
    requires Run(ts, ks) && i < j < |ts| && Succeeds(ts[i], ks[i])
    ensures ks[i].Resolve? && !ks[i].approve ==>
              ks[i].id in ts[j] && ts[j][ks[i].id].stage == Denied && ts[j][ks[i].id].resolvedAt == Some(ks[i].at)
    ensures ks[i].Finish? ==>
              ks[i].id in ts[j] && ts[j][ks[i].id].stage == (if ks[i].success then Executed else Failed)
              && ts[j][ks[i].id].resolvedAt == Some(ks[i].at)
  {
    assert ts[i + 1] == Called(ts[i], ks[i]);
    if (ks[i].Resolve? && !ks[i].approve) || ks[i].Finish? {
      NeverBack(ts, ks, i + 1, j, ks[i].id);
    }
  }

  /** In time a request is approved or refused as the operator says and then
      consumed; from its expiry on it expires instead. */
  lemma AnsweredInTime(rows: map<string, Approval>, id: string, approve: bool, at: int)
    requires !Blank(id) && id in rows
    ensures rows[id].stage == Pending ==>
              Called(rows, Resolve(id, approve, at))[id].stage
              == if at >= rows[id].expiresAt then Expired else if approve then Approved else Denied
    ensures rows[id].stage == Approved ==>
              var after := Called(rows, Consume(id, at))[id];
              if at >= rows[id].expiresAt then after.stage == Expired else after.stage == Consuming && after.consumedAt == Some(at)
    ensures rows[id].stage == Consuming ==>
              Called(rows, Finish(id, approve, at))[id].stage == if approve then Executed else Failed
    ensures Called(rows, ExpireAll(at))[id].stage
            == if (rows[id].stage == Pending || rows[id].stage == Approved) && at >= rows[id].expiresAt then Expired else rows[id].stage
    ensures forall other :: other in rows && other != id ==>
              && Called(rows, Resolve(id, approve, at))[other] == rows[other] && Called(rows, Consume(id, at))[other] == rows[other]
              && Called(rows, Finish(id, approve, at))[other] == rows[other]
  {
  }
}

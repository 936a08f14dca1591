/** The service leases of `storage/database.py` and the guard's check of one. */
module ServiceLeases {
  import opened Wrappers
  import opened Text

  datatype Lease = Lease(owner: string, acquiredAt: int, renewedAt: int, expiresAt: int)

  /** One call on one lease name; `at` is the caller's clock. */
  datatype Call =
    | Acquire(owner: string, ttl: int, at: int)
    | Renew(owner: string, ttl: int, at: int)
    | Release(owner: string, at: int)

  predicate WellFormed(k: Call) {
    !Blank(k.owner) && (!k.Release? ==> k.ttl > 0)
  }

  /** Whether the call changes the row. */
  predicate Succeeds(row: Option<Lease>, k: Call) {
    && WellFormed(k)
    && match k
       case Acquire(owner, _, at) => row.None? || row.value.owner == owner || row.value.expiresAt <= at
       case Renew(owner, _, at) => row.Some? && row.value.owner == owner && row.value.expiresAt > at
       case Release(owner, _) => row.Some? && row.value.owner == owner
  }

  function Called(row: Option<Lease>, k: Call): Option<Lease> {
    if !Succeeds(row, k) then row
    else
      match k
      case Acquire(owner, ttl, at) => Some(Lease(owner, at, at, at + ttl))
      case Renew(_, ttl, at) => Some(row.value.(renewedAt := at, expiresAt := at + ttl))
      case Release(_, _) => None
  }

  /** The guard's lease check. */
  predicate BelongsTo(row: Option<Lease>, owner: string, now: int) {
    row.Some? && row.value.owner == owner && row.value.expiresAt > now
  }

  class LeaseTable {
    var rows: map<string, Lease>

    function Row(name: string): Option<Lease>
      reads this
    {
      if name in rows then Some(rows[name]) else None
    }

    constructor ()
      ensures rows == map[]
    {
      rows := map[];
    }

    method AcquireServiceLease(name: string, owner: string, ttl: int, now: int) returns (r: Outcome<bool>)
      modifies this
      ensures r == if Blank(name) || !WellFormed(Acquire(owner, ttl, now)) then Raised(InvalidArgument)
                   else Done(Succeeds(old(Row(name)), Acquire(owner, ttl, now)))
      ensures Row(name) == if r.Done? then Called(old(Row(name)), Acquire(owner, ttl, now)) else old(Row(name))
      ensures forall other :: other != name ==> Row(other) == old(Row(other))
    {
      if Blank(name) || Blank(owner) || ttl <= 0 {
        return Raised(InvalidArgument);
      }
      if name in rows && rows[name].owner != owner && rows[name].expiresAt > now {
        return Done(false);
      }
      rows := rows[name := Lease(owner, now, now, now + ttl)];
      return Done(true);
    }

    method RenewServiceLease(name: string, owner: string, ttl: int, now: int) returns (r: Outcome<bool>)
      modifies this
      ensures r == if Blank(name) || !WellFormed(Renew(owner, ttl, now)) then Raised(InvalidArgument)
                   else Done(Succeeds(old(Row(name)), Renew(owner, ttl, now)))
      ensures Row(name) == if r.Done? then Called(old(Row(name)), Renew(owner, ttl, now)) else old(Row(name))
      ensures forall other :: other != name ==> Row(other) == old(Row(other))
    {
      if Blank(name) || Blank(owner) || ttl <= 0 {
        return Raised(InvalidArgument);
      }
      if name !in rows || rows[name].owner != owner || rows[name].expiresAt <= now {
        return Done(false);
      }
      rows := rows[name := rows[name].(renewedAt := now, expiresAt := now + ttl)];
      return Done(true);
    }

    method ReleaseServiceLease(name: string, owner: string) returns (r: Outcome<bool>)
      modifies this
      ensures r == if Blank(name) || Blank(owner) then Raised(InvalidArgument)
                   else Done(Succeeds(old(Row(name)), Release(owner, 0)))
      ensures Row(name) == if r.Done? then Called(old(Row(name)), Release(owner, 0)) else old(Row(name))
      ensures forall other :: other != name ==> Row(other) == old(Row(other))
    {
      if Blank(name) || Blank(owner) {
        return Raised(InvalidArgument);
      }
      if name !in rows || rows[name].owner != owner {
        return Done(false);
      }
      rows := rows - {name};
      return Done(true);
    }
  }

  // ------------------------------------------------------------------ runs

  /** Calls on one lease name, by any owners, with clocks that do not run back. */
  ghost predicate Run(rows: seq<Option<Lease>>, ks: seq<Call>) {
    && |rows| == |ks| + 1 && rows[0] == None
    && (forall i :: 0 <= i < |ks| ==> rows[i + 1] == Called(rows[i], ks[i]))
    && (forall i, j :: 0 <= i <= j < |ks| ==> ks[i].at <= ks[j].at)
  }

  /** A call that gave its owner the lease until `at + ttl`. */
  ghost predicate Grants(rows: seq<Option<Lease>>, ks: seq<Call>, i: nat)
    requires |rows| == |ks| + 1 && i < |ks|
  {
    !ks[i].Release? && Succeeds(rows[i], ks[i])
  }

  /** The owner called again, with effect, strictly between the two calls. */
  ghost predicate ActsBetween(rows: seq<Option<Lease>>, ks: seq<Call>, owner: string, i: nat, j: nat)
    requires |rows| == |ks| + 1 && j <= |ks|
  {
    exists k :: i < k < j && ks[k].owner == owner && Succeeds(rows[k], ks[k])
  }

  /** Until it expires, a granted lease is its owner's, whatever others call. */
  lemma {:induction false} GrantStands(rows: seq<Option<Lease>>, ks: seq<Call>, i: nat, j: nat)
    requires Run(rows, ks) && i < j <= |ks| && Grants(rows, ks, i) && !ActsBetween(rows, ks, ks[i].owner, i, j)
    requires forall k :: i < k < j ==> ks[k].at < ks[i].at + ks[i].ttl
    ensures rows[j].Some? && rows[j].value.owner == ks[i].owner && rows[j].value.expiresAt == ks[i].at + ks[i].ttl
    decreases j
  {
    assert rows[j - 1 + 1] == Called(rows[j - 1], ks[j - 1]);
    if i < j - 1 {
      NoActionSooner(rows, ks, ks[i].owner, i, j);
      GrantStands(rows, ks, i, j - 1);
    }
  }

  lemma NoActionSooner(rows: seq<Option<Lease>>, ks: seq<Call>, owner: string, i: nat, j: nat)
    requires |rows| == |ks| + 1 && i < j - 1 < |ks| && !ActsBetween(rows, ks, owner, i, j)
    ensures !ActsBetween(rows, ks, owner, i, j - 1)
    ensures ks[j - 1].owner == owner ==> !Succeeds(rows[j - 1], ks[j - 1])
  {
  }

  /** Exclusivity: between grants to different owners the first owner's lease has
      run out, or the first owner itself called again. */
  lemma {:induction false} GrantsDoNotOverlap(rows: seq<Option<Lease>>, ks: seq<Call>, i: nat, j: nat)
    requires Run(rows, ks) && i < j < |ks| && Grants(rows, ks, i) && Grants(rows, ks, j) && ks[i].owner != ks[j].owner
    ensures ks[i].at + ks[i].ttl <= ks[j].at || ActsBetween(rows, ks, ks[i].owner, i, j)
  {
    if ks[j].at < ks[i].at + ks[i].ttl && !ActsBetween(rows, ks, ks[i].owner, i, j) {
      GrantStands(rows, ks, i, j);
      assert false;
    }
  }

  /** The end of the interval a grant is good for: its expiry, or the instant its
      owner next called with effect. */
  ghost predicate GoodUntil(rows: seq<Option<Lease>>, ks: seq<Call>, i: nat, until: int)
    requires |rows| == |ks| + 1 && i < |ks| && Grants(rows, ks, i)
  {
    until <= ks[i].at + ks[i].ttl
    && forall k :: i < k < |ks| && ks[k].owner == ks[i].owner && Succeeds(rows[k], ks[k]) ==> until <= ks[k].at
  }

  /** The intervals granted to different owners never overlap. */
  lemma IntervalsAreDisjoint(rows: seq<Option<Lease>>, ks: seq<Call>, i: nat, j: nat, until: int, later: int, t: int)
    requires Run(rows, ks) && i < |ks| && j < |ks| && Grants(rows, ks, i) && Grants(rows, ks, j) && ks[i].owner != ks[j].owner
    requires GoodUntil(rows, ks, i, until) && GoodUntil(rows, ks, j, later)
    ensures !(ks[i].at <= t < until && ks[j].at <= t < later)
  {
    var a, b, end := if i < j then i else j, if i < j then j else i, if i < j then until else later;
    GrantsDoNotOverlap(rows, ks, a, b);
    if ActsBetween(rows, ks, ks[a].owner, a, b) {
      var k :| a < k < b && ks[k].owner == ks[a].owner && Succeeds(rows[k], ks[k]);
      assert end <= ks[k].at <= ks[b].at;
    }
  }

  /** An owner that lost the lease cannot renew it until it acquires it again. */
  lemma {:induction false} LostLeaseStaysLost(rows: seq<Option<Lease>>, ks: seq<Call>, owner: string, i: nat, j: nat)
    requires Run(rows, ks) && i <= j < |ks| && (rows[i].None? || rows[i].value.owner != owner)
    requires forall k :: i <= k < j && ks[k].Acquire? && ks[k].owner == owner ==> !Succeeds(rows[k], ks[k])
    ensures rows[j].None? || rows[j].value.owner != owner
    ensures ks[j].owner == owner && !ks[j].Acquire? ==> !Succeeds(rows[j], ks[j]) && rows[j + 1] == rows[j]
    ensures forall now :: !BelongsTo(rows[j], owner, now)
    decreases j
  {
    assert rows[j + 1] == Called(rows[j], ks[j]);
    if i < j {
      LostLeaseStaysLost(rows, ks, owner, i, j - 1);
      assert rows[j - 1 + 1] == Called(rows[j - 1], ks[j - 1]);
    }
  }

  /** The guard passes for an owner exactly while a grant of its own is good, and
      so for one owner at most. */
  lemma {:induction false} GuardNeedsGrant(rows: seq<Option<Lease>>, ks: seq<Call>, j: nat, owner: string, now: int)
    requires Run(rows, ks) && j <= |ks|
    ensures BelongsTo(rows[j], owner, now) <==>
              exists i :: 0 <= i < j && Grants(rows, ks, i) && ks[i].owner == owner && now < ks[i].at + ks[i].ttl
                          && rows[j] == rows[i + 1]
    ensures forall other :: BelongsTo(rows[j], owner, now) && BelongsTo(rows[j], other, now) ==> other == owner
    decreases j
  {
    if j > 0 {
      assert rows[j - 1 + 1] == Called(rows[j - 1], ks[j - 1]);
      if BelongsTo(rows[j], owner, now) {
        if Succeeds(rows[j - 1], ks[j - 1]) {
          assert Grants(rows, ks, j - 1);
        } else {
          GuardNeedsGrant(rows, ks, j - 1, owner, now);
        }
      }
      if i :| 0 <= i < j && Grants(rows, ks, i) && ks[i].owner == owner && now < ks[i].at + ks[i].ttl && rows[j] == rows[i + 1] {
        assert rows[i + 1] == Called(rows[i], ks[i]);
      }
    }
  }

  /** A caller that names itself and a positive time gets the lease exactly when
      nobody else's is unexpired, renews its own exactly while it is, and gives up
      its own whenever it likes; nothing else changes the row. */
  lemma LeaseAnswers(row: Option<Lease>, owner: string, ttl: int, at: int)
    requires !Blank(owner) && ttl > 0
    ensures Called(row, Acquire(owner, ttl, at))
            == if row.Some? && row.value.owner != owner && at < row.value.expiresAt then row else Some(Lease(owner, at, at, at + ttl))
    ensures Called(row, Renew(owner, ttl, at))
            == if row.Some? && row.value.owner == owner && at < row.value.expiresAt
               then Some(Lease(owner, row.value.acquiredAt, at, at + ttl)) else row
    ensures Called(row, Release(owner, at)) == if row.Some? && row.value.owner == owner then None else row
    ensures Succeeds(row, Acquire(owner, ttl, at)) <==> !(row.Some? && row.value.owner != owner && at < row.value.expiresAt)
    ensures Succeeds(row, Renew(owner, ttl, at)) <==> row.Some? && row.value.owner == owner && at < row.value.expiresAt
    ensures Succeeds(row, Release(owner, at)) <==> row.Some? && row.value.owner == owner
  {
  }
}

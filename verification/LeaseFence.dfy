/** The lease row of one durable run, and the in-process authority that writes through it.
    Times are microseconds since the epoch; every clock reading is an arbitrary argument, so
    nothing below assumes that the clocks of different workers agree or move forward. */
module LeaseFence {
  import opened Wrappers

  const LEASE_DURATION: int := 30_000_000
  const LEASE_RENEWAL_INTERVAL: int := 10_000_000

  datatype Token = Token(owner: nat, fence: nat, acquiredAt: int, renewedAt: int) {
    function RenewAfter(): int { renewedAt + LEASE_RENEWAL_INTERVAL }

    function ExpiresAt(): int { renewedAt + LEASE_DURATION }

    predicate RenewalDue(now: int) { RenewAfter() <= now < ExpiresAt() }

    predicate Expired(now: int) { ExpiresAt() <= now }
  }

  datatype LeaseError = StaleLease | LeaseUnavailable | RenewalTooEarly

  /** `fence` outlives the token: a released row keeps the last fence it issued. */
  datatype LeaseRow = LeaseRow(fence: nat, held: Option<Token>) {
    predicate Valid() { held.Some? ==> held.value.fence == fence }

    /** The check every fenced write makes in its own transaction. */
    predicate Accepts(token: Token, now: int) {
      held == Some(token) && token.renewedAt <= now && !token.Expired(now)
    }

    function Acquire(owner: nat, now: int): Result<(LeaseRow, Token), LeaseError> {
      if held.Some? && !held.value.Expired(now) then
        if held.value.owner == owner then Success((this, held.value)) else Failure(LeaseUnavailable)
      else
        var token := Token(owner, fence + 1, now, now);
        Success((LeaseRow(fence + 1, Some(token)), token))
    }

    function Renew(token: Token, now: int): Result<(LeaseRow, Token), LeaseError> {
      if !Accepts(token, now) then Failure(StaleLease)
      else if now < token.RenewAfter() then Failure(RenewalTooEarly)
      else
        var renewed := token.(renewedAt := now);
        Success((LeaseRow(fence, Some(renewed)), renewed))
    }

    function Release(token: Token, now: int): Result<LeaseRow, LeaseError> {
      if Accepts(token, now) then Success(LeaseRow(fence, None)) else Failure(StaleLease)
    }
  }

  // ---------- Fencing over every run of the lease row ----------

  datatype LeaseAction =
    | Acquiring(owner: nat, now: int)
    | Renewing(token: Token, now: int)
    | Releasing(token: Token, now: int)
    | Writing(token: Token, now: int)

  function Next(row: LeaseRow, action: LeaseAction): LeaseRow {
    match action
    case Acquiring(owner, now) =>
      var r := row.Acquire(owner, now);
      if r.Success? then r.value.0 else row
    case Renewing(token, now) =>
      var r := row.Renew(token, now);
      if r.Success? then r.value.0 else row
    case Releasing(token, now) =>
      var r := row.Release(token, now);
      if r.Success? then r.value else row
    case Writing(_, _) => row
  }

  /** The tokens under which writes were accepted, in order. */
  function AcceptedWrites(row: LeaseRow, actions: seq<LeaseAction>): seq<Token>
    decreases actions
  {
    if actions == [] then []
    else
      var rest := AcceptedWrites(Next(row, actions[0]), actions[1..]);
      match actions[0]
      case Writing(token, now) => if row.Accepts(token, now) then [token] + rest else rest
      case _ => rest
  }

  /** No write carries an earlier fence than one before it, and a fence has one owner. */
  ghost predicate Fenced(writes: seq<Token>) {
    forall i, j :: 0 <= i < j < |writes| ==> NotBefore(writes[i], writes[j])
  }

  predicate NotBefore(earlier: Token, later: Token) {
    earlier.fence <= later.fence && (earlier.fence == later.fence ==> earlier.owner == later.owner)
  }

  /** Everything accepted from `row` on carries its fence or a later one, and the fence
      already issued can only be used by the owner that holds it. */
  lemma {:induction false} WritesFollowTheRow(row: LeaseRow, actions: seq<LeaseAction>)
    requires row.Valid()
    ensures forall t <- AcceptedWrites(row, actions) ::
              && row.fence <= t.fence
              && (t.fence == row.fence ==> row.held.Some? && t.owner == row.held.value.owner)
    decreases actions
  {
    if actions != [] {
      WritesFollowTheRow(Next(row, actions[0]), actions[1..]);
    }
  }

  /** Fencing: over any interleaving of acquisitions, renewals, releases and writes, with any
      tokens (stale ones included) and any clock readings, accepted writes never go back to an
      earlier fence, and one fence is only ever used by one owner. */
  lemma {:induction false} AcceptedWritesAreFenced(row: LeaseRow, actions: seq<LeaseAction>)
    requires row.Valid()
    ensures Fenced(AcceptedWrites(row, actions))
    decreases actions
  {
    if actions != [] {
      var next := Next(row, actions[0]);
      var rest := AcceptedWrites(next, actions[1..]);
      AcceptedWritesAreFenced(next, actions[1..]);
      WritesFollowTheRow(next, actions[1..]);
      if AcceptedWrites(row, actions) != rest {
        var token := actions[0].token;
        forall j | 0 <= j < |rest|
          ensures NotBefore(token, rest[j])
        {
          assert rest[j] in rest;
        }
        assert AcceptedWrites(row, actions) == [token] + rest;
      }
    }
  }

  // ---------- The in-process authority ----------

  /** What `hold` leaves behind: the row, the authority's token and what the caller is given. */
  datatype Held = Held(row: LeaseRow, lease: Token, outcome: Result<Token, LeaseError>)

  function HoldSpec(row: LeaseRow, lease: Token, released: bool, occurredAt: int): Held {
    var at := Max(occurredAt, lease.renewedAt);
    if released then Held(row, lease, Failure(StaleLease))
    else if lease.RenewalDue(at) then
      match row.Renew(lease, at)
      case Success((renewedRow, renewed)) => Held(renewedRow, renewed, Success(renewed))
      case Failure(e) => Held(row, lease, Failure(e))
    else if lease.Expired(at) then Held(row, lease, Failure(StaleLease))
    else Held(row, lease, Success(lease))
  }

  /** `hold` clamps a clock reading that lies before the last renewal only for its own checks.
      A caller that then writes at the unclamped reading is accepted exactly when the store
      still has this token and the reading is not before the last renewal. */
  lemma HoldThenWrite(row: LeaseRow, lease: Token, released: bool, occurredAt: int)
    requires HoldSpec(row, lease, released, occurredAt).outcome.Success?
    ensures var h := HoldSpec(row, lease, released, occurredAt);
            h.row.Accepts(h.outcome.value, occurredAt) <==>
            (row.held == Some(lease) && lease.renewedAt <= occurredAt)
    ensures var h := HoldSpec(row, lease, released, occurredAt);
            h.row.Accepts(h.outcome.value, Max(occurredAt, h.outcome.value.renewedAt)) <==>
            row.held == Some(lease)
  {
  }

  /** Holding never changes who owns the run: same owner, same fence, and renewal time only
      moves forward; and it fails exactly when released, expired, or due and fenced off. */
  lemma HoldKeepsIdentity(row: LeaseRow, lease: Token, released: bool, occurredAt: int)
    ensures var h := HoldSpec(row, lease, released, occurredAt);
            && h.lease.owner == lease.owner && h.lease.fence == lease.fence
            && h.row.fence == row.fence && lease.renewedAt <= h.lease.renewedAt
            && (row.held != Some(lease) ==> h.row == row && h.lease == lease)
    ensures var h := HoldSpec(row, lease, released, occurredAt);
            h.outcome.Failure? <==>
            released || lease.Expired(occurredAt)
            || (lease.RenewalDue(occurredAt) && row.held != Some(lease))
  {
  }

  class LeaseTable {
    var row: LeaseRow

    constructor ()
      ensures row == LeaseRow(0, None)
    {
      row := LeaseRow(0, None);
    }
  }

  class LeaseAuthority {
    const table: LeaseTable
    var lease: Token
    var released: bool

    constructor (table: LeaseTable, lease: Token)
      ensures this.table == table && this.lease == lease && !released
    {
      this.table := table;
      this.lease := lease;
      released := false;
    }

    method Hold(occurredAt: int) returns (outcome: Result<Token, LeaseError>)
      modifies this`lease, table`row
      ensures Held(table.row, lease, outcome)
              == HoldSpec(old(table.row), old(lease), released, occurredAt)
    {
      if released {
        return Failure(StaleLease);
      }
      var at := occurredAt;
      if at < lease.renewedAt {
        at := lease.renewedAt;
      }
      if lease.RenewalDue(at) {
        match table.row.Renew(lease, at) {
          case Success((renewedRow, renewed)) =>
            table.row := renewedRow;
            lease := renewed;
          case Failure(e) =>
            return Failure(e);
        }
      }
      if lease.Expired(at) {
        return Failure(StaleLease);
      }
      return Success(lease);
    }

    /** The heartbeat: renew when due, and never after release. */
    method Renew(now: int) returns (outcome: Result<(), LeaseError>)
      modifies this`lease, table`row
      ensures lease.owner == old(lease.owner) && lease.fence == old(lease.fence)
      ensures table.row.fence == old(table.row.fence)
      ensures if !released && old(lease).RenewalDue(now) && old(table.row).held == Some(old(lease))
              then lease == old(lease).(renewedAt := now) && table.row.held == Some(lease)
              else lease == old(lease) && table.row == old(table.row)
      ensures outcome.Failure? <==>
              !released && old(lease).RenewalDue(now) && old(table.row).held != Some(old(lease))
    {
      if !released && lease.RenewalDue(now) {
        match table.row.Renew(lease, now) {
          case Success((renewedRow, renewed)) =>
            table.row := renewedRow;
            lease := renewed;
          case Failure(e) =>
            return Failure(e);
        }
      }
      return Success(());
    }

    /** Release frees the row exactly when this authority still owns an unexpired lease, and is
        final either way. */
    method Release(now: int)
      modifies this`released, table`row
      ensures released
      ensures table.row ==
              if !old(released) && old(table.row).held == Some(lease) && !lease.Expired(now)
              then LeaseRow(old(table.row).fence, None)
              else old(table.row)
    {
      if released {
        return;
      }
      var at := Max(now, lease.renewedAt);
      match table.row.Release(lease, at) {
        case Success(freed) => table.row := freed;
        case Failure(_) =>
      }
      released := true;
    }
  }
}

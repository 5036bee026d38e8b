/** The stored record of one publication, and the repository that fences it with an owner lease. */
module ProviderOperations {
  import opened Runs

  datatype Status = Creating | Processing | Ready | Finalizing | Published | Uncertain | Failed

  /** A link as the URL parser sees it. */
  datatype Url = Unparsable | Url(protocol: string, hostname: string)

  datatype Deadline = At(ms: int) | NotADate

  /** Identifiers are numbers; an absent or empty string is None, since the source tests both by truthiness. */
  datatype Operation = Operation(
    status: Status,
    attempt: nat,
    containerId: Option<nat> := None,
    externalPostId: Option<nat> := None,
    liveUrl: Option<Url> := None,
    session: Option<nat> := None,
    uploadedBytes: Option<nat> := None,
    processingChecks: Option<nat> := None,
    deadline: Option<Deadline> := None)

  const LEASE_MS := 900_000

  datatype Row = Row(operation: Operation, owner: Option<nat>, expires: Option<int>)

  datatype Claim = Claim(claimed: bool, created: bool, operation: Operation)

  predicate LeaseFree(row: Row, now: int) {
    row.owner.None? || row.expires.None? || row.expires.value <= now
  }

  predicate LeaseHeld(row: Row, owner: nat, now: int) {
    row.owner == Some(owner) && row.expires.Some? && now < row.expires.value
  }

  /** Insert the seed, or lease the stored record when nobody holds it. */
  function Claiming(row: Option<Row>, seed: Operation, owner: nat, now: int): (Claim, Option<Row>) {
    if row.None? then
      (Claim(true, true, seed), Some(Row(seed, Some(owner), Some(now + LEASE_MS))))
    else if LeaseFree(row.value, now) then
      (Claim(true, false, row.value.operation), Some(row.value.(owner := Some(owner), expires := Some(now + LEASE_MS))))
    else
      (Claim(false, false, row.value.operation), row)
  }

  /** Write only for the current owner, and extend its lease. */
  function SavingClaimed(row: Option<Row>, operation: Operation, owner: nat, now: int): (bool, Option<Row>) {
    if row.Some? && LeaseHeld(row.value, owner, now) then
      (true, Some(Row(operation, Some(owner), Some(now + LEASE_MS))))
    else
      (false, row)
  }

  function Lookup<K, V>(m: map<K, V>, k: K): Option<V> {
    if k in m then Some(m[k]) else None
  }

  /** The in-memory repository: one row per publish target, updated in place. */
  class OperationRepository {
    var operations: map<nat, Row>

    constructor ()
      ensures operations == map[]
    {
      operations := map[];
    }

    method ClaimExecution(target: nat, seed: Operation, owner: nat, now: int) returns (claim: Claim)
      modifies this
      ensures (claim, Lookup(operations, target)) == Claiming(Lookup(old(operations), target), seed, owner, now)
      ensures operations - {target} == old(operations) - {target}
    {
      if target !in operations {
        operations := operations[target := Row(seed, Some(owner), Some(now + LEASE_MS))];
        return Claim(true, true, seed);
      }
      var current := operations[target];
      var available := current.owner.None? || current.expires.None? || current.expires.value <= now;
      if !available {
        return Claim(false, false, current.operation);
      }
      operations := operations[target := Row(current.operation, Some(owner), Some(now + LEASE_MS))];
      return Claim(true, false, current.operation);
    }

    method SaveClaimed(target: nat, operation: Operation, owner: nat, now: int) returns (saved: bool)
      modifies this
      ensures (saved, Lookup(operations, target)) ==
          SavingClaimed(Lookup(old(operations), target), operation, owner, now)
      ensures operations - {target} == old(operations) - {target}
    {
      if target !in operations {
        return false;
      }
      var current := operations[target];
      if current.owner != Some(owner) || current.expires.None? || current.expires.value <= now {
        return false;
      }
      operations := operations[target := Row(operation, Some(owner), Some(now + LEASE_MS))];
      return true;
    }
  }

  /** Two distinct workers are never both admitted by a lease, and a claim is created only for an absent record. */
  lemma ClaimsExclude(row: Option<Row>, seed: Operation, a: nat, b: nat, now: int, later: int, operation: Operation)
    requires a != b && now <= later
    ensures var (claim, next) := Claiming(row, seed, a, now);
      && (claim.created <==> row.None?)
      && (claim.claimed ==>
            && !SavingClaimed(next, operation, b, later).0
            && (later < now + LEASE_MS ==> !Claiming(next, seed, b, later).0.claimed)
            && (now + LEASE_MS <= later ==>
                  && !SavingClaimed(next, operation, a, later).0
                  && !SavingClaimed(Claiming(next, seed, b, later).1, operation, a, later).0))
  {
  }
}

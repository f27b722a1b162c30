/** Artifact metadata rows and the conditional updates the store is built on.
  *
  * One row stands behind every artifact. Each function below is one statement
  * of the metadata store: it either applies to a row as a whole or leaves the
  * table alone. Both the interleaving machine (ArtifactMachine) and the
  * sequential reconciliation pass (ReconcilePass) use these definitions.
  */
module ArtifactRows {

  type Bytes = seq<bv8>

  datatype Key = Key(tenant: string, id: string)

  /** SHA-256, taken to be collision free: a digest stands for the bytes it was computed from. */
  datatype Digest = Sha256(preimage: Bytes)

  datatype RowState = Writing | Final | Deleting | Tombstoned

  datatype Reason = NoReason | Deleted | WriteAborted | ExpiredWriteLease | MissingFinalBytes

  /** The lease columns; `owner` and `fence` never change while the row is writing. */
  datatype Lease = Lease(owner: string, fence: int)

  datatype Row = Row(
    state: RowState,
    lease: Lease,
    expiresAt: int,
    sha: Digest,
    size: nat,
    reason: Reason)

  type Rows = map<Key, Row>

  predicate OwnedWriting(rows: Rows, k: Key, lease: Lease) {
    k in rows && rows[k].state == Writing && rows[k].lease == lease
  }

  /** Flips writing to final, but only while `lease` still owns the row. */
  function FinalizeCommit(rows: Rows, k: Key, lease: Lease, sha: Digest, size: nat): Rows {
    if OwnedWriting(rows, k, lease) then rows[k := rows[k].(state := Final, sha := sha, size := size)] else rows
  }

  /** Flips writing to tombstoned, but only while `lease` still owns the row. */
  function InvalidateWriting(rows: Rows, k: Key, lease: Lease, reason: Reason): Rows {
    if OwnedWriting(rows, k, lease) then rows[k := rows[k].(state := Tombstoned, reason := reason)] else rows
  }

  /** Tombstones a row in any state; the first reason wins. */
  function Tombstone(rows: Rows, k: Key, reason: Reason): Rows {
    if k !in rows then rows
    else if rows[k].state == Tombstoned then rows
    else rows[k := rows[k].(state := Tombstoned, reason := reason)]
  }

  /** The rows `ListExpiredWriting` returns: writing, and expired strictly before `now`. */
  function ExpiredWriting(rows: Rows, now: int): map<Key, Lease> {
    map k | k in rows && rows[k].state == Writing && rows[k].expiresAt < now :: rows[k].lease
  }

  /** The rows `ListFinalPaths` returns: every row that ever carried durable bytes. */
  function FinalPaths(rows: Rows): map<Key, RowState> {
    map k | k in rows && rows[k].state != Writing :: rows[k].state
  }

  /** Phase (b)'s test for a live writer: the lease ends strictly after the pass's `now`. */
  predicate LiveWriter(row: Row, now: int) {
    row.state == Writing && row.expiresAt > now
  }

  /** States only ever move forward in this order. */
  function Rank(s: RowState): nat {
    match s
    case Writing => 0
    case Final => 1
    case Deleting => 2
    case Tombstoned => 3
  }
}

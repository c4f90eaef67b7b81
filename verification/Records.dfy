/**
 The record of one issued service principal
 (api/v1alpha1/issueddatabricksserviceprincipal_types.go).
 */
module Records {
  import opened Names
  import opened Options

  /** What a record's name is derived from, and what tells one marker from another. */
  datatype Key = Key(uid: string, identity: string)

  /** Three of these fields spell the record's state; none of them is ever cleared. */
  datatype Status = Status(
    accountId: string,
    createSentAt: Option<nat>,
    servicePrincipalId: Option<nat>,
    clientId: string,
    issuer: string,
    audience: string,
    removedAt: Option<nat>)

  const NEW_STATUS := Status("", None, None, "", "", "", None)

  datatype PrincipalState = Unsent | Sent | Known | Gone {
    function Rank(): nat {
      match this
      case Unsent => 0
      case Sent => 1
      case Known => 2
      case Gone => 3
    }
  }

  /** Resolved most-decided first: each is a later fact about the same service principal. */
  function StateOf(status: Status): PrincipalState {
    if status.removedAt.Some? then Gone
    else if status.servicePrincipalId.Some? then Known
    else if status.createSentAt.Some? then Sent
    else Unsent
  }

  /** Nothing written about a service principal is taken back. */
  predicate Advances(before: Status, after: Status) {
    && (before.createSentAt.Some? ==> after.createSentAt == before.createSentAt)
    && (before.servicePrincipalId.Some? ==> after.servicePrincipalId == before.servicePrincipalId)
    && (before.removedAt.Some? ==> after.removedAt == before.removedAt)
    && StateOf(before).Rank() <= StateOf(after).Rank()
  }

  /** An id is only ever recorded after the mark, and a removal after the id. */
  predicate InOrder(status: Status) {
    && (status.servicePrincipalId.Some? ==> status.createSentAt.Some?)
    && (status.removedAt.Some? ==> status.servicePrincipalId.Some?)
  }

  /**
   One stored version of one record. uid tells an incarnation from a later one of the same name;
   version is the resourceVersion a write is checked against.
   */
  datatype Record = Record(
    key: Key,
    owner: NamespacedName,
    uid: nat,
    version: nat,
    finalizer: bool,
    deleting: bool,
    status: Status)
}

/**
 The account's pass over the namespaces it issued identities in and no longer names
 (internal/controller/databricksaccount_controller.go:523-628, 725-864).

 It destroys nothing. It claims what still holds a record and gives back what holds none, and says
 whether anything is left. Nobody else writes a Namespace while one is claimed or given back, and
 those calls take no time; any call may fail, and one that failed may still have taken effect.
 */
module Destruction {
  import opened Names
  import opened Options
  import opened ServerSideApply
  import opened DestructionClaim
  import RecordProtocol
  import RecordTheorems
  import Records
  import Sorting

  type Namespaces = map<string, Namespace>

  datatype Applied = Written | Conflict | Failed

  class ApiServer {
    var namespaces: Namespaces
    var clock: nat
    /** The namespaces a write on which gets no answer, and whether they can be listed. */
    const failing: set<string>
    const lists: bool

    constructor (namespaces: Namespaces, clock: nat, failing: set<string>, lists: bool)
      ensures this.namespaces == namespaces && this.clock == clock && this.failing == failing && this.lists == lists
    {
      this.namespaces, this.clock, this.failing, this.lists := namespaces, clock, failing, lists;
    }

    method Wait()
      modifies this`clock
      ensures clock >= old(clock)
    {
      var elapsed: nat :| 0 <= elapsed;
      clock := clock + elapsed;
    }

    method Apply(name: string, m: Manager, config: map<Path, Value>, force: bool) returns (r: Applied)
      requires name in namespaces
      modifies this`namespaces
      ensures r.Conflict? <==> ServerSideApply.Apply(old(namespaces[name]), m, config, force).None?
      ensures r.Conflict? ==> namespaces == old(namespaces)
      ensures r.Failed? <==> !r.Conflict? && name in failing
      ensures !r.Conflict? ==>
        var written := old(namespaces)[name := ServerSideApply.Apply(old(namespaces[name]), m, config, force).value];
        namespaces == written || (r.Failed? && namespaces == old(namespaces))
    {
      match ServerSideApply.Apply(namespaces[name], m, config, force) {
        case None => r := Conflict;
        case Some(written) =>
          var effect: bool := *;
          if name !in failing || effect {
            namespaces := namespaces[name := written];
          }
          r := if name in failing then Failed else Written;
      }
    }
  }

  /** How many of these records are in this namespace. Each is given by the namespace it was issued in. */
  function CountIn(records: seq<string>, namespace: string): nat {
    if records == [] then 0
    else CountIn(records[..|records| - 1], namespace) + if records[|records| - 1] == namespace then 1 else 0
  }

  lemma {:induction false} CountIsPresence(records: seq<string>, namespace: string)
    ensures CountIn(records, namespace) > 0 <==> namespace in records
  {
    if records != [] {
      CountIsPresence(records[..|records| - 1], namespace);
      assert records == records[..|records| - 1] + [records[|records| - 1]];
    }
  }

  /** What is left of a namespace to this account: records in it, where it is not one the account names. */
  function Left(records: seq<string>, served: set<string>, namespace: string): nat {
    if namespace in served then 0 else CountIn(records, namespace)
  }

  /** Claimed by this operator at some time since. */
  ghost predicate Claims(before: Namespace, after: Namespace, operator: NamespacedName, since: nat) {
    exists now: nat :: since <= now && Acquired(before, operator, now) == Some(after)
  }

  /** What a pass means to make of a namespace that still holds records, or that holds none and is claimed. */
  ghost predicate Meant(before: Namespace, after: Namespace, operator: NamespacedName, left: nat, since: nat) {
    if left > 0 then Claims(before, after, operator, since) else Released(before, operator) == Some(after)
  }

  /** Somebody else's claim stands, and is not stale, at some time since. */
  ghost predicate Unclaimable(before: Namespaces, name: string, operator: NamespacedName, since: nat) {
    name in before && exists now: nat :: since <= now && Acquired(before[name], operator, now).None?
  }

  /** What a pass comes to when every call is answered. */
  ghost predicate PassedOver(before: Namespaces, after: Namespaces, operator: NamespacedName, records: seq<string>,
                             served: set<string>, since: nat, destroyed: bool) {
    && after.Keys == before.Keys
    && (forall n | n in after ::
         if Left(records, served, n) > 0 then
           Claims(before[n], after[n], operator, since)
             || (after[n] == before[n] && Unclaimable(before, n, operator, since))
         else if HolderOf(before[n]) == Some(operator) then Released(before[n], operator) == Some(after[n])
         else after[n] == before[n])
    && (destroyed <==> forall n :: Left(records, served, n) == 0)
  }

  class AccountReconciler {
    const operator: NamespacedName
    const api: ApiServer

    constructor (operator: NamespacedName, api: ApiServer)
      ensures this.operator == operator && this.api == api
    {
      this.operator, this.api := operator, api;
    }

    /** Claims a namespace, or says again that the claim is still wanted. */
    method AcquireDestructionClaim(name: string) returns (err: bool)
      modifies api`namespaces
      ensures name !in old(api.namespaces) ==> !err && api.namespaces == old(api.namespaces)
      ensures name in old(api.namespaces) ==>
        var claim := Acquired(old(api.namespaces[name]), operator, api.clock);
        && ((claim.Some? && api.namespaces == old(api.namespaces)[name := claim.value])
            || (err && api.namespaces == old(api.namespaces)))
        && (err <==> claim.None? || name in api.failing)
    {
      if name !in api.namespaces {
        return false;
      }
      var claim := ClaimFor(operator, api.clock);
      var applied := api.Apply(name, operator, claim, false);
      if !applied.Conflict? {
        return applied.Failed?;
      }
      var namespace := api.namespaces[name];
      var since := SinceOf(namespace);
      if since.None? {
        return true;
      }
      var age := api.clock - since.value * SECOND;
      if age < DESTRUCTION_CLAIM_STALE {
        return true;
      }
      applied := api.Apply(name, operator, claim, true);
      return applied.Failed?;
    }

    /** Gives a namespace back, if this operator is who holds it. */
    method ReleaseDestructionClaim(name: string) returns (err: bool)
      modifies api`namespaces
      ensures name !in old(api.namespaces) ==> !err && api.namespaces == old(api.namespaces)
      ensures name in old(api.namespaces) ==>
        var released := Released(old(api.namespaces[name]), operator);
        released.Some?
        && (api.namespaces == old(api.namespaces)[name := released.value]
            || (err && api.namespaces == old(api.namespaces)))
        && (err <==> HolderOf(old(api.namespaces[name])) == Some(operator) && name in api.failing)
    {
      if name !in api.namespaces {
        return false;
      }
      var namespace := api.namespaces[name];
      if HolderOf(namespace) != Some(operator) {
        assert api.namespaces == api.namespaces[name := namespace];
        return false;
      }
      var none: map<Path, Value> := map[];
      assert !Refuses(namespace, operator, none);
      var applied := api.Apply(name, operator, none, false);
      return applied.Failed?;
    }

    /** Selected on the operator's namespace, and narrowed on its account. None is the listing failing. */
    method NamespacesClaimedForDestruction() returns (claimed: Option<set<string>>)
      requires operator.namespace != ""
      ensures claimed.Some? <==> api.lists
      ensures claimed.Some? ==>
        forall n :: n in claimed.value <==> n in api.namespaces && HolderOf(api.namespaces[n]) == Some(operator)
    {
      if !api.lists {
        return None;
      }
      var selected := set n | n in api.namespaces
        && TextAt(api.namespaces[n], DESTROYING_IDENTITIES) == operator.namespace;
      var mine: set<string> := {};
      var todo := selected;
      while todo != {}
        invariant todo <= selected
        invariant forall n :: n in mine <==> n in selected - todo && HolderOf(api.namespaces[n]) == Some(operator)
        decreases |todo|
      {
        var n :| n in todo;
        todo := todo - {n};
        if HolderOf(api.namespaces[n]) == Some(operator) {
          mine := mine + {n};
        }
      }
      claimed := Some(mine);
    }

    /** How many records each namespace this account does not name still holds. */
    method Holding(records: seq<string>, served: set<string>) returns (holding: map<string, nat>)
      ensures forall n :: n in holding <==> Left(records, served, n) > 0
      ensures forall n | n in holding :: holding[n] == Left(records, served, n)
    {
      holding := map[];
      for i := 0 to |records|
        invariant forall n :: n in holding <==> Left(records[..i], served, n) > 0
        invariant forall n | n in holding :: holding[n] == Left(records[..i], served, n)
      {
        assert records[..i + 1][..i] == records[..i];
        var namespace := records[i];
        if namespace !in served {
          holding := holding[namespace := if namespace in holding then holding[namespace] + 1 else 1];
        }
      }
      assert records[..|records|] == records;
    }

    /** The members of a set, in the order slices.Sort gives them. */
    method Sorted(names: set<string>) returns (sorted: seq<string>)
      ensures Ordered(sorted) && forall n :: n in sorted <==> n in names
    {
      var unsorted: seq<string> := [];
      var todo := names;
      while todo != {}
        invariant todo <= names
        invariant forall i | 0 <= i < |unsorted| :: unsorted[i] in names && unsorted[i] !in todo
        invariant forall n | n in names :: n in todo || n in unsorted
        invariant forall i, j | 0 <= i < j < |unsorted| :: unsorted[i] != unsorted[j]
        decreases |todo|
      {
        var n :| n in todo;
        todo := todo - {n};
        unsorted := unsorted + [n];
      }
      var key := (s: string) => s;
      assert Sorting.KeysDistinct(unsorted, key);
      Sorting.SortKeeps(unsorted, key);
      sorted := Sorting.SortBy(unsorted, key);
      assert Sorting.KeysOrdered(sorted, key);
    }

    method Visit(namespace: string, left: nat, ghost since: nat) returns (err: bool)
      requires since <= api.clock
      modifies api
      ensures api.namespaces.Keys == old(api.namespaces.Keys) && api.clock >= old(api.clock)
      ensures forall n | n in api.namespaces && n != namespace :: api.namespaces[n] == old(api.namespaces)[n]
      ensures namespace in api.namespaces ==>
        Meant(old(api.namespaces)[namespace], api.namespaces[namespace], operator, left, since)
        || (err && api.namespaces[namespace] == old(api.namespaces)[namespace])
      ensures err ==>
        namespace in api.failing
        || (left > 0 && Unclaimable(old(api.namespaces), namespace, operator, since))
    {
      api.Wait();
      if left > 0 {
        err := AcquireDestructionClaim(namespace);
      } else {
        err := ReleaseDestructionClaim(namespace);
      }
    }

    method VisitAll(namespaces: seq<string>, holding: map<string, nat>)
      returns (remaining: seq<string>, unclaimed: seq<string>, stillHeld: seq<string>)
      requires Ordered(namespaces) && forall n :: n in namespaces <==> n in holding
      modifies api
      ensures api.namespaces.Keys == old(api.namespaces.Keys)
      ensures forall n | n in api.namespaces && n !in holding :: api.namespaces[n] == old(api.namespaces)[n]
      ensures forall n :: n in remaining <==> n in holding && holding[n] > 0
      ensures forall n | n in unclaimed :: n in remaining
      ensures forall n | n in stillHeld :: n in holding && holding[n] == 0
      ensures forall n | n in holding && n in api.namespaces ::
        Meant(old(api.namespaces)[n], api.namespaces[n], operator, holding[n], old(api.clock))
        || ((n in unclaimed || n in stillHeld) && api.namespaces[n] == old(api.namespaces)[n])
      ensures forall n | n in unclaimed ::
        n in api.failing || Unclaimable(old(api.namespaces), n, operator, old(api.clock))
      ensures forall n | n in stillHeld :: n in api.failing
    {
      remaining, unclaimed, stillHeld := [], [], [];
      ghost var was, since := api.namespaces, api.clock;
      ghost var done: set<string> := {};
      for i := 0 to |namespaces|
        invariant api.namespaces.Keys == was.Keys && since <= api.clock
        invariant done <= holding.Keys && (forall k | 0 <= k < i :: namespaces[k] in done)
        invariant forall k | i <= k < |namespaces| :: namespaces[k] !in done
        invariant forall n | n in was && n !in done :: api.namespaces[n] == was[n]
        invariant forall n :: n in remaining <==> n in done && holding[n] > 0
        invariant forall n | n in unclaimed :: n in remaining
        invariant forall n | n in stillHeld :: n in done && holding[n] == 0
        invariant forall n | n in done && n in was ::
          Meant(was[n], api.namespaces[n], operator, holding[n], since)
          || ((n in unclaimed || n in stillHeld) && api.namespaces[n] == was[n])
        invariant forall n | n in unclaimed :: n in api.failing || Unclaimable(was, n, operator, since)
        invariant forall n | n in stillHeld :: n in api.failing
      {
        var namespace := namespaces[i];
        forall k | i < k < |namespaces|
          ensures namespaces[k] != namespace
        {
          BeforeIsStrict(namespace, namespaces[k]);
        }
        var failed := Visit(namespace, holding[namespace], since);
        if holding[namespace] > 0 {
          remaining := remaining + [namespace];
          if failed {
            unclaimed := unclaimed + [namespace];
          }
        } else if failed {
          stillHeld := stillHeld + [namespace];
        }
        done := done + {namespace};
      }
    }

    /**
     Claims what still holds records, gives back what holds none, and reports: destroyed exactly when no
     record is left where this account is not to be, and nothing it claimed is still claimed.
     */
    method DestroyIdentitiesIn(records: seq<string>, served: set<string>)
      returns (destroyed: bool, err: bool, remaining: seq<string>, unclaimed: seq<string>, stillHeld: seq<string>)
      requires operator.namespace != ""
      modifies api
      ensures api.namespaces.Keys == old(api.namespaces.Keys)
      ensures forall n | n in api.namespaces && api.namespaces[n] != old(api.namespaces)[n] ::
        (Left(records, served, n) > 0 || HolderOf(old(api.namespaces)[n]) == Some(operator))
        && Meant(old(api.namespaces)[n], api.namespaces[n], operator, Left(records, served, n), old(api.clock))
      ensures err <==> !api.lists
      ensures err ==> !destroyed && api.namespaces == old(api.namespaces)
      ensures forall n | n in unclaimed ::
        n in api.failing || Unclaimable(old(api.namespaces), n, operator, old(api.clock))
      ensures forall n | n in stillHeld :: n in api.failing
      ensures !err ==> forall n :: n in remaining <==> Left(records, served, n) > 0
      ensures !err ==> forall n | n in api.namespaces
          && (n in remaining || HolderOf(old(api.namespaces)[n]) == Some(operator)) ::
        n in unclaimed || n in stillHeld
        || Meant(old(api.namespaces)[n], api.namespaces[n], operator, Left(records, served, n), old(api.clock))
      ensures !err ==> forall n | n in unclaimed :: n in remaining
      ensures !err ==> forall n | n in stillHeld :: n !in remaining
      ensures destroyed <==> !err && remaining == [] && unclaimed == [] && stillHeld == []
      ensures api.lists && api.failing == {} ==>
        PassedOver(old(api.namespaces), api.namespaces, operator, records, served, old(api.clock), destroyed)
    {
      ghost var was, since := api.namespaces, api.clock;
      var holding := Holding(records, served);
      var claimed := NamespacesClaimedForDestruction();
      if claimed.None? {
        return false, true, [], [], [];
      }
      holding := (map n | n in claimed.value :: 0 as nat) + holding;
      var namespaces := Sorted(holding.Keys);
      assert forall n | n in holding :: holding[n] == Left(records, served, n);
      remaining, unclaimed, stillHeld := VisitAll(namespaces, holding);
      destroyed, err := unclaimed == [] && stillHeld == [] && remaining == [], false;
      if api.failing == {} {
        NoneIn(stillHeld, api.failing);
        EmptyMeansNone(remaining, unclaimed);
        assert remaining != [] ==> remaining[0] in remaining;
        Answered(was, api.namespaces, operator, records, served, since, unclaimed, destroyed);
      }
    }
  }

  lemma NoneIn(names: seq<string>, others: set<string>)
    requires forall n | n in names :: n in others
    ensures others == {} ==> names == []
  {
    if names != [] {
      assert names[0] in names;
    }
  }

  lemma EmptyMeansNone(remaining: seq<string>, unclaimed: seq<string>)
    requires forall n | n in unclaimed :: n in remaining
    ensures remaining == [] ==> unclaimed == []
  {
    assert unclaimed != [] ==> unclaimed[0] in unclaimed;
  }

  /** With every call answered, a namespace is left alone only for somebody else's claim. */
  lemma Answered(before: Namespaces, after: Namespaces, operator: NamespacedName, records: seq<string>,
                 served: set<string>, since: nat, unclaimed: seq<string>, destroyed: bool)
    requires after.Keys == before.Keys
    requires forall n | n in after && after[n] != before[n] ::
      (Left(records, served, n) > 0 || HolderOf(before[n]) == Some(operator))
      && Meant(before[n], after[n], operator, Left(records, served, n), since)
    requires forall n | n in after && (Left(records, served, n) > 0 || HolderOf(before[n]) == Some(operator)) ::
      n in unclaimed || Meant(before[n], after[n], operator, Left(records, served, n), since)
    requires forall n | n in unclaimed :: Left(records, served, n) > 0 && Unclaimable(before, n, operator, since)
    requires destroyed <==> forall n :: Left(records, served, n) == 0
    ensures PassedOver(before, after, operator, records, served, since, destroyed)
  {
  }

  /** A namespace that is free stays free, held once something is left in it and not once nothing is. */
  lemma PassLeavesFree(before: Namespaces, after: Namespaces, operator: NamespacedName, records: seq<string>,
                       served: set<string>, since: nat, destroyed: bool, n: string)
    requires PassedOver(before, after, operator, records, served, since, destroyed) && operator.namespace != ""
    requires n in before && IsFree(before[n], operator)
    ensures IsFree(after[n], operator)
    ensures Left(records, served, n) > 0 ==> HolderOf(after[n]) == Some(operator)
    ensures Left(records, served, n) == 0 ==> DESTROYING_IDENTITIES !in after[n]
  {
    if Left(records, served, n) > 0 {
      if Claims(before[n], after[n], operator, since) {
        var now: nat :| since <= now && Acquired(before[n], operator, now) == Some(after[n]);
        ClaimedStaysFree(before[n], operator, now);
      } else {
        var now: nat :| since <= now && Acquired(before[n], operator, now).None?;
        FreeIsTaken(before[n], operator, now);
      }
    } else if HolderOf(before[n]) == Some(operator) {
      ReleasedStaysFree(before[n], operator);
    }
  }

  /** What is left, on a list that names the namespace of every record there is and no other. */
  ghost predicate ListsRecords(store: RecordProtocol.Store, records: seq<string>) {
    forall n :: n in records <==> exists k :: k in store && store[k].owner.namespace == n
  }

  lemma LeftIsDoomed(store: RecordProtocol.Store, records: seq<string>, served: set<string>, n: string)
    requires ListsRecords(store, records)
    ensures Left(records, served, n) > 0 <==> n !in served && exists k :: k in store && store[k].owner.namespace == n
  {
    CountIsPresence(records, n);
  }

  /******* What a finished destruction means *******/

  /** The list the pass read names the namespace of every record there is. */
  predicate IsCurrent(store: RecordProtocol.Store, records: seq<string>) {
    forall k | k in store :: store[k].owner.namespace in records
  }

  predicate IsServed(store: RecordProtocol.Store, key: Records.Key, served: set<string>) {
    key in store && store[key].owner.namespace in served
  }

  lemma NothingLeftIsServed(store: RecordProtocol.Store, records: seq<string>, served: set<string>, key: Records.Key)
    requires IsCurrent(store, records) && key in store && Left(records, served, store[key].owner.namespace) == 0
    ensures IsServed(store, key, served)
  {
    CountIsPresence(records, store[key].owner.namespace);
  }

  /**
   Told that everything is destroyed, on a list of records that was current: every service principal
   that carries this operator's marker, live or still to appear, was issued in a namespace the account
   names.
   */
  lemma DestroyedMeansDrained(operator: NamespacedName, cluster: RecordProtocol.Cluster,
                              steps: seq<RecordProtocol.Step>, records: seq<string>, served: set<string>)
    requires IsCurrent(RecordProtocol.Run(RecordProtocol.Initial(operator, cluster), steps).store, records)
    requires forall n :: Left(records, served, n) == 0
    ensures var s := RecordProtocol.Run(RecordProtocol.Initial(operator, cluster), steps);
      && (forall id | id in s.principals && s.principals[id].marker.operator == operator ::
           var key := s.principals[id].marker.key;
           IsServed(s.store, key, served) && RecordProtocol.Made(s.flights, s.origins, key, s.store[key].uid, id))
      && (forall f | f in s.flights && s.flights[f].phase.InAir? :: IsServed(s.store, s.flights[f].marker.key, served))
  {
    RecordTheorems.NoOrphan(operator, cluster, steps);
    var s := RecordProtocol.Run(RecordProtocol.Initial(operator, cluster), steps);
    forall k | k in s.store
      ensures IsServed(s.store, k, served)
    {
      NothingLeftIsServed(s.store, records, served, k);
    }
  }

  lemma ClaimedLabelIs(before: Namespace, operator: NamespacedName, now: nat)
    ensures var claimed := Merged(before, operator, ClaimFor(operator, now));
      DESTROYING_IDENTITIES in claimed && claimed[DESTROYING_IDENTITIES].value == Text(operator.namespace)
      && ACCOUNT in claimed && claimed[ACCOUNT].value == Text(operator.name)
  {
  }

  lemma AcquiredIsMerged(before: Namespace, operator: NamespacedName, now: nat)
    ensures Acquired(before, operator, now).Some? ==>
      Acquired(before, operator, now).value == Merged(before, operator, ClaimFor(operator, now))
  {
    hide Refuses, IsStale, Merged, ClaimFor;
  }

  /** A claim that was applied makes this operator the holder. */
  lemma ClaimedIsHeld(before: Namespace, after: Namespace, operator: NamespacedName, since: nat)
    requires Claims(before, after, operator, since) && operator.namespace != ""
    ensures HolderOf(after) == Some(operator)
  {
    hide Acquired, Merged, ClaimFor;
    var now: nat :| since <= now && Acquired(before, operator, now) == Some(after);
    AcquiredIsMerged(before, operator, now);
    ClaimedLabelIs(before, operator, now);
  }

  /** A claim given back takes the label with it, where no other operator of the namespace owns it too. */
  lemma ReleasedIsLifted(before: Namespace, operator: NamespacedName)
    requires HolderOf(before) == Some(operator) && before[DESTROYING_IDENTITIES].owners == {operator}
    ensures Released(before, operator).Some? && DESTROYING_IDENTITIES !in Released(before, operator).value
  {
    var none: map<Path, Value> := map[];
    assert !Refuses(before, operator, none);
  }

  function HoldersOf(namespaces: Namespaces): map<string, Option<NamespacedName>> {
    map n | n in namespaces :: HolderOf(namespaces[n])
  }

  /** Once a pass has claimed what still holds records, those records may be destroyed. */
  lemma ClaimedMayBeDestroyedIn(before: Namespaces, after: Namespaces, cluster: RecordProtocol.Cluster,
                                operator: NamespacedName, name: string, left: nat, since: nat)
    requires before.Keys == after.Keys && cluster.holders == HoldersOf(after) && operator.namespace != "" && left > 0
    requires name in after ==> Meant(before[name], after[name], operator, left, since)
    ensures RecordProtocol.MayDestroyIn(cluster, operator, name)
  {
    if name in after {
      ClaimedIsHeld(before[name], after[name], operator, since);
    }
  }
}

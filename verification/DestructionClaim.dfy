/**
 The claim an operator puts on a namespace while it destroys the identities it issued there: one label
 and two annotations under server-side apply
 (internal/controller/databricksaccount_controller.go:709-921).
 */
module DestructionClaim {
  import opened Names
  import opened Options
  import opened ServerSideApply

  datatype Path = Label(key: string) | Annotation(key: string)

  /** A value is text, and a time written out is text that says a whole second and nothing finer. */
  datatype Value = Text(text: string) | Stamp(second: nat)

  type Namespace = map<Path, Field<Value>>

  const DESTROYING_IDENTITIES := Label("databricks.workload-identity.io/destroying-identities")
  const ACCOUNT := Annotation("databricks.workload-identity.io/destroying-identities-account")
  const SINCE := Annotation("databricks.workload-identity.io/destroying-identities-since")

  /** Time is counted in nanoseconds. */
  const SECOND: nat := 1_000_000_000

  const DESTRUCTION_CLAIM_STALE: nat := 300 * SECOND

  function ClaimFor(operator: NamespacedName, now: nat): map<Path, Value> {
    map[DESTROYING_IDENTITIES := Text(operator.namespace), ACCOUNT := Text(operator.name), SINCE := Stamp(now / SECOND)]
  }

  function TextAt(namespace: Namespace, path: Path): string {
    if path in namespace && namespace[path].value.Text? then namespace[path].value.text else ""
  }

  /** The label decides whether there is a holder at all. The annotation only completes its name. */
  function HolderOf(namespace: Namespace): Option<NamespacedName> {
    var held := TextAt(namespace, DESTROYING_IDENTITIES);
    if held == "" then None else Some(NamespacedName(held, TextAt(namespace, ACCOUNT)))
  }

  function SinceOf(namespace: Namespace): Option<nat> {
    if SINCE in namespace && namespace[SINCE].value.Stamp? then Some(namespace[SINCE].value.second) else None
  }

  /** A claim whose age cannot be read is not evidence that its holder is gone. */
  predicate IsStale(namespace: Namespace, now: nat) {
    SinceOf(namespace).Some? && now - SinceOf(namespace).value * SECOND >= DESTRUCTION_CLAIM_STALE
  }

  /** Claiming, refused or not, when nobody else moves in between. */
  function Acquired(namespace: Namespace, operator: NamespacedName, now: nat): Option<Namespace> {
    match Apply(namespace, operator, ClaimFor(operator, now), false)
    case Some(claimed) => Some(claimed)
    case None => if IsStale(namespace, now) then Apply(namespace, operator, ClaimFor(operator, now), true) else None
  }

  /** Giving back, by whoever holds it: an apply keeps only what it sends. */
  function Released(namespace: Namespace, operator: NamespacedName): Option<Namespace> {
    if HolderOf(namespace) != Some(operator) then Some(namespace)
    else Apply(namespace, operator, map[], false)
  }

  /** This operator's claim, said at this time, with nobody else's name on the label. */
  predicate HeldBy(namespace: Namespace, holder: NamespacedName, refreshed: nat) {
    && DESTROYING_IDENTITIES in namespace
    && namespace[DESTROYING_IDENTITIES] == Field(Text(holder.namespace), {holder})
    && ACCOUNT in namespace && namespace[ACCOUNT].value == Text(holder.name) && holder in namespace[ACCOUNT].owners
    && SINCE in namespace && namespace[SINCE].value == Stamp(refreshed / SECOND) && holder in namespace[SINCE].owners
  }

  predicate Matches(namespace: Namespace, holder: Option<NamespacedName>, refreshed: nat) {
    match holder
    case None => DESTROYING_IDENTITIES !in namespace
    case Some(h) => h.namespace != "" && HeldBy(namespace, h, refreshed)
  }

  lemma MatchesIsHolder(namespace: Namespace, holder: Option<NamespacedName>, refreshed: nat)
    requires Matches(namespace, holder, refreshed)
    ensures HolderOf(namespace) == holder
    ensures DESTROYING_IDENTITIES in namespace <==> holder.Some?
  {
  }

  /** What stands on a namespace nobody has written to, once it is claimed: whose it is, and since when. */
  lemma ClaimedSays(operator: NamespacedName, now: nat)
    ensures Apply(map[], operator, ClaimFor(operator, now), false) == Some(map[
      Label("databricks.workload-identity.io/destroying-identities") := Field(Text(operator.namespace), {operator}),
      Annotation("databricks.workload-identity.io/destroying-identities-account") :=
        Field(Text(operator.name), {operator}),
      Annotation("databricks.workload-identity.io/destroying-identities-since") :=
        Field(Stamp(now / 1_000_000_000), {operator})])
  {
    var none: Namespace := map[];
    var claim := ClaimFor(operator, now);
    assert !Refuses(none, operator, claim);
    assert |ACCOUNT.key| != |SINCE.key|;
    assert Merged(none, operator, claim) == map[
      DESTROYING_IDENTITIES := Field(claim[DESTROYING_IDENTITIES], {operator}),
      ACCOUNT := Field(claim[ACCOUNT], {operator}), SINCE := Field(claim[SINCE], {operator})];
  }

  /** A claim applied: the holder refreshes it, anybody takes an unheld one, and nobody else gets in. */
  lemma ApplyMatches(namespace: Namespace, holder: Option<NamespacedName>, refreshed: nat, operator: NamespacedName,
                     now: nat)
    requires Matches(namespace, holder, refreshed) && operator.namespace != ""
    requires holder.Some? && holder.value != operator ==> holder.value.namespace != operator.namespace
    ensures var applied := Apply(namespace, operator, ClaimFor(operator, now), false);
      && (applied.Some? ==> Matches(applied.value, Some(operator), now))
      && (holder == Some(operator) && namespace[SINCE].owners == {operator} ==> applied.Some?)
      && (holder.Some? && holder.value != operator ==> applied.None?)
  {
    if holder.Some? && holder.value != operator {
      assert holder.value in namespace[DESTROYING_IDENTITIES].owners - {operator};
      assert DESTROYING_IDENTITIES in ClaimFor(operator, now);
    }
  }

  lemma ForceMatches(namespace: Namespace, holder: Option<NamespacedName>, refreshed: nat, operator: NamespacedName,
                     now: nat)
    requires Matches(namespace, holder, refreshed) && operator.namespace != ""
    requires holder.Some? && holder.value != operator ==> holder.value.namespace != operator.namespace
    ensures Matches(Apply(namespace, operator, ClaimFor(operator, now), true).value, Some(operator), now)
  {
  }

  /** Letting go of everything ends this operator's own claim, and leaves another's as it is. */
  lemma LetGoMatches(namespace: Namespace, holder: Option<NamespacedName>, refreshed: nat, operator: NamespacedName)
    requires Matches(namespace, holder, refreshed)
    ensures var applied := Apply(namespace, operator, map[], false);
      applied.Some? && Matches(applied.value, if holder == Some(operator) then None else holder, refreshed)
  {
    var none: map<Path, Value> := map[];
    assert !Refuses(namespace, operator, none);
  }

  /** Another's claim refuses, on the label or, in one namespace, on the account beside it. */
  lemma OthersClaimRefuses(namespace: Namespace, holder: NamespacedName, refreshed: nat, operator: NamespacedName,
                           now: nat)
    requires Matches(namespace, Some(holder), refreshed) && holder != operator
    ensures Refuses(namespace, operator, ClaimFor(operator, now))
  {
    var key := if holder.namespace != operator.namespace then DESTROYING_IDENTITIES else ACCOUNT;
    assert holder in namespace[key].owners - {operator};
    RefusesAt(namespace, operator, ClaimFor(operator, now), key);
  }

  /**
   One pass that nobody comes between takes a claim from its holder exactly when the age, counted from
   the start of the second the holder last spoke in, has reached three hundred seconds.
   */
  lemma TakenIffStale(namespace: Namespace, holder: NamespacedName, refreshed: nat, operator: NamespacedName, now: nat)
    requires Matches(namespace, Some(holder), refreshed) && refreshed <= now
    requires holder != operator
    ensures Acquired(namespace, operator, now).Some? <==>
      now - refreshed + refreshed % 1_000_000_000 >= 300_000_000_000
    ensures Acquired(namespace, operator, now).Some? ==> now - refreshed > 299_000_000_000
    ensures now - refreshed >= 300_000_000_000 ==> Acquired(namespace, operator, now).Some?
  {
    OthersClaimRefuses(namespace, holder, refreshed, operator, now);
    assert refreshed / SECOND * SECOND + refreshed % SECOND == refreshed;
  }

  /******* What a takeover leaves behind *******/

  /**
   What is left of one operator's claim after another has taken it by force and given it back: exactly
   the keys both wrote with one value, owned by the first. "All three leave together" is not so.
   */
  lemma Residue(namespace: Namespace, holder: NamespacedName, refreshed: nat, taker: NamespacedName, now: nat)
    requires holder != taker && namespace.Keys == {DESTROYING_IDENTITIES, ACCOUNT, SINCE}
    requires forall k | k in namespace ::
      namespace[k].owners == {holder} && namespace[k].value == ClaimFor(holder, refreshed)[k]
    ensures var taken := Apply(namespace, taker, ClaimFor(taker, now), true).value;
      var left := Apply(taken, taker, map[], false).value;
      && (DESTROYING_IDENTITIES in left <==> holder.namespace == taker.namespace)
      && (ACCOUNT in left <==> holder.name == taker.name)
      && (SINCE in left <==> refreshed / SECOND == now / SECOND)
      && (forall k | k in left :: k in namespace && left[k] == namespace[k])
  {
    var claim := ClaimFor(taker, now);
    ForcedThenLetGo(namespace, taker, claim);
    var left := Apply(Apply(namespace, taker, claim, true).value, taker, map[], false).value;
    assert forall k | k in namespace :: namespace[k].owners != {taker} by {
      assert holder in {holder} && holder !in {taker};
    }
    assert forall k :: k in left <==> k in namespace && (k in claim ==> namespace[k].value == claim[k]);
  }

  /**
   Two operators of one namespace: what a takeover and a release leave is a label with no account beside
   it, so minting stays suspended and no operator there is reads the claim as its own to lift.
   */
  lemma SharedNamespaceStaysSuspended(namespace: Namespace, holder: NamespacedName, refreshed: nat,
                                      taker: NamespacedName, now: nat, anybody: NamespacedName)
    requires holder != taker && namespace.Keys == {DESTROYING_IDENTITIES, ACCOUNT, SINCE}
    requires forall k | k in namespace ::
      namespace[k].owners == {holder} && namespace[k].value == ClaimFor(holder, refreshed)[k]
    requires holder.namespace == taker.namespace && holder.namespace != "" && anybody.name != ""
    ensures var left := Apply(Apply(namespace, taker, ClaimFor(taker, now), true).value, taker, map[], false).value;
      && DESTROYING_IDENTITIES in left && HolderOf(left) == Some(NamespacedName(holder.namespace, ""))
      && Released(left, anybody) == Some(left)
  {
    Residue(namespace, holder, refreshed, taker, now);
  }

  /** An account annotation somebody owns, with nothing beside it to say how old it is. */
  predicate Leftover(namespace: Namespace, name: string) {
    && DESTROYING_IDENTITIES !in namespace && SINCE !in namespace && ACCOUNT in namespace
    && namespace[ACCOUNT].value == Text(name) && namespace[ACCOUNT].owners != {}
  }

  /** It keeps out every operator of another account name, at any time, and none of them can clear it. */
  lemma LeftoverBlocks(namespace: Namespace, name: string, operator: NamespacedName, now: nat)
    requires Leftover(namespace, name) && operator.name != name && operator !in namespace[ACCOUNT].owners
    ensures Acquired(namespace, operator, now).None?
    ensures Released(namespace, operator) == Some(namespace)
  {
    var o :| o in namespace[ACCOUNT].owners;
    assert o in namespace[ACCOUNT].owners - {operator};
    assert ACCOUNT in ClaimFor(operator, now);
  }

  /** A claim that does not say when, or says it in no time that can be read, is never taken from its holder. */
  lemma UnreadableIsNotTaken(namespace: Namespace, operator: NamespacedName, now: nat)
    requires DESTROYING_IDENTITIES in namespace && namespace[DESTROYING_IDENTITIES].owners - {operator} != {}
    requires namespace[DESTROYING_IDENTITIES].value != Text(operator.namespace)
    requires SINCE !in namespace || namespace[SINCE].value.Text?
    ensures Acquired(namespace, operator, now).None?
  {
    RefusesAt(namespace, operator, ClaimFor(operator, now), DESTROYING_IDENTITIES);
  }

  /******* When a claim is there for the taking *******/

  /** Nobody holds the namespace, or this operator does and alone. */
  predicate HeldByNobodyElse(namespace: Namespace, operator: NamespacedName) {
    DESTROYING_IDENTITIES !in namespace
    || (HolderOf(namespace) == Some(operator) && namespace[DESTROYING_IDENTITIES].owners == {operator})
  }

  /** And nobody else owns a key of the claim whose value is not what this operator would write. */
  predicate IsFree(namespace: Namespace, operator: NamespacedName) {
    && HeldByNobodyElse(namespace, operator)
    && (ACCOUNT in namespace ==>
         namespace[ACCOUNT].value == Text(operator.name) || namespace[ACCOUNT].owners <= {operator})
    && (SINCE in namespace ==> namespace[SINCE].owners <= {operator})
  }

  lemma FreeIsTaken(namespace: Namespace, operator: NamespacedName, now: nat)
    requires IsFree(namespace, operator)
    ensures !Refuses(namespace, operator, ClaimFor(operator, now))
  {
  }

  /** What somebody else owns besides stands in the way at most times, however old it grows. */
  lemma NotFreeIsRefused(namespace: Namespace, operator: NamespacedName) returns (now: nat)
    requires HeldByNobodyElse(namespace, operator) && !IsFree(namespace, operator)
    ensures Acquired(namespace, operator, now).None?
  {
    now := if SinceOf(namespace).Some? then (SinceOf(namespace).value + 1) * SECOND else 0;
    var key := if SINCE in namespace && !(namespace[SINCE].owners <= {operator}) then SINCE else ACCOUNT;
    var other :| other in namespace[key].owners && other != operator;
    assert other in namespace[key].owners - {operator};
    assert now / SECOND == (if SinceOf(namespace).Some? then SinceOf(namespace).value + 1 else 0);
    RefusesAt(namespace, operator, ClaimFor(operator, now), key);
  }

  /**
   A namespace nobody else holds can be claimed whenever it is asked for exactly when nobody else owns an
   account of another name or a time beside the label. At one time, it can where that is so or what stands
   there is past the threshold.
   */
  lemma ClaimableIffFree(namespace: Namespace, operator: NamespacedName)
    requires HeldByNobodyElse(namespace, operator)
    ensures (forall now: nat :: Acquired(namespace, operator, now).Some?) <==> IsFree(namespace, operator)
    ensures forall now: nat ::
      Acquired(namespace, operator, now).Some? <==>
        !Refuses(namespace, operator, ClaimFor(operator, now)) || IsStale(namespace, now)
  {
    if IsFree(namespace, operator) {
      forall now: nat
        ensures Acquired(namespace, operator, now).Some?
      {
        FreeIsTaken(namespace, operator, now);
      }
    } else {
      var now := NotFreeIsRefused(namespace, operator);
    }
  }

  /** Claimed while it was free, it is this operator's alone and still free to it. */
  lemma ClaimedStaysFree(namespace: Namespace, operator: NamespacedName, now: nat)
    requires IsFree(namespace, operator) && operator.namespace != ""
    ensures var claim := Acquired(namespace, operator, now);
      claim.Some? && HolderOf(claim.value) == Some(operator) && IsFree(claim.value, operator)
  {
    FreeIsTaken(namespace, operator, now);
  }

  /** Given back, it carries no label and is still free. */
  lemma ReleasedStaysFree(namespace: Namespace, operator: NamespacedName)
    requires IsFree(namespace, operator) && HolderOf(namespace) == Some(operator)
    ensures var released := Released(namespace, operator);
      released.Some? && DESTROYING_IDENTITIES !in released.value && IsFree(released.value, operator)
  {
    var none: map<Path, Value> := map[];
    assert !Refuses(namespace, operator, none);
  }
}

/**
 The destruction claim on one namespace, over any interleaving of any operators' passes
 (internal/controller/databricksaccount_controller.go:768-864).

 A claim is applied; a refused one reads the Namespace again, from a cache that may show any version
 there ever was, and forces if what it read is stale. A release reads before it applies. Between any
 two of these calls other operators make theirs, and an operator may stop anywhere.
 */
module ClaimRuns {
  import opened Names
  import opened Options
  import opened ServerSideApply
  import opened DestructionClaim

  datatype At = Resting | Refused | Forcing | Releasing

  /** holder and refreshed are history: whose claim last succeeded and was not given back, and when. */
  datatype State = State(
    namespace: Option<Namespace>,
    past: set<Namespace>,
    clock: nat,
    at: map<NamespacedName, At>,
    holder: Option<NamespacedName>,
    refreshed: nat)

  datatype Step =
    | Tick(elapsed: nat)
    | Created
    | Deleted
    | Applies(operator: NamespacedName)
    | Reads(operator: NamespacedName, seen: Namespace)
    | Forces(operator: NamespacedName)
    | Looks(operator: NamespacedName, seen: Namespace)
    | Releases(operator: NamespacedName)
    | Stops(operator: NamespacedName)

  predicate IsOperators(operators: set<NamespacedName>) {
    && (forall o | o in operators :: o.namespace != "")
    && (forall o, p | o in operators && p in operators && o.namespace == p.namespace :: o == p)
  }

  function AtOf(s: State, operator: NamespacedName): At {
    if operator in s.at then s.at[operator] else Resting
  }

  function Go(s: State, operator: NamespacedName, at: At): State {
    s.(at := s.at[operator := at])
  }

  function Store(s: State, namespace: Namespace): State {
    s.(namespace := Some(namespace), past := s.past + {namespace})
  }

  function Claimed(s: State, operator: NamespacedName, namespace: Namespace): State {
    Go(Store(s, namespace), operator, Resting).(holder := Some(operator), refreshed := s.clock)
  }

  function ApplyClaim(s: State, operator: NamespacedName): State {
    if s.namespace.None? then s
    else match Apply(s.namespace.value, operator, ClaimFor(operator, s.clock), false)
      case Some(namespace) => Claimed(s, operator, namespace)
      case None => Go(s, operator, Refused)
  }

  function ForceClaim(s: State, operator: NamespacedName): State {
    if s.namespace.None? then Go(s, operator, Resting)
    else Claimed(s, operator, Apply(s.namespace.value, operator, ClaimFor(operator, s.clock), true).value)
  }

  function Release(s: State, operator: NamespacedName): State {
    if s.namespace.None? then Go(s, operator, Resting)
    else match Apply(s.namespace.value, operator, map[], false)
      case Some(namespace) =>
        Go(Store(s, namespace), operator, Resting).(holder := if s.holder == Some(operator) then None else s.holder)
      case None => Go(s, operator, Resting)
  }

  function Next(s: State, step: Step): State {
    match step
    case Tick(elapsed) => s.(clock := s.clock + elapsed)
    case Created => if s.namespace.None? then Store(s, map[]) else s
    case Deleted => s.(namespace := None, holder := None)
    case Applies(o) => if AtOf(s, o).Resting? then ApplyClaim(s, o) else s
    case Reads(o, seen) =>
      if AtOf(s, o).Refused? && seen in s.past then Go(s, o, if IsStale(seen, s.clock) then Forcing else Resting) else s
    case Forces(o) => if AtOf(s, o).Forcing? then ForceClaim(s, o) else s
    case Looks(o, seen) =>
      if AtOf(s, o).Resting? && seen in s.past && HolderOf(seen) == Some(o) then Go(s, o, Releasing) else s
    case Releases(o) => if AtOf(s, o).Releasing? then Release(s, o) else s
    case Stops(o) => Go(s, o, Resting)
  }

  function Run(s: State, steps: seq<Step>): State
    decreases |steps|
  {
    if steps == [] then s else Next(Run(s, steps[..|steps| - 1]), steps[|steps| - 1])
  }

  const INITIAL := State(None, {}, 0, map[], None, 0)

  /** Every step that is an operator's is one of these operators'. */
  predicate Among(operators: set<NamespacedName>, steps: seq<Step>) {
    forall i | 0 <= i < |steps| :: OneOf(operators, steps[i])
  }

  predicate OneOf(operators: set<NamespacedName>, step: Step) {
    step.Tick? || step.Created? || step.Deleted? || step.operator in operators
  }

  predicate Inv(operators: set<NamespacedName>, s: State) {
    && s.refreshed <= s.clock
    && (s.holder.Some? ==> s.holder.value in operators && s.namespace.Some?)
    && (s.namespace.Some? ==> s.namespace.value in s.past && Matches(s.namespace.value, s.holder, s.refreshed))
  }

  lemma NextKeeps(operators: set<NamespacedName>, s: State, step: Step)
    requires IsOperators(operators) && Inv(operators, s) && OneOf(operators, step)
    ensures Inv(operators, Next(s, step))
  {
    if s.namespace.Some? && !step.Tick? && !step.Created? && !step.Deleted? {
      ApplyMatches(s.namespace.value, s.holder, s.refreshed, step.operator, s.clock);
      ForceMatches(s.namespace.value, s.holder, s.refreshed, step.operator, s.clock);
      LetGoMatches(s.namespace.value, s.holder, s.refreshed, step.operator);
    }
  }

  lemma {:induction false} RunKeeps(operators: set<NamespacedName>, s: State, steps: seq<Step>)
    requires IsOperators(operators) && Inv(operators, s) && Among(operators, steps)
    ensures Inv(operators, Run(s, steps))
    decreases |steps|
  {
    if steps != [] {
      RunKeeps(operators, s, steps[..|steps| - 1]);
      NextKeeps(operators, Run(s, steps[..|steps| - 1]), steps[|steps| - 1]);
    }
  }

  /**
   For operators in namespaces of their own, whatever is read stale and whoever stops: the label is there
   exactly while somebody's claim stands, and the holder anybody reads is the operator whose claim last
   succeeded.
   */
  lemma HolderIsWhoeverClaimedLast(operators: set<NamespacedName>, steps: seq<Step>)
    requires IsOperators(operators) && Among(operators, steps)
    ensures var s := Run(INITIAL, steps);
      && (s.namespace.None? ==> s.holder.None?)
      && (s.namespace.Some? ==>
           HolderOf(s.namespace.value) == s.holder
           && (DESTROYING_IDENTITIES in s.namespace.value <==> s.holder.Some?))
  {
    RunKeeps(operators, INITIAL, steps);
    var s := Run(INITIAL, steps);
    if s.namespace.Some? {
      MatchesIsHolder(s.namespace.value, s.holder, s.refreshed);
    }
  }

  /** The claim leaves a holder only by its own release, by the namespace going, or by force. */
  lemma OnlyReleaseOrForce(operators: set<NamespacedName>, s: State, step: Step)
    requires IsOperators(operators) && Inv(operators, s) && OneOf(operators, step)
    requires s.holder.Some? && Next(s, step).holder != s.holder
    ensures step == Releases(s.holder.value) || step == Deleted
      || (step.Forces? && AtOf(s, step.operator).Forcing? && Next(s, step).holder == Some(step.operator))
  {
    if s.namespace.Some? && step.Applies? {
      ApplyMatches(s.namespace.value, s.holder, s.refreshed, step.operator, s.clock);
    }
  }

  /** Where and what an operator read before it came to force, and that it has done nothing else since. */
  ghost predicate CameToForce(steps: seq<Step>, operator: NamespacedName, i: nat) {
    && i < |steps| && steps[i].Reads? && steps[i].operator == operator
    && steps[i].seen in Run(INITIAL, steps[..i]).past && IsStale(steps[i].seen, Run(INITIAL, steps[..i]).clock)
    && forall j | i < j <= |steps| :: AtOf(Run(INITIAL, steps[..j]), operator).Forcing?
  }

  lemma {:induction false} ForcingHasRead(steps: seq<Step>, operator: NamespacedName) returns (i: nat)
    requires AtOf(Run(INITIAL, steps), operator).Forcing?
    ensures CameToForce(steps, operator, i) && Run(INITIAL, steps[..i]).clock <= Run(INITIAL, steps).clock
    decreases |steps|
  {
    var before, last := steps[..|steps| - 1], steps[|steps| - 1];
    assert forall j | 0 <= j <= |before| :: before[..j] == steps[..j];
    assert steps[..|steps|] == steps;
    if AtOf(Run(INITIAL, before), operator).Forcing? {
      i := ForcingHasRead(before, operator);
      assert steps[..i] == before[..i];
    } else {
      i := |steps| - 1;
    }
  }

  /**
   In every run, a claim goes from one operator to another only by force, by an operator that read a
   version of it past the threshold and has waited to force ever since. What it takes has been silent that
   long exactly when the namespace itself is stale as it forces; so it is, if the holder has not spoken in
   a later second than that version says.
   */
  lemma HandsChangeByForce(operators: set<NamespacedName>, steps: seq<Step>, step: Step)
    requires IsOperators(operators) && Among(operators, steps) && OneOf(operators, step)
    requires var s := Run(INITIAL, steps);
      s.holder.Some? && Next(s, step).holder.Some? && Next(s, step).holder != s.holder
    ensures var s := Run(INITIAL, steps);
      && step.Forces? && Next(s, step).holder == Some(step.operator) && s.namespace.Some?
      && (IsStale(s.namespace.value, s.clock) <==>
           s.clock - s.refreshed + s.refreshed % 1_000_000_000 >= 300_000_000_000)
      && exists i: nat :: CameToForce(steps, step.operator, i)
           && (SinceOf(s.namespace.value) == SinceOf(steps[i].seen) ==>
                IsStale(s.namespace.value, s.clock) && s.clock - s.refreshed > 299_000_000_000)
           && (!IsStale(s.namespace.value, s.clock) ==> SinceOf(steps[i].seen).value < s.refreshed / SECOND)
  {
    RunKeeps(operators, INITIAL, steps);
    var s := Run(INITIAL, steps);
    OnlyReleaseOrForce(operators, s, step);
    assert s.refreshed / SECOND * SECOND + s.refreshed % SECOND == s.refreshed;
    var i := ForcingHasRead(steps, step.operator);
  }

  /** A release decided on an old reading still ends nobody's claim but the releaser's own. */
  lemma ReleaseEndsOnlyItsOwn(operators: set<NamespacedName>, s: State, operator: NamespacedName)
    requires IsOperators(operators) && Inv(operators, s) && s.holder != Some(operator)
    ensures Next(s, Releases(operator)).holder == s.holder
    ensures s.namespace.Some? ==>
      Next(s, Releases(operator)).namespace.Some? && HolderOf(Next(s, Releases(operator)).namespace.value) == s.holder
  {
    if s.namespace.Some? {
      LetGoMatches(s.namespace.value, s.holder, s.refreshed, operator);
      MatchesIsHolder(s.namespace.value, s.holder, s.refreshed);
    }
  }

  /** One pass of an operator with nobody in between is what DestructionClaim.Acquired says it is. */
  lemma UndisturbedPassIsAcquired(s: State, operator: NamespacedName)
    requires s.namespace.Some? && s.namespace.value in s.past && AtOf(s, operator).Resting?
    ensures var t := Run(s, [Applies(operator), Reads(operator, s.namespace.value), Forces(operator)]);
      t.clock == s.clock && match Acquired(s.namespace.value, operator, s.clock)
      case Some(namespace) => t.namespace == Some(namespace) && t.holder == Some(operator) && t.refreshed == s.clock
      case None => t.namespace == s.namespace && t.holder == s.holder && t.refreshed == s.refreshed
  {
    ThreeSteps(s, Applies(operator), Reads(operator, s.namespace.value), Forces(operator));
  }

  lemma ThreeSteps(s: State, a: Step, b: Step, c: Step)
    ensures Run(s, [a, b, c]) == Next(Next(Next(s, a), b), c)
  {
    assert [a, b, c][..2] == [a, b] && [a, b][..1] == [a] && [a][..0] == [];
    assert Run(s, [a]) == Next(s, a);
    assert Run(s, [a, b]) == Next(Run(s, [a]), b);
  }

  /******* Who comes back in time *******/

  /** Every read of the Namespace shows it as it is. */
  predicate ReadsAreCurrent(steps: seq<Step>) {
    forall i | 0 <= i < |steps| && steps[i].Reads? :: Run(INITIAL, steps[..i]).namespace == Some(steps[i].seen)
  }

  /** A force that is due comes right after the read that decided it. */
  predicate ForcesAtOnce(steps: seq<Step>) {
    forall i | 0 <= i < |steps| && steps[i].Forces? && AtOf(Run(INITIAL, steps[..i]), steps[i].operator).Forcing? ::
      && i > 0 && steps[i - 1].Reads? && steps[i - 1].operator == steps[i].operator
      && AtOf(Run(INITIAL, steps[..i - 1]), steps[i].operator).Refused?
  }

  /** While it holds the claim, this operator is never longer silent than 299 seconds. */
  predicate ComesBack(steps: seq<Step>, holder: NamespacedName) {
    forall i | 0 <= i <= |steps| && Run(INITIAL, steps[..i]).holder == Some(holder) ::
      Run(INITIAL, steps[..i]).clock - Run(INITIAL, steps[..i]).refreshed <= 299_000_000_000
  }

  /** A force that follows its read at once takes only what was 300 seconds old, whole seconds counted. */
  lemma ForcedWasOld(operators: set<NamespacedName>, steps: seq<Step>, i: nat)
    requires IsOperators(operators) && Among(operators, steps) && ReadsAreCurrent(steps) && ForcesAtOnce(steps)
    requires i < |steps| && steps[i].Forces? && AtOf(Run(INITIAL, steps[..i]), steps[i].operator).Forcing?
    requires Run(INITIAL, steps[..i]).holder.Some?
    ensures var s := Run(INITIAL, steps[..i]); s.clock - s.refreshed > 299_000_000_000
  {
    var before := Run(INITIAL, steps[..i - 1]);
    assert steps[..i][..i - 1] == steps[..i - 1];
    assert Run(INITIAL, steps[..i]) == Next(before, steps[i - 1]);
    RunKeeps(operators, INITIAL, steps[..i - 1]);
    assert before.refreshed / SECOND * SECOND + before.refreshed % SECOND == before.refreshed;
  }

  /**
   Where reads show the Namespace as it is and a force follows its read at once, an operator that is never
   silent for more than 299 seconds loses its claim only by giving it back or with the namespace. One
   nanosecond more and it can lose it (TakenEarly).
   */
  lemma PunctualIsNeverForcedOut(operators: set<NamespacedName>, steps: seq<Step>, holder: NamespacedName, i: nat)
    requires IsOperators(operators) && Among(operators, steps) && ReadsAreCurrent(steps) && ForcesAtOnce(steps)
    requires ComesBack(steps, holder) && i < |steps|
    requires Run(INITIAL, steps[..i]).holder == Some(holder) && Run(INITIAL, steps[..i + 1]).holder != Some(holder)
    ensures steps[i] == Releases(holder) || steps[i] == Deleted
  {
    assert steps[..i + 1][..i] == steps[..i];
    RunKeeps(operators, INITIAL, steps[..i]);
    OnlyReleaseOrForce(operators, Run(INITIAL, steps[..i]), steps[i]);
    if steps[i].Forces? {
      ForcedWasOld(operators, steps, i);
    }
  }

  /** And one that has been silent for 300 seconds is taken over by the next pass of any other operator. */
  lemma SilentIsTaken(operators: set<NamespacedName>, steps: seq<Step>, operator: NamespacedName, seen: Namespace)
    requires IsOperators(operators) && Among(operators, steps) && operator in operators
    requires var s := Run(INITIAL, steps);
      && s.holder.Some? && s.holder != Some(operator) && s.clock - s.refreshed >= 300_000_000_000
      && AtOf(s, operator).Resting? && s.namespace == Some(seen)
    ensures Run(INITIAL, steps + [Applies(operator), Reads(operator, seen), Forces(operator)]).holder == Some(operator)
  {
    var s := Run(INITIAL, steps);
    var pass := [Applies(operator), Reads(operator, seen), Forces(operator)];
    RunKeeps(operators, INITIAL, steps);
    TakenIffStale(seen, s.holder.value, s.refreshed, operator, s.clock);
    UndisturbedPassIsAcquired(s, operator);
    ThreeSteps(s, pass[0], pass[1], pass[2]);
    assert (steps + pass)[..|steps| + 2] == steps + [pass[0]] + [pass[1]];
    RunMore(steps, pass[0]);
    RunMore(steps + [pass[0]], pass[1]);
    RunMore(steps + [pass[0]] + [pass[1]], pass[2]);
    assert steps + pass == steps + [pass[0]] + [pass[1]] + [pass[2]];
  }

  /** The stamp is cut to whole seconds, so a claim can be taken before its holder has been silent that long. */
  lemma TakenEarly()
    ensures var a, b := NamespacedName("first", "x"), NamespacedName("second", "x");
      var s := Next(Next(Next(Next(INITIAL, Created), Tick(999_999_999)), Applies(a)),
                    Tick(299_000_000_001));
      var t := Run(s, [Applies(b), Reads(b, s.namespace.value), Forces(b)]);
      s.holder == Some(a) && t.holder == Some(b) && t.clock - s.refreshed == 299_000_000_001
  {
    var a, b := NamespacedName("first", "x"), NamespacedName("second", "x");
    var claimed := Next(Next(Next(INITIAL, Created), Tick(999_999_999)), Applies(a));
    var s := Next(claimed, Tick(299_000_000_001));
    NextKeeps({a, b}, INITIAL, Created);
    NextKeeps({a, b}, Next(INITIAL, Created), Tick(999_999_999));
    NextKeeps({a, b}, Next(Next(INITIAL, Created), Tick(999_999_999)), Applies(a));
    assert claimed.holder == Some(a) && claimed.refreshed == 999_999_999;
    NextKeeps({a, b}, claimed, Tick(299_000_000_001));
    TakenIffStale(s.namespace.value, a, s.refreshed, b, s.clock);
    UndisturbedPassIsAcquired(s, b);
  }

  /**
   The read and the force are two calls. A holder that refreshes in between loses the claim it has just
   said again that it wants.
   */
  lemma RefreshedAndTaken(operators: set<NamespacedName>, s: State, holder: NamespacedName, taker: NamespacedName)
    requires IsOperators(operators) && Inv(operators, s) && holder in operators && taker in operators && holder != taker
    requires s.holder == Some(holder) && AtOf(s, holder).Resting? && AtOf(s, taker).Forcing?
    requires s.namespace.value[SINCE].owners == {holder}
    ensures var refreshed := Next(s, Applies(holder));
      && refreshed.holder == Some(holder) && refreshed.refreshed == s.clock
      && Next(refreshed, Forces(taker)).holder == Some(taker)
  {
    ApplyMatches(s.namespace.value, s.holder, s.refreshed, holder, s.clock);
    assert AtOf(Next(s, Applies(holder)), taker).Forcing?;
  }

  /** A version that an old cache still shows is forced over, though its holder has spoken this very moment. */
  lemma StaleReadTakes(operators: set<NamespacedName>, s: State, holder: NamespacedName, taker: NamespacedName,
                       seen: Namespace)
    requires IsOperators(operators) && Inv(operators, s) && holder in operators && taker in operators && holder != taker
    requires s.holder == Some(holder) && AtOf(s, taker).Refused? && seen in s.past && IsStale(seen, s.clock)
    ensures Next(Next(s, Reads(taker, seen)), Forces(taker)).holder == Some(taker)
  {
  }

  lemma RunMore(steps: seq<Step>, last: Step)
    ensures Run(INITIAL, steps + [last]) == Next(Run(INITIAL, steps), last)
  {
    assert (steps + [last])[..|steps|] == steps;
  }

  /** One operator claims, and five minutes pass. */
  lemma ClaimedAndSilent(a: NamespacedName) returns (steps: seq<Step>)
    requires a.namespace != ""
    ensures Among({a}, steps)
    ensures var s := Run(INITIAL, steps);
      && s.holder == Some(a) && s.refreshed == 0 && s.clock == DESTRUCTION_CLAIM_STALE && s.namespace.Some?
      && s.namespace.value in s.past && Matches(s.namespace.value, s.holder, s.refreshed)
      && s.namespace.value[SINCE].owners == {a}
      && forall o :: AtOf(s, o).Resting?
  {
    RunMore([], Created);
    RunMore([] + [Created], Applies(a));
    RunMore([] + [Created] + [Applies(a)], Tick(DESTRUCTION_CLAIM_STALE));
    steps := [] + [Created] + [Applies(a)] + [Tick(DESTRUCTION_CLAIM_STALE)];
    ApplyMatches(map[], None, 0, a, 0);
  }

  lemma HolderRefreshes(s: State, a: NamespacedName)
    requires s.namespace.Some? && a.namespace != "" && s.holder == Some(a)
      && Matches(s.namespace.value, s.holder, s.refreshed)
    requires s.namespace.value[SINCE].owners == {a} && AtOf(s, a).Resting?
    ensures var t := Next(s, Applies(a));
      && t == Claimed(s, a, t.namespace.value) && Matches(t.namespace.value, Some(a), s.clock)
      && (forall o | o != a :: AtOf(t, o) == AtOf(s, o)) && AtOf(t, a).Resting?
  {
    ApplyMatches(s.namespace.value, s.holder, s.refreshed, a, s.clock);
  }

  lemma OtherIsRefused(s: State, a: NamespacedName, b: NamespacedName)
    requires s.namespace.Some? && s.holder == Some(a) && Matches(s.namespace.value, s.holder, s.refreshed)
    requires a != b && AtOf(s, b).Resting?
    ensures Next(s, Applies(b)) == Go(s, b, Refused)
  {
    OthersClaimRefuses(s.namespace.value, a, s.refreshed, b, s.clock);
  }

  /** And then it says again that it wants the claim. */
  lemma ClaimedAndRefreshed(a: NamespacedName) returns (steps: seq<Step>, first: Namespace)
    requires a.namespace != ""
    ensures Among({a}, steps)
    ensures var s := Run(INITIAL, steps);
      && s.holder == Some(a) && s.refreshed == s.clock == DESTRUCTION_CLAIM_STALE && s.namespace.Some?
      && Matches(s.namespace.value, s.holder, s.refreshed)
      && first in s.past && IsStale(first, s.clock) && SinceOf(first) == Some(0)
      && forall o :: AtOf(s, o).Resting?
  {
    var before := ClaimedAndSilent(a);
    var s := Run(INITIAL, before);
    first := s.namespace.value;
    RunMore(before, Applies(a));
    steps := before + [Applies(a)];
    HolderRefreshes(s, a);
  }

  /** And with that, another operator whose cache shows the first version takes it the same moment. */
  lemma RefreshedBeforeTheRead(a: NamespacedName, b: NamespacedName) returns (steps: seq<Step>)
    requires a.namespace != "" && b.namespace != "" && a.namespace != b.namespace
    ensures var s := Run(INITIAL, steps);
      && Among({a, b}, steps) && s.holder == Some(a) && s.refreshed == s.clock
      && Next(s, Forces(b)).holder == Some(b)
  {
    var refreshed, first := ClaimedAndRefreshed(a);
    RunMore(refreshed, Applies(b));
    RunMore(refreshed + [Applies(b)], Reads(b, first));
    steps := refreshed + [Applies(b)] + [Reads(b, first)];
    OtherIsRefused(Run(INITIAL, refreshed), a, b);
  }

  /** A taker may come to force first, and its holder speak then, with the same outcome. */
  lemma RefreshedAfterTheRead(a: NamespacedName, b: NamespacedName) returns (steps: seq<Step>)
    requires a.namespace != "" && b.namespace != "" && a.namespace != b.namespace
    ensures var s := Run(INITIAL, steps);
      && Among({a, b}, steps) && s.holder == Some(a) && s.refreshed == s.clock && AtOf(s, b).Forcing?
      && Next(s, Forces(b)).holder == Some(b)
  {
    var before := ClaimedAndSilent(a);
    var s := Run(INITIAL, before);
    var first := s.namespace.value;
    RunMore(before, Applies(b));
    RunMore(before + [Applies(b)], Reads(b, first));
    RunMore(before + [Applies(b)] + [Reads(b, first)], Applies(a));
    steps := before + [Applies(b)] + [Reads(b, first)] + [Applies(a)];
    assert AtOf(s, a).Resting? && AtOf(s, b).Resting?;
    OtherIsRefused(s, a, b);
    HolderRefreshes(Run(INITIAL, before + [Applies(b)] + [Reads(b, first)]), a);
  }

  /**
   That a holder has spoken since does not by itself make a takeover early: it may have been silent for
   long again, and the taker still read the version before.
   */
  lemma RefreshedYetSilent(a: NamespacedName, b: NamespacedName) returns (steps: seq<Step>, first: Namespace)
    requires a.namespace != "" && b.namespace != "" && a.namespace != b.namespace
    ensures var s := Run(INITIAL, steps);
      && Among({a, b}, steps) && |steps| > 0 && steps[|steps| - 1] == Reads(b, first) && s.holder == Some(a)
      && s.namespace.Some?
      && SinceOf(first).Some? && SinceOf(first).value < s.refreshed / SECOND
      && s.clock - s.refreshed == DESTRUCTION_CLAIM_STALE && Next(s, Forces(b)).holder == Some(b)
  {
    var refreshed, before := ClaimedAndRefreshed(a);
    first := before;
    var silent := refreshed + [Tick(DESTRUCTION_CLAIM_STALE)];
    RunMore(refreshed, Tick(DESTRUCTION_CLAIM_STALE));
    RunMore(silent, Applies(b));
    RunMore(silent + [Applies(b)], Reads(b, first));
    steps := silent + [Applies(b)] + [Reads(b, first)];
    assert AtOf(Run(INITIAL, refreshed), b).Resting? && AtOf(Run(INITIAL, silent), b).Resting?;
    OtherIsRefused(Run(INITIAL, silent), a, b);
  }

  /** An operator of another name than the annotation's, and not one that owns it. */
  predicate Stranger(namespace: Namespace, name: string, operator: NamespacedName) {
    operator.name != name && (ACCOUNT in namespace ==> operator !in namespace[ACCOUNT].owners)
  }

  /**
   The annotation a takeover between two accounts of one name leaves keeps every stranger out for good:
   however long it waits and whatever its passes read of it, the namespace stays as it is and nobody
   holds it.
   */
  lemma {:induction false} StrangersWaitForGood(s: State, name: string, steps: seq<Step>)
    requires s.namespace.Some? && Leftover(s.namespace.value, name)
    requires forall o :: AtOf(s, o).Resting?
    requires forall i | 0 <= i < |steps| ::
      steps[i].Tick? || steps[i].Created?
      || (!steps[i].Deleted? && Stranger(s.namespace.value, name, steps[i].operator)
          && (steps[i].Reads? || steps[i].Looks? ==> steps[i].seen == s.namespace.value))
    ensures var t := Run(s, steps); t.namespace == s.namespace && t.holder == s.holder
    ensures forall o :: AtOf(Run(s, steps), o).Resting? || AtOf(Run(s, steps), o).Refused?
    decreases |steps|
  {
    if steps != [] {
      var m, last := Run(s, steps[..|steps| - 1]), steps[|steps| - 1];
      StrangersWaitForGood(s, name, steps[..|steps| - 1]);
      if last.Applies? {
        LeftoverBlocks(s.namespace.value, name, last.operator, m.clock);
      }
      assert HolderOf(s.namespace.value).None? && SinceOf(s.namespace.value).None?;
      forall o
        ensures AtOf(Next(m, last), o).Resting? || AtOf(Next(m, last), o).Refused?
      {
        assert AtOf(m, o).Resting? || AtOf(m, o).Refused?;
      }
    }
  }

  /** How such an annotation comes about: the holder is taken over in another second, and the taker finishes. */
  lemma SameNameLeavesLeftover(namespace: Namespace, holder: NamespacedName, refreshed: nat, taker: NamespacedName,
                               now: nat)
    requires namespace.Keys == {DESTROYING_IDENTITIES, ACCOUNT, SINCE}
    requires forall k | k in namespace ::
      namespace[k].owners == {holder} && namespace[k].value == ClaimFor(holder, refreshed)[k]
    requires holder.namespace != taker.namespace && refreshed / SECOND != now / SECOND
    ensures var left := Apply(Apply(namespace, taker, ClaimFor(taker, now), true).value, taker, map[], false).value;
      if holder.name == taker.name then Leftover(left, holder.name) && left[ACCOUNT].owners == {holder}
      else left == map[]
  {
    Residue(namespace, holder, refreshed, taker, now);
  }
}

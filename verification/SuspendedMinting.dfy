/**
 The claim stops minting, for every operator, while one of them destroys
 (internal/controller/databricksserviceaccount_controller.go:127-161, 243-249, 864-876).

 A ServiceAccount's pass reads the account, reads the Namespace, and makes the records it finds asked
 for and missing. The account may be read as old as any cache holds it. What counts is how old the
 Namespace it reads is.
 */
module SuspendedMinting {
  import opened Names
  import opened Options
  import opened Records
  import opened DestructionClaim
  import opened RecordProtocol
  import RecordRuns
  import RecordTheorems
  import ClaimRuns
  import DestructionEnds

  /** One namespace: who is destroying there, and the records of one operator, there and anywhere else. */
  datatype Place = Place(name: string, claim: ClaimRuns.State, records: RecordProtocol.State)

  datatype Event =
    | Claims(claim: ClaimRuns.Step)
    | Moves(step: RecordProtocol.Step)
    | Issues(key: Key, owner: NamespacedName, finalizer: bool, seen: Namespace, open: bool, declaredAndServed: bool)

  /** Permission, while nobody is destroying. */
  predicate Mints(namespace: Namespace, open: bool) {
    DESTROYING_IDENTITIES !in namespace && open
  }

  /** A record of this namespace is made only where the pass that makes it read that it may. */
  function After(p: Place, event: Event): Place {
    match event
    case Claims(claim) => p.(claim := ClaimRuns.Next(p.claim, claim))
    case Moves(step) =>
      if step.CreateRecord? && step.owner.namespace == p.name then p else p.(records := Next(p.records, step))
    case Issues(key, owner, finalizer, seen, open, declaredAndServed) =>
      if owner.namespace == p.name && seen in p.claim.past && Mints(seen, open) && declaredAndServed
      then p.(records := Next(p.records, CreateRecord(key, owner, finalizer))) else p
  }

  function AfterAll(p: Place, events: seq<Event>): Place
    decreases |events|
  {
    if events == [] then p else After(AfterAll(p, events[..|events| - 1]), events[|events| - 1])
  }

  predicate Among(operators: set<NamespacedName>, events: seq<Event>) {
    forall i | 0 <= i < |events| && events[i].Claims? :: ClaimRuns.OneOf(operators, events[i].claim)
  }

  /** Every pass read the Namespace as it was when it made its record. */
  ghost predicate ReadsAreCurrent(p: Place, events: seq<Event>) {
    forall i | 0 <= i < |events| && events[i].Issues? ::
      AfterAll(p, events[..i]).claim.namespace == Some(events[i].seen)
  }

  /** Somebody is destroying throughout, whoever it is. */
  ghost predicate HeldThroughout(p: Place, events: seq<Event>) {
    forall i | 0 <= i < |events| :: AfterAll(p, events[..i]).claim.holder.Some?
  }

  ghost predicate Sound(operators: set<NamespacedName>, p: Place) {
    ClaimRuns.IsOperators(operators) && ClaimRuns.Inv(operators, p.claim) && Inv(p.records)
  }

  lemma EventKeeps(operators: set<NamespacedName>, p: Place, event: Event)
    requires Sound(operators, p) && (event.Claims? ==> ClaimRuns.OneOf(operators, event.claim))
    ensures Sound(operators, After(p, event)) && After(p, event).name == p.name
  {
    hide Inv, Next, ClaimRuns.Inv, ClaimRuns.Next, ClaimRuns.IsOperators, Mints;
    match event
    case Claims(claim) => ClaimRuns.NextKeeps(operators, p.claim, claim);
    case Moves(step) => RecordTheorems.NextKeeps(p.records, step);
    case Issues(key, owner, finalizer, _, _, _) =>
      RecordTheorems.NextKeeps(p.records, CreateRecord(key, owner, finalizer));
  }

  /** How far a record of this namespace is from gone. */
  function LeftOf(p: Place, key: Key): nat {
    if key in p.records.store && p.records.store[key].owner.namespace == p.name
    then DestructionEnds.Distance(p.records, key) else 0
  }

  /** No record of the namespace was added or made again, none is further from gone, and none lost what it had. */
  ghost predicate NoFurther(p: Place, q: Place) {
    forall k | k in q.records.store && q.records.store[k].owner.namespace == q.name ::
      && k in p.records.store && p.records.store[k].uid == q.records.store[k].uid
      && p.records.store[k].owner == q.records.store[k].owner
      && Advances(p.records.store[k].status, q.records.store[k].status)
      && LeftOf(q, k) <= LeftOf(p, k)
  }

  lemma AllKeyed(s: State)
    requires Inv(s)
    ensures forall k | k in s.store :: s.store[k].key == k
  {
  }

  /** What is stored under a name after a step is what was, or was just made. */
  lemma StepMakesOnlyByCreate(s: State, step: Step, k: Key)
    requires Inv(s) && k in Next(s, step).store
    ensures k in s.store || (step.CreateRecord? && step.key == k && Next(s, step).store[k].owner == step.owner)
    ensures k in s.store ==> Next(s, step).store[k].uid == s.store[k].uid
  {
    hide Inv, Advance;
    AllKeyed(s);
    if step.Call? {
      if PassOf(s, step.worker).Running? {
        RecordTheorems.CallKeepsUids(s, step.worker, PassOf(s, step.worker), step.answer);
      }
    } else if !step.CreateRecord? && !step.DeleteRecord? {
      RecordTheorems.OthersLeaveStore(s, step);
    }
  }

  lemma StepKeepsOwner(s: State, step: Step, k: Key)
    requires Inv(s) && k in s.store && k in Next(s, step).store && Next(s, step).store[k].uid == s.store[k].uid
    ensures Next(s, step).store[k].owner == s.store[k].owner
  {
    RecordTheorems.NextKeeps(s, step);
    hide Next, Entitled, Covered, Relying, Fitting, Written, Traced, Flown;
    assert s.store[k] in s.past && Next(s, step).store[k] in Next(s, step).past;
  }

  lemma StepIsNoFurther(s: State, step: Step, k: Key)
    requires Inv(s) && k in s.store && k in Next(s, step).store
    ensures var r, q := s.store[k], Next(s, step).store[k];
      && r.uid == q.uid && r.owner == q.owner && Advances(r.status, q.status)
      && DestructionEnds.Distance(Next(s, step), k) <= DestructionEnds.Distance(s, k)
  {
    hide Inv, Next, Advances;
    StepMakesOnlyByCreate(s, step, k);
    StepKeepsOwner(s, step, k);
    RecordTheorems.StepGrows(s, step, k);
    AllKeyed(s);
  }

  /** While anybody destroys, one event adds nothing here and sets nothing here back. */
  lemma EventIsNoFurther(operators: set<NamespacedName>, p: Place, event: Event)
    requires Sound(operators, p) && p.claim.holder.Some?
    requires event.Issues? ==> p.claim.namespace == Some(event.seen)
    ensures NoFurther(p, After(p, event))
  {
    hide Inv, Next, Advances, DestructionEnds.Distance;
    var q := After(p, event);
    if event.Issues? {
      MatchesIsHolder(p.claim.namespace.value, p.claim.holder, p.claim.refreshed);
    }
    forall k | k in q.records.store && q.records.store[k].owner.namespace == q.name
      ensures k in p.records.store && p.records.store[k].uid == q.records.store[k].uid
      ensures p.records.store[k].owner == q.records.store[k].owner && LeftOf(q, k) <= LeftOf(p, k)
      ensures Advances(p.records.store[k].status, q.records.store[k].status)
    {
      if event.Moves? && q != p {
        StepMakesOnlyByCreate(p.records, event.step, k);
        StepIsNoFurther(p.records, event.step, k);
      } else {
        SameAdvances(p.records.store[k].status);
      }
    }
  }

  lemma SameAdvances(status: Status)
    ensures Advances(status, status)
  {
  }

  lemma AdvancesTwice(a: Status, b: Status, c: Status)
    requires Advances(a, b) && Advances(b, c)
    ensures Advances(a, c)
  {
  }

  lemma NoFurtherTwice(p: Place, q: Place, t: Place)
    requires NoFurther(p, q) && NoFurther(q, t) && p.name == q.name == t.name
    ensures NoFurther(p, t)
  {
    hide Advances, DestructionEnds.Distance;
    forall k | k in t.records.store && t.records.store[k].owner.namespace == t.name
      ensures k in p.records.store && p.records.store[k].uid == t.records.store[k].uid
      ensures p.records.store[k].owner == t.records.store[k].owner && LeftOf(t, k) <= LeftOf(p, k)
      ensures Advances(p.records.store[k].status, t.records.store[k].status)
    {
      AdvancesTwice(p.records.store[k].status, q.records.store[k].status, t.records.store[k].status);
    }
  }

  /**
   While anybody destroys, whatever else happens, no record is added in the namespace or made again under
   its name, whatever account a pass read; and none of those that are there is set back on its way out.
   */
  lemma {:induction false} NeverGrows(operators: set<NamespacedName>, p: Place, events: seq<Event>)
    requires Sound(operators, p) && Among(operators, events)
    requires ReadsAreCurrent(p, events) && HeldThroughout(p, events)
    ensures NoFurther(p, AfterAll(p, events)) && Sound(operators, AfterAll(p, events))
      && AfterAll(p, events).name == p.name
    decreases |events|
  {
    hide After, Sound, NoFurther;
    if events == [] {
      NowhereIsNoFurther(p);
    } else {
      var before, last := events[..|events| - 1], events[|events| - 1];
      assert forall i | 0 <= i < |before| :: before[..i] == events[..i];
      NeverGrows(operators, p, before);
      var m := AfterAll(p, before);
      EventKeeps(operators, m, last);
      EventIsNoFurther(operators, m, last);
      NoFurtherTwice(p, m, After(m, last));
    }
  }

  lemma NowhereIsNoFurther(p: Place)
    ensures NoFurther(p, p)
  {
  }

  /******* Destroying while others would mint *******/

  /** One undisturbed pass over a record of the namespace, while there is one. */
  ghost function Passed(p: Place, w: Worker, key: Key, here: string, token: Token): Place {
    if LeftOf(p, key) == 0 then p else p.(records := DestructionEnds.QuietPass(p.records, w, key, here, token))
  }

  /** The records' controller reads the Namespace as it is: who holds it, and whether it is there. */
  predicate SeesTheClaim(p: Place) {
    match p.claim.namespace
    case None => p.name !in p.records.cluster.holders
    case Some(namespace) =>
      p.name in p.records.cluster.holders && p.records.cluster.holders[p.name] == HolderOf(namespace)
  }

  /** The claim that stands is this operator's, what it made for this record shows, and a pass can act. */
  ghost predicate MayPass(p: Place, w: Worker, key: Key, here: string, token: Token) {
    LeftOf(p, key) > 0 ==>
      && DestructionEnds.Quiet(p.records, w, here, token) && DestructionEnds.Doomed(p.records, key)
      && p.claim.holder == Some(p.records.operator) && SeesTheClaim(p)
      && (StateOf(p.records.store[key].status) == Sent ==>
           RecordRuns.Shows(p.records, Marker(token.issuer, p.records.operator, key)))
  }

  /** Holding the claim is being allowed to destroy. */
  lemma HolderMayDestroy(operators: set<NamespacedName>, p: Place)
    requires ClaimRuns.Inv(operators, p.claim) && p.claim.holder == Some(p.records.operator) && SeesTheClaim(p)
    ensures MayDestroyIn(p.records.cluster, p.records.operator, p.name)
  {
    MatchesIsHolder(p.claim.namespace.value, p.claim.holder, p.claim.refreshed);
  }

  lemma PassedIsNearer(operators: set<NamespacedName>, p: Place, w: Worker, key: Key, here: string, token: Token)
    requires Sound(operators, p) && MayPass(p, w, key, here, token)
    ensures var q := Passed(p, w, key, here, token);
      && Sound(operators, q) && q.name == p.name
      && (LeftOf(q, key) + 1 <= LeftOf(p, key) || LeftOf(q, key) == LeftOf(p, key) == 0)
  {
    hide Inv, DestructionEnds.QuietPass, DestructionEnds.Quiet, ClaimRuns.Inv, RecordRuns.Shows, SeesTheClaim,
      MayDestroyIn;
    if LeftOf(p, key) > 0 {
      HolderMayDestroy(operators, p);
      var t := DestructionEnds.PassAdvances(p.records, w, key, here, token);
      DestructionEnds.PassKeepsInv(p.records, w, key, here, token);
    }
  }

  /**
   Three undisturbed passes end a record of the namespace, whatever hinders others, with anything at all
   going on before, between and after them that leaves a claim standing: other passes over it and over
   others, other operators' claims, and every minting that reads the Namespace as it is.
   */
  lemma EndsWhileOthersMint(operators: set<NamespacedName>, p: Place, w: Worker, key: Key, here: string, token: Token,
                            first: seq<Event>, second: seq<Event>, third: seq<Event>, last: seq<Event>)
    requires Sound(operators, p)
    requires var a := AfterAll(p, first);
      var a' := Passed(a, w, key, here, token);
      var b := AfterAll(a', second);
      var b' := Passed(b, w, key, here, token);
      var c := AfterAll(b', third);
      var c' := Passed(c, w, key, here, token);
      && Undisturbed(operators, p, first) && MayPass(a, w, key, here, token)
      && Undisturbed(operators, a', second) && MayPass(b, w, key, here, token)
      && Undisturbed(operators, b', third) && MayPass(c, w, key, here, token)
      && Undisturbed(operators, c', last)
    ensures var b := AfterAll(Passed(AfterAll(p, first), w, key, here, token), second);
      var c := AfterAll(Passed(b, w, key, here, token), third);
      LeftOf(AfterAll(Passed(c, w, key, here, token), last), key) == 0
  {
    hide Sound, AfterAll, Passed, MayPass, Undisturbed;
    var a := StretchThenPass(operators, p, first, w, key, here, token);
    var b := StretchThenPass(operators, a, second, w, key, here, token);
    var c := StretchThenPass(operators, b, third, w, key, here, token);
    StretchIsNoFurther(operators, c, last, key);
    NoneIsFurtherThanThree(p, key);
  }

  ghost predicate Undisturbed(operators: set<NamespacedName>, p: Place, events: seq<Event>) {
    Among(operators, events) && ReadsAreCurrent(p, events) && HeldThroughout(p, events)
  }

  lemma NoneIsFurtherThanThree(p: Place, key: Key)
    ensures LeftOf(p, key) <= 3
  {
  }

  lemma StretchIsNoFurther(operators: set<NamespacedName>, p: Place, events: seq<Event>, key: Key)
    requires Sound(operators, p) && Undisturbed(operators, p, events)
    ensures Sound(operators, AfterAll(p, events)) && LeftOf(AfterAll(p, events), key) <= LeftOf(p, key)
  {
    hide Sound, AfterAll, Among, ReadsAreCurrent, HeldThroughout;
    NeverGrows(operators, p, events);
  }

  lemma StretchThenPass(operators: set<NamespacedName>, p: Place, events: seq<Event>, w: Worker, key: Key, here: string,
                        token: Token)
    returns (q: Place)
    requires Sound(operators, p) && Undisturbed(operators, p, events)
      && MayPass(AfterAll(p, events), w, key, here, token)
    ensures q == Passed(AfterAll(p, events), w, key, here, token) && Sound(operators, q)
    ensures LeftOf(q, key) + 1 <= LeftOf(p, key) || LeftOf(q, key) == 0
  {
    hide Sound, AfterAll, Passed, MayPass, LeftOf, Undisturbed;
    StretchIsNoFurther(operators, p, events, key);
    PassedIsNearer(operators, AfterAll(p, events), w, key, here, token);
    q := Passed(AfterAll(p, events), w, key, here, token);
  }

  /** A pass that read the Namespace before it was claimed still makes its record afterwards. */
  lemma ReadBeforeTheClaim(operators: set<NamespacedName>, p: Place, claimer: NamespacedName, key: Key,
                           owner: NamespacedName)
    requires ClaimRuns.IsOperators(operators) && ClaimRuns.Inv(operators, p.claim) && claimer in operators
    requires p.claim.namespace == Some(map[]) && ClaimRuns.AtOf(p.claim, claimer).Resting?
    requires owner.namespace == p.name && key !in p.records.store
    ensures var claimed := After(p, Claims(ClaimRuns.Applies(claimer)));
      && claimed.claim.holder == Some(claimer) && LeftOf(claimed, key) == 0
      && LeftOf(After(claimed, Issues(key, owner, true, map[], true, true)), key) > 0
  {
    ApplyMatches(p.claim.namespace.value, p.claim.holder, p.claim.refreshed, claimer, p.claim.clock);
  }
}

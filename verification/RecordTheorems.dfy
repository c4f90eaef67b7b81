/** What holds of every run of the record protocol. */
module RecordTheorems {
  import opened Names
  import opened Options
  import opened Records
  import opened RecordProtocol
  import opened RecordSafety

  lemma LookKeeps(s: State, w: Worker, p: Pass, a: Answer)
    requires Inv(s) && PassOf(s, w) == p && p.Running? && Looks(p.at)
    ensures Inv(Move(s, w, Look(s, p, a)))
  {
    hide Inv;
    if p.at.Asking? {
      AskKeeps(s, w, p, a);
    } else if p.at.Locating? {
      LocateKeeps(s, w, p, a);
    } else if p.at.CheckingClaim? {
      CheckClaimKeeps(s, w, p, a);
    } else if p.at.Preparing? {
      PreparingKeeps(s, w, p, a);
    } else {
      ProbingKeeps(s, w, p, a);
    }
  }

  lemma TalkKeeps(s: State, w: Worker, p: Pass, a: Answer)
    requires Inv(s) && PassOf(s, w) == p && p.Running? && Talks(p.at)
    ensures Inv(Talk(s, w, p, a))
  {
    hide Inv, SendCreate, Await, Remove, Search, Ensure;
    match p.at
    case Creating(token) => SendCreateKeeps(s, w, p, token, a);
    case Awaiting(_, _) => AwaitKeeps(s, w, p, a);
    case Searching(token) => SearchingKeeps(s, w, p, token, a);
    case Removing(id) => RemoveKeeps(s, w, p, id, a);
    case Ensuring(token) => EnsuringKeeps(s, w, p, token, a);
  }

  lemma WriteCallKeeps(s: State, w: Worker, p: Pass, a: Answer)
    requires Inv(s) && PassOf(s, w) == p && p.Running? && !Looks(p.at) && !Talks(p.at)
    ensures Inv(Write(s, w, p, a))
  {
    hide Inv, WriteStatus, Proposed, Onward;
    if p.at.Marking? {
      MarkingKeeps(s, w, p, a);
    } else if p.at.Adopting? {
      AdoptingKeeps(s, w, p, a);
    } else if p.at.Latching? {
      LatchingKeeps(s, w, p, a);
    } else if p.at.Reporting? {
      ReportingKeeps(s, w, p, a);
    } else {
      var m := LastWriteKeeps(s, w, p, a);
      MoveKeeps(m, w, Idle);
    }
  }

  lemma AdvanceKeeps(s: State, w: Worker, p: Pass, a: Answer)
    requires Inv(s) && PassOf(s, w) == p && p.Running?
    ensures Inv(Advance(s, w, p, a))
  {
    hide Inv, Look, Talk, Write;
    if Looks(p.at) {
      LookKeeps(s, w, p, a);
    } else if Talks(p.at) {
      TalkKeeps(s, w, p, a);
    } else {
      WriteCallKeeps(s, w, p, a);
    }
  }

  lemma LocateKeeps(s: State, w: Worker, p: Pass, a: Answer)
    requires Inv(s) && PassOf(s, w) == p && p.Running? && p.at.Locating?
    ensures Inv(Move(s, w, Look(s, p, a)))
  {
    if a.Saw? && a.cluster in s.seen {
      ScopeKeeps(s, w, p, a.cluster);
    } else {
      MoveKeeps(s, w, Idle);
    }
  }

  /** The writes a pass ends on. */
  lemma LastWriteKeeps(s: State, w: Worker, p: Pass, a: Answer) returns (m: State)
    requires Inv(s) && PassOf(s, w) == p && p.Running?
    requires p.at.AddingFinalizer? || p.at.Deleting? || p.at.Releasing?
    ensures Inv(m) && Write(s, w, p, a) == Move(m, w, Idle)
  {
    hide Inv, AddFinalizer, DeleteByName, DropFinalizer;
    if a.Failed? {
      m := s;
    } else if p.at.AddingFinalizer? {
      m := AddFinalizer(s, p.issued);
      AddFinalizerKeeps(s, p.issued);
    } else if p.at.Deleting? {
      m := DeleteByName(s, p.issued.key);
      DeleteByNameKeeps(s, p.issued.key);
    } else {
      m := DropFinalizer(s, p.issued);
      DropFinalizerKeeps(s, w, p);
    }
  }

  lemma AddFinalizerKeeps(s: State, issued: Record)
    requires Inv(s)
    ensures Inv(AddFinalizer(s, issued))
  {
    if Current(s.store, issued) {
      PutSameKeeps(s, s.store[issued.key].(finalizer := true));
    }
  }

  /** Every step, of any pass or of anybody else, keeps the invariant. */
  lemma NextKeeps(s: State, step: Step)
    requires Inv(s)
    ensures Inv(Next(s, step))
  {
    hide Inv;
    match step
    case Begin(w, version, here) =>
      if PassOf(s, w).Idle? && version in s.past {
        BeginKeeps(s, w, version, here);
      }
    case Call(w, answer) =>
      if PassOf(s, w).Running? {
        AdvanceKeeps(s, w, PassOf(s, w), answer);
      }
    case Crash(w) => MoveKeeps(s, w, Idle);
    case CreateRecord(key, owner, finalizer) => CreateRecordKeeps(s, key, owner, finalizer);
    case DeleteRecord(key) => DeleteByNameKeeps(s, key);
    case Land(flight, clientId) => LandKeeps(s, flight, clientId);
    case Drop(flight) => DropKeeps(s, flight);
    case PrincipalDeleted(id) => PrincipalDeletedKeeps(s, id);
    case ForeignPrincipal(principal) => ForeignPrincipalKeeps(s, principal);
    case ClusterChanges(cluster) => ClusterChangesKeeps(s, cluster);
  }

  lemma {:induction false} RunKeeps(s: State, steps: seq<Step>)
    requires Inv(s)
    ensures Inv(Run(s, steps))
    decreases |steps|
  {
    hide Inv, Next;
    if steps != [] {
      RunKeeps(s, steps[..|steps| - 1]);
      NextKeeps(Run(s, steps[..|steps| - 1]), steps[|steps| - 1]);
    }
  }

  lemma Reached(operator: NamespacedName, cluster: Cluster, steps: seq<Step>)
    ensures Inv(Run(Initial(operator, cluster), steps))
  {
    assert Inv(Initial(operator, cluster));
    RunKeeps(Initial(operator, cluster), steps);
  }

  /******* No orphan *******/

  /** A record that answers for a key: held by its finalizer, and in a state that will not let go. */
  ghost predicate Answers(s: State, key: Key) {
    key in s.store && s.store[key].finalizer
      && (StateOf(s.store[key].status) == Sent || StateOf(s.store[key].status) == Known)
  }

  /**
   In every run, every live service principal carrying this operator's marker, and every create that
   can still make one, is answered for by a stored record, and by the incarnation that made it.
   */
  lemma NoOrphan(operator: NamespacedName, cluster: Cluster, steps: seq<Step>)
    ensures var s := Run(Initial(operator, cluster), steps);
      && (forall id | id in s.principals && s.principals[id].marker.operator == operator ::
           var key := s.principals[id].marker.key;
           Answers(s, key)
           && (StateOf(s.store[key].status) == Known ==> s.store[key].status.servicePrincipalId == Some(id))
           && Made(s.flights, s.origins, key, s.store[key].uid, id))
      && (forall f | f in s.flights && s.flights[f].phase.InAir? ::
           Answers(s, s.flights[f].marker.key) && StateOf(s.store[s.flights[f].marker.key].status) == Sent
           && s.store[s.flights[f].marker.key].uid == s.flights[f].maker)
  {
    Reached(operator, cluster, steps);
    RunKeepsOperator(Initial(operator, cluster), steps);
    var s := Run(Initial(operator, cluster), steps);
    forall id | id in s.principals && s.principals[id].marker.operator == operator
      ensures Outstanding(s.flights, s.principals, s.origins[id])
    {
    }
    forall f | f in s.flights && s.flights[f].phase.InAir?
      ensures Outstanding(s.flights, s.principals, f)
    {
    }
  }

  lemma {:induction false} RunKeepsOperator(s: State, steps: seq<Step>)
    ensures Run(s, steps).operator == s.operator
    decreases |steps|
  {
    if steps != [] {
      RunKeepsOperator(s, steps[..|steps| - 1]);
    }
  }

  /** A name with no record has nothing in Databricks, nothing on its way there, and nobody about to send it. */
  lemma GoneMeansNothingLeft(operator: NamespacedName, cluster: Cluster, steps: seq<Step>, key: Key)
    ensures var s := Run(Initial(operator, cluster), steps);
      key !in s.store ==>
        && (forall id | id in s.principals && s.principals[id].marker.operator == operator ::
             s.principals[id].marker.key != key)
        && (forall f | f in s.flights && s.flights[f].phase.InAir? :: s.flights[f].marker.key != key)
        && (forall w | MayCreate(s.passes, w) :: s.passes[w].issued.key != key)
  {
    NoOrphan(operator, cluster, steps);
    Reached(operator, cluster, steps);
  }

  /** At most one service principal in the account carries any one key of this operator, whatever its issuer. */
  lemma NoDuplicate(operator: NamespacedName, cluster: Cluster, steps: seq<Step>, a: nat, b: nat)
    ensures var s := Run(Initial(operator, cluster), steps);
      (a in s.principals && b in s.principals
       && s.principals[a].marker.operator == s.principals[b].marker.operator == operator
       && s.principals[a].marker.key == s.principals[b].marker.key) ==> a == b
  {
    NoOrphan(operator, cluster, steps);
    Reached(operator, cluster, steps);
  }

  /**
   An id on a record was made by that record's own incarnation, what it names is never another's, and the
   client id beside it is the one Databricks gave with it.
   */
  lemma NothingInherited(operator: NamespacedName, cluster: Cluster, steps: seq<Step>, key: Key)
    ensures var s := Run(Initial(operator, cluster), steps);
      key in s.store && s.store[key].status.servicePrincipalId.Some? ==>
        var id := s.store[key].status.servicePrincipalId.value;
        && Made(s.flights, s.origins, key, s.store[key].uid, id)
        && (id in s.principals ==>
             s.principals[id].marker.operator == operator && s.principals[id].marker.key == key
             && s.principals[id].clientId == s.store[key].status.clientId)
  {
    Reached(operator, cluster, steps);
    RunKeepsOperator(Initial(operator, cluster), steps);
  }

  /** Every delete sent to Databricks is for what carries this operator's marker and the record's own key. */
  lemma DeletesOnlyItsOwn(operator: NamespacedName, cluster: Cluster, steps: seq<Step>, w: Worker)
    ensures var s := Run(Initial(operator, cluster), steps);
      PassOf(s, w).Running? && PassOf(s, w).at.Removing? && PassOf(s, w).at.id in s.principals ==>
        s.principals[PassOf(s, w).at.id].marker.operator == operator
        && s.principals[PassOf(s, w).at.id].marker.key == PassOf(s, w).issued.key
  {
    Reached(operator, cluster, steps);
    RunKeepsOperator(Initial(operator, cluster), steps);
    var s := Run(Initial(operator, cluster), steps);
    if PassOf(s, w).Running? {
      assert Relies(s, s.passes[w]);
    }
  }

  /** A record is only ever deleted by a pass that read a reason to. */
  lemma DeletedForAReason(operator: NamespacedName, cluster: Cluster, steps: seq<Step>, w: Worker)
    ensures var s := Run(Initial(operator, cluster), steps);
      PassOf(s, w).Running? && PassOf(s, w).at.Deleting? ==>
        Justified(s.seen, operator, PassOf(s, w).issued, PassOf(s, w).at.why)
  {
    Reached(operator, cluster, steps);
    RunKeepsOperator(Initial(operator, cluster), steps);
  }

  /******* At most one create *******/

  /** How many times CreateServicePrincipal was called for one incarnation, whatever came of it. */
  function CreatesFor(s: State, steps: seq<Step>, uid: nat): nat
    decreases |steps|
  {
    if steps == [] then 0
    else
      var before, last := steps[..|steps| - 1], steps[|steps| - 1];
      CreatesFor(s, before, uid) +
      if last.Call? && MayCreate(Run(s, before).passes, last.worker)
         && Run(s, before).passes[last.worker].issued.uid == uid then 1 else 0
  }

  ghost predicate HasFlown(s: State, uid: nat) {
    exists f :: f in s.flights && s.flights[f].maker == uid
  }

  /** Over any run, however many passes there were, one record causes at most one create. */
  lemma AtMostOneCreate(operator: NamespacedName, cluster: Cluster, steps: seq<Step>, uid: nat)
    ensures CreatesFor(Initial(operator, cluster), steps, uid) <= 1
  {
    CreatesAreFlights(operator, cluster, steps, uid);
  }

  lemma {:induction false} CreatesAreFlights(operator: NamespacedName, cluster: Cluster, steps: seq<Step>, uid: nat)
    ensures CreatesFor(Initial(operator, cluster), steps, uid) ==
            if HasFlown(Run(Initial(operator, cluster), steps), uid) then 1 else 0
    decreases |steps|
  {
    if steps != [] {
      var before, last := steps[..|steps| - 1], steps[|steps| - 1];
      CreatesAreFlights(operator, cluster, before, uid);
      Reached(operator, cluster, before);
      OneStepFlies(Run(Initial(operator, cluster), before), last, uid);
    }
  }

  lemma OneStepFlies(s: State, step: Step, uid: nat)
    requires Inv(s)
    ensures var sends := step.Call? && MayCreate(s.passes, step.worker) && s.passes[step.worker].issued.uid == uid;
      && (sends ==> !HasFlown(s, uid) && HasFlown(Next(s, step), uid))
      && (!sends ==> (HasFlown(Next(s, step), uid) <==> HasFlown(s, uid)))
  {
    if step.Call? && MayCreate(s.passes, step.worker) {
      SendIsOneFlight(s, step.worker, step.answer);
      OneMoreFlies(s.flights, Next(s, step).flights, s.clock, uid);
      assert MayCreate(s.passes, step.worker)
        && Next(s, step) == Advance(s, step.worker, s.passes[step.worker], step.answer);
    } else {
      OthersKeepMakers(s, step);
      SameFly(s.flights, Next(s, step).flights, uid);
    }
  }

  lemma OneMoreFlies(flights: Flights, more: Flights, f: nat, uid: nat)
    requires f !in flights && more.Keys == flights.Keys + {f} && forall g | g in flights :: more[g] == flights[g]
    ensures (exists g :: g in more && more[g].maker == uid) <==>
            (exists g :: g in flights && flights[g].maker == uid) || more[f].maker == uid
  {
    if g :| g in flights && flights[g].maker == uid {
      assert g in more && more[g].maker == uid;
    }
    if g :| g in more && more[g].maker == uid {
      assert g == f || (g in flights && flights[g].maker == uid);
    }
    assert f in more;
  }

  lemma SameFly(flights: Flights, others: Flights, uid: nat)
    requires others.Keys == flights.Keys && forall g | g in flights :: others[g].maker == flights[g].maker
    ensures (exists g :: g in others && others[g].maker == uid) <==>
      (exists g :: g in flights && flights[g].maker == uid)
  {
    if g :| g in flights && flights[g].maker == uid {
      assert g in others && others[g].maker == uid;
    }
    if g :| g in others && others[g].maker == uid {
      assert g in flights && flights[g].maker == uid;
    }
  }

  lemma SendIsOneFlight(s: State, w: Worker, a: Answer)
    requires Inv(s) && MayCreate(s.passes, w)
    ensures var t := Advance(s, w, s.passes[w], a);
      && s.clock !in s.flights
      && t.flights.Keys == s.flights.Keys + {s.clock}
      && t.flights[s.clock].maker == s.passes[w].issued.uid
      && forall f | f in s.flights :: t.flights[f] == s.flights[f]
  {
    hide Relying, Written, Fitting, Look, Write;
  }

  /** Wherever its policy got to, the pass goes on to report what it was written for. */
  lemma EnsuredReports(s: State, w: Worker, p: Pass, token: Token, a: Answer)
    requires p.Running?
    ensures var t := Ensure(s, w, p, token, a);
      && PassOf(t, w) == Go(p, Reporting(p.issued.status.(issuer := token.issuer, audience := token.audience)))
      && t.store == s.store && t.flights == s.flights && t.principals == s.principals && t.clock == s.clock
  {
  }

  /** Where a call to Databricks leads. */
  predicate LeadsTo(p: Pass, q: Pass)
    requires p.Running?
  {
    && q.Running? && q.issued == p.issued && q.here == p.here
    && match p.at
       case Creating(_) => q.at.Awaiting? || q.at.Reporting?
       case Awaiting(_, _) => q.at.Awaiting? || q.at.Adopting? || q.at.Reporting?
       case Searching(_) => q.at.Reporting? || if p.issued.deleting then q.at.Removing? else q.at.Adopting?
       case Removing(_) => q.at.Releasing? || q.at.Reporting?
       case Ensuring(_) => q.at.Reporting?
       case _ => true
  }

  lemma CreateLeads(s: State, w: Worker, p: Pass, token: Token, a: Answer)
    requires p.Running? && p.at.Creating?
    ensures LeadsTo(p, PassOf(SendCreate(s, w, p, token, a), w))
  {
  }

  lemma AwaitLeads(s: State, w: Worker, p: Pass, token: Token, flight: nat, a: Answer)
    requires p.Running? && p.at.Awaiting? && PassOf(s, w) == p
    ensures LeadsTo(p, PassOf(Await(s, w, p, token, flight, a), w))
  {
  }

  lemma SearchLeads(s: State, p: Pass, token: Token, a: Answer)
    requires p.Running? && p.at.Searching?
    ensures LeadsTo(p, Search(s, p, token, a))
  {
  }

  lemma RemoveLeads(s: State, w: Worker, p: Pass, id: nat, a: Answer)
    requires p.Running? && p.at.Removing?
    ensures LeadsTo(p, PassOf(Remove(s, w, p, id, a), w))
  {
  }

  lemma TalkLeads(s: State, w: Worker, p: Pass, a: Answer)
    requires p.Running? && Talks(p.at) && PassOf(s, w) == p
    ensures LeadsTo(p, PassOf(Talk(s, w, p, a), w))
  {
    hide SendCreate, Await, Search, Remove, Ensure;
    match p.at
    case Creating(token) => CreateLeads(s, w, p, token, a);
    case Awaiting(token, flight) => AwaitLeads(s, w, p, token, flight, a);
    case Searching(token) => SearchLeads(s, p, token, a);
    case Removing(id) => RemoveLeads(s, w, p, id, a);
    case Ensuring(token) => EnsuredReports(s, w, p, token, a);
  }

  lemma OthersKeepMakers(s: State, step: Step)
    requires !(step.Call? && MayCreate(s.passes, step.worker))
    ensures Next(s, step).flights.Keys == s.flights.Keys
    ensures forall f | f in s.flights :: Next(s, step).flights[f].maker == s.flights[f].maker
  {
  }

  /******* A state only moves up *******/

  /** What became of one stored version: gone, replaced by another incarnation, or written over. */
  ghost predicate Grows(before: Record, store: Store) {
    before.key in store && store[before.key].uid == before.uid ==>
      && Advances(before.status, store[before.key].status)
      && (before.finalizer ==> store[before.key].finalizer)
      && (before.deleting ==> store[before.key].deleting)
  }

  lemma StepGrows(s: State, step: Step, key: Key)
    requires Inv(s) && key in s.store
    ensures Grows(s.store[key], Next(s, step).store)
  {
    if step.Call? {
      if PassOf(s, step.worker).Running? {
        CallGrows(s, step.worker, PassOf(s, step.worker), step.answer, key);
      }
    } else {
      OthersGrow(s, step, key);
    }
  }

  /** Besides calls, only a create and a delete of a record change what is stored. */
  lemma OthersLeaveStore(s: State, step: Step)
    requires !step.Call? && !step.CreateRecord? && !step.DeleteRecord?
    ensures Next(s, step).store == s.store
  {
  }

  lemma OthersGrow(s: State, step: Step, key: Key)
    requires !step.Call? && key in s.store && forall k | k in s.store :: s.store[k].key == k
    ensures Grows(s.store[key], Next(s, step).store)
  {
    if step.DeleteRecord? {
      DeleteGrows(s, step.key, key);
    } else if step.CreateRecord? {
      CreateGrows(s, step, key);
    } else {
      hide Next;
      OthersLeaveStore(s, step);
    }
  }

  lemma DeleteGrows(s: State, name: Key, key: Key)
    requires key in s.store && forall k | k in s.store :: s.store[k].key == k
    ensures Grows(s.store[key], DeleteByName(s, name).store)
  {
    hide DeleteByName;
    DeleteIsMeta(s, name, key);
  }

  lemma CreateGrows(s: State, step: Step, key: Key)
    requires step.CreateRecord? && key in s.store && forall k | k in s.store :: s.store[k].key == k
    ensures Grows(s.store[key], Next(s, step).store)
  {
  }

  lemma CallGrows(s: State, w: Worker, p: Pass, a: Answer, key: Key)
    requires Inv(s) && key in s.store && PassOf(s, w) == p && p.Running?
    ensures Grows(s.store[key], Advance(s, w, p, a).store)
  {
    if !Looks(p.at) && !Talks(p.at) {
      assert Fits(p, s.operator, s.seen) && p.issued in s.past;
      if Current(s.store, p.issued) {
        CurrentIsStored(s, p.issued);
      }
      if p.at.AddingFinalizer? || p.at.Deleting? || p.at.Releasing? {
        MetaGrows(s, w, p, a, key);
      } else {
        WriterGrows(s, w, p, a, key);
      }
    }
  }

  /** The same incarnation with the same status, held and deleted if it was. */
  predicate MetaSame(r: Record, q: Record) {
    && q.uid == r.uid && q.owner == r.owner && q.status == r.status
    && (r.finalizer ==> q.finalizer) && (r.deleting ==> q.deleting)
  }

  lemma AddFinalizerIsMeta(s: State, issued: Record, key: Key)
    requires key in s.store && forall k | k in s.store :: s.store[k].key == k
    ensures key in AddFinalizer(s, issued).store && MetaSame(s.store[key], AddFinalizer(s, issued).store[key])
  {
    hide PassOf;
    if Current(s.store, issued) {
      assert s.store[issued.key].key == issued.key;
    }
  }

  lemma DeleteIsMeta(s: State, name: Key, key: Key)
    requires key in s.store && forall k | k in s.store :: s.store[k].key == k
    ensures s.store[key].finalizer ==> key in DeleteByName(s, name).store
    ensures key in DeleteByName(s, name).store ==> MetaSame(s.store[key], DeleteByName(s, name).store[key])
  {
  }

  lemma DropFinalizerIsMeta(s: State, issued: Record, key: Key)
    requires key in s.store && forall k | k in s.store :: s.store[k].key == k
    ensures !(issued.key == key && Current(s.store, issued)) ==>
      key in DropFinalizer(s, issued).store && MetaSame(s.store[key], DropFinalizer(s, issued).store[key])
    ensures Current(s.store, issued) && s.store[issued.key].deleting && key in DropFinalizer(s, issued).store ==>
      MetaSame(s.store[key], DropFinalizer(s, issued).store[key])
  {
  }

  lemma MetaGrows(s: State, w: Worker, p: Pass, a: Answer, key: Key)
    requires p.Running? && (p.at.AddingFinalizer? || p.at.Deleting? || p.at.Releasing?) && Fits(p, s.operator, s.seen)
    requires key in s.store && forall k | k in s.store :: s.store[k].key == k
    requires Current(s.store, p.issued) ==> s.store[p.issued.key] == p.issued
    ensures Grows(s.store[key], Write(s, w, p, a).store)
  {
    hide WriteStatus, Proposed, Onward, StateOf, AddFinalizer, DeleteByName, DropFinalizer;
    AddFinalizerIsMeta(s, p.issued, key);
    DeleteIsMeta(s, p.issued.key, key);
    DropFinalizerIsMeta(s, p.issued, key);
  }

  lemma WriterGrows(s: State, w: Worker, p: Pass, a: Answer, key: Key)
    requires p.Running? && Writes(p.at)
    requires Fits(p, s.operator, s.seen)
    requires key in s.store && forall k | k in s.store :: s.store[k].key == k
    requires Current(s.store, p.issued) ==> s.store[p.issued.key] == p.issued
    ensures Grows(s.store[key], Write(s, w, p, a).store)
  {
    StatusGrows(s, w, p, Proposed(p), a, Onward(p.at), key);
  }

  lemma StatusGrows(s: State, w: Worker, p: Pass, status: Status, a: Answer, next: Option<At>, key: Key)
    requires p.Running? && key in s.store && s.store[key].key == key
    requires Current(s.store, p.issued) ==> s.store[p.issued.key] == p.issued && Advances(p.issued.status, status)
    ensures Grows(s.store[key], WriteStatus(s, w, p, status, a, next).store)
  {
  }

  /** Over any run, the mark and the id stay as they were written and the state only moves up. */
  lemma {:induction false} OnlyUp(s: State, steps: seq<Step>, key: Key)
    requires Inv(s) && key in s.store
    ensures Grows(s.store[key], Run(s, steps).store)
    decreases |steps|
  {
    hide Next;
    if steps != [] {
      var before := steps[..|steps| - 1];
      OnlyUp(s, before, key);
      RunKeeps(s, before);
      var m := Run(s, before);
      ClockOnlyGrows(s, before, key);
      if key in m.store {
        StepGrows(m, steps[|steps| - 1], key);
      }
      OneStepUid(m, steps[|steps| - 1], key);
    }
  }

  /** A uid is never given twice: an incarnation whose name is free or taken again does not come back. */
  lemma OneStepUid(s: State, step: Step, key: Key)
    requires Versioned(s.store, s.past, s.clock)
    ensures key in Next(s, step).store ==>
      (key in s.store && Next(s, step).store[key].uid == s.store[key].uid) || Next(s, step).store[key].uid >= s.clock
  {
    if step.Call? {
      if PassOf(s, step.worker).Running? {
        CallKeepsUids(s, step.worker, PassOf(s, step.worker), step.answer);
      }
    } else {
      OthersKeepUids(s, step, key);
    }
  }

  lemma OthersKeepUids(s: State, step: Step, key: Key)
    requires !step.Call? && forall k | k in s.store :: s.store[k].key == k
    ensures key in Next(s, step).store ==>
      (key in s.store && Next(s, step).store[key].uid == s.store[key].uid) || Next(s, step).store[key].uid >= s.clock
  {
    if !step.CreateRecord? && !step.DeleteRecord? {
      OthersLeaveStore(s, step);
    }
  }

  lemma CallKeepsUids(s: State, w: Worker, p: Pass, a: Answer)
    requires p.Running? && forall k | k in s.store :: s.store[k].key == k
    ensures forall k | k in Advance(s, w, p, a).store ::
      k in s.store && Advance(s, w, p, a).store[k].uid == s.store[k].uid
  {
    if !Looks(p.at) && !Talks(p.at) {
      WriterKeepsUids(s, w, p, a);
    }
  }

  lemma WriterKeepsUids(s: State, w: Worker, p: Pass, a: Answer)
    requires p.Running? && !Looks(p.at) && !Talks(p.at)
    requires forall k | k in s.store :: s.store[k].key == k
    ensures forall k | k in Write(s, w, p, a).store :: k in s.store && Write(s, w, p, a).store[k].uid == s.store[k].uid
  {
    hide Write;
    if p.at.AddingFinalizer? || p.at.Deleting? || p.at.Releasing? {
      MetaKeepsUids(s, w, p, a);
    } else {
      WroteStatus(s, w, p, a);
    }
  }

  lemma MetaKeepsUids(s: State, w: Worker, p: Pass, a: Answer)
    requires p.Running? && (p.at.AddingFinalizer? || p.at.Deleting? || p.at.Releasing?)
    requires forall k | k in s.store :: s.store[k].key == k
    ensures forall k | k in Write(s, w, p, a).store :: k in s.store && Write(s, w, p, a).store[k].uid == s.store[k].uid
  {
    hide WriteStatus, Proposed, Onward, AddFinalizer, DeleteByName, DropFinalizer;
    AddKeepsUids(s, p.issued);
    DeleteKeepsUids(s, p.issued.key);
    DropKeepsUids(s, p.issued);
  }

  lemma AddKeepsUids(s: State, issued: Record)
    requires forall k | k in s.store :: s.store[k].key == k
    ensures forall k | k in AddFinalizer(s, issued).store ::
      k in s.store && AddFinalizer(s, issued).store[k].uid == s.store[k].uid
  {
  }

  lemma DeleteKeepsUids(s: State, name: Key)
    requires forall k | k in s.store :: s.store[k].key == k
    ensures forall k | k in DeleteByName(s, name).store ::
      k in s.store && DeleteByName(s, name).store[k].uid == s.store[k].uid
  {
  }

  lemma DropKeepsUids(s: State, issued: Record)
    requires forall k | k in s.store :: s.store[k].key == k
    ensures forall k | k in DropFinalizer(s, issued).store ::
      k in s.store && DropFinalizer(s, issued).store[k].uid == s.store[k].uid
  {
  }

  lemma WroteStatus(s: State, w: Worker, p: Pass, a: Answer)
    requires p.Running? && Writes(p.at)
    requires forall k | k in s.store :: s.store[k].key == k
    ensures var t := Write(s, w, p, a);
      t.store == s.store
      || (p.issued.key in s.store
          && exists status :: t.store
               == s.store[p.issued.key := s.store[p.issued.key].(status := status, version := s.clock)])
  {
    var t := Write(s, w, p, a);
    if t.store != s.store {
      assert t.store == s.store[p.issued.key := s.store[p.issued.key].(status := Proposed(p), version := s.clock)];
    }
  }

  lemma {:induction false} ClockOnlyGrows(s: State, steps: seq<Step>, key: Key)
    ensures s.clock <= Run(s, steps).clock
    decreases |steps|
  {
    if steps != [] {
      ClockOnlyGrows(s, steps[..|steps| - 1], key);
    }
  }
}

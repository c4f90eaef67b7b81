/**
 What a pass destroys: whose service principal it removes, and how fresh the reading is that a record is
 deleted on (internal/controller/issueddatabricksserviceprincipal_controller.go:161-201, 249-339).
 */
module RecordDeletes {
  import opened Names
  import opened Options
  import opened Records
  import opened RecordProtocol
  import opened RecordSafety
  import opened RecordTheorems
  import opened RecordRuns

  /******* The reading a record is deleted on *******/

  predicate IsUnwanted(p: Pass) {
    p.Running? && p.at.Deleting? && p.at.why.Unwanted?
  }

  lemma LookToUnwanted(s: State, p: Pass, a: Answer)
    requires p.Running? && Looks(p.at) && IsUnwanted(Look(s, p, a))
    ensures var q := Look(s, p, a);
      p == Go(q, Asking) && s.cluster == q.at.why.seen && !StillWanted(s.cluster, s.operator, q.issued)
  {
    hide StillWanted, OutOfScope, MayDestroyIn;
  }

  lemma OthersNotToUnwanted(s: State, w: Worker, p: Pass, a: Answer)
    requires p.Running? && !Looks(p.at) && PassOf(s, w) == p
    ensures IsUnwanted(PassOf(Advance(s, w, p, a), w)) ==> PassOf(Advance(s, w, p, a), w) == p
  {
    hide Look, Talk, Write;
    if Talks(p.at) {
      TalkLeads(s, w, p, a);
    } else {
      WriteNotToUnwanted(s, w, p, a);
    }
  }

  lemma WriteNotToUnwanted(s: State, w: Worker, p: Pass, a: Answer)
    requires p.Running? && !Looks(p.at) && !Talks(p.at) && PassOf(s, w) == p
    ensures !IsUnwanted(PassOf(Write(s, w, p, a), w))
  {
    hide Put, AddFinalizer, DeleteByName, DropFinalizer, Current;
  }

  lemma StepToUnwanted(s: State, step: Step, w: Worker)
    requires IsUnwanted(PassOf(Next(s, step), w))
    ensures var p := PassOf(Next(s, step), w);
      PassOf(s, w) == p
      || (step.Call? && step.worker == w && PassOf(s, w) == Go(p, Asking)
          && s.cluster == p.at.why.seen && !StillWanted(s.cluster, s.operator, p.issued))
  {
    hide StillWanted, Look, Talk, Write, Put, DeleteByName;
    if step.Call? && PassOf(s, step.worker).Running? {
      assert MovesOnly(s, Next(s, step), step.worker);
      if w == step.worker {
        if Looks(PassOf(s, w).at) {
          LookToUnwanted(s, PassOf(s, w), step.answer);
        } else {
          OthersNotToUnwanted(s, w, PassOf(s, w), step.answer);
        }
      }
    } else if !step.Call? {
      OthersMoveOnlyTheirs(s, step, w);
    }
  }

  lemma OthersMoveOnlyTheirs(s: State, step: Step, w: Worker)
    requires !step.Call?
    ensures PassOf(Next(s, step), w) == PassOf(s, w) || PassOf(Next(s, step), w).Idle?
      || (step.Begin? && step.worker == w && PassOf(Next(s, step), w) == AfterFetch(step.here, step.version))
  {
    hide AfterFetch;
  }

  /**
   A pass that deletes a record because nobody wants it read the cluster itself, live, by its own last
   call: the reading it deletes on is what held at a step of this very pass.
   */
  lemma {:induction false} UnwantedWasReadLive(operator: NamespacedName, cluster: Cluster, steps: seq<Step>, w: Worker)
    returns (i: nat)
    requires IsUnwanted(PassOf(Run(Initial(operator, cluster), steps), w))
    ensures i < |steps| && steps[i].Call? && steps[i].worker == w
    ensures var p := PassOf(Run(Initial(operator, cluster), steps), w);
      var m := Run(Initial(operator, cluster), steps[..i]);
      && PassOf(m, w) == Go(p, Asking) && m.cluster == p.at.why.seen && !StillWanted(m.cluster, operator, p.issued)
      && forall j | i < j <= |steps| :: PassOf(Run(Initial(operator, cluster), steps[..j]), w) == p
    decreases |steps|
  {
    hide Next, StillWanted;
    var first := Initial(operator, cluster);
    assert steps[..|steps|] == steps;
    var before, last := steps[..|steps| - 1], steps[|steps| - 1];
    var p := PassOf(Run(first, steps), w);
    StepToUnwanted(Run(first, before), last, w);
    if PassOf(Run(first, before), w) == p {
      i := UnwantedWasReadLive(operator, cluster, before, w);
      assert before[..i] == steps[..i];
      assert forall j | i < j <= |before| :: before[..j] == steps[..j];
    } else {
      i := |before|;
      RunKeepsOperator(first, before);
    }
  }

  /******* Whose service principal is removed *******/

  /** A copy that names an id is only ever used to remove that one. */
  ghost predicate RemovesRecorded(s: State) {
    forall w | PassOf(s, w).Running? && PassOf(s, w).at.Removing? && StateOf(PassOf(s, w).issued.status) == Known ::
      PassOf(s, w).issued.status.servicePrincipalId == Some(PassOf(s, w).at.id)
  }

  lemma LookNotToRemoving(s: State, p: Pass, a: Answer)
    requires p.Running? && Looks(p.at)
    ensures Look(s, p, a).Running? ==> !Look(s, p, a).at.Removing?
  {
    hide StateOf, StillWanted, OutOfScope, MayDestroyIn;
  }

  lemma WriteNotToRemoving(s: State, w: Worker, p: Pass, a: Answer)
    requires p.Running? && !Looks(p.at) && !Talks(p.at)
    ensures PassOf(Write(s, w, p, a), w).Running? ==> !PassOf(Write(s, w, p, a), w).at.Removing?
  {
    hide Put, AddFinalizer, DeleteByName, DropFinalizer, Current, Proposed;
  }

  lemma CallToRemoving(s: State, w: Worker, p: Pass, a: Answer)
    requires p.Running? && PassOf(s, w) == p && (p.at.Searching? ==> StateOf(p.issued.status) == Sent)
    ensures var q := PassOf(Advance(s, w, p, a), w);
      q.Running? && q.at.Removing? && StateOf(q.issued.status) == Known ==> q == p
  {
    hide Look, Talk, Write, StateOf;
    if Looks(p.at) {
      LookNotToRemoving(s, p, a);
    } else if Talks(p.at) {
      TalkLeads(s, w, p, a);
    } else {
      WriteNotToRemoving(s, w, p, a);
    }
  }

  lemma StepRemovesRecorded(s: State, step: Step)
    requires Inv(s) && RemovesRecorded(s)
    ensures RemovesRecorded(Next(s, step))
  {
    hide Advance;
    forall w | PassOf(Next(s, step), w).Running? && PassOf(Next(s, step), w).at.Removing?
               && StateOf(PassOf(Next(s, step), w).issued.status) == Known
      ensures PassOf(Next(s, step), w).issued.status.servicePrincipalId == Some(PassOf(Next(s, step), w).at.id)
    {
      if step.Call? && PassOf(s, step.worker).Running? {
        var p := PassOf(s, step.worker);
        assert Fits(p, s.operator, s.seen) && MovesOnly(s, Next(s, step), step.worker);
        CallToRemoving(s, step.worker, p, step.answer);
      } else if !step.Call? {
        OthersMoveOnlyTheirs(s, step, w);
      }
    }
  }

  lemma {:induction false} RunRemovesRecorded(operator: NamespacedName, cluster: Cluster, steps: seq<Step>)
    ensures RemovesRecorded(Run(Initial(operator, cluster), steps))
    decreases |steps|
  {
    hide Next, Inv;
    if steps != [] {
      RunRemovesRecorded(operator, cluster, steps[..|steps| - 1]);
      Reached(operator, cluster, steps[..|steps| - 1]);
      StepRemovesRecorded(Run(Initial(operator, cluster), steps[..|steps| - 1]), steps[|steps| - 1]);
    }
  }

  /**
   What a pass is about to remove was made by the very incarnation the pass is for, while its copy is what
   is stored, and for good where the copy names the id.
   */
  lemma RemovesItsIncarnations(operator: NamespacedName, cluster: Cluster, steps: seq<Step>, w: Worker)
    ensures var s := Run(Initial(operator, cluster), steps);
      var p := PassOf(s, w);
      p.Running? && p.at.Removing? && (Current(s.store, p.issued) || StateOf(p.issued.status) == Known) ==>
        Made(s.flights, s.origins, p.issued.key, p.issued.uid, p.at.id)
  {
    hide Run, Next;
    var s := Run(Initial(operator, cluster), steps);
    Reached(operator, cluster, steps);
    RunRemovesRecorded(operator, cluster, steps);
    if PassOf(s, w).Running? {
      assert Relies(s, s.passes[w]) && s.passes[w].issued in s.past;
    }
  }

  /**
   In general it is for the record's own key, and the incarnation it takes it from is the one that is
   stored. So a delete takes another incarnation's exactly when another incarnation has the name by then.
   */
  lemma RemovesTheStoredIncarnations(operator: NamespacedName, cluster: Cluster, steps: seq<Step>, w: Worker)
    ensures var s := Run(Initial(operator, cluster), steps);
      var p := PassOf(s, w);
      p.Running? && p.at.Removing? && p.at.id in s.principals ==>
        && s.principals[p.at.id].marker.operator == operator && s.principals[p.at.id].marker.key == p.issued.key
        && p.issued.key in s.store
        && Made(s.flights, s.origins, p.issued.key, s.store[p.issued.key].uid, p.at.id)
        && (Made(s.flights, s.origins, p.issued.key, p.issued.uid, p.at.id) <==>
             s.store[p.issued.key].uid == p.issued.uid)
  {
    hide Run, Next, Inv, Answers;
    DeletesOnlyItsOwn(operator, cluster, steps, w);
    NoOrphan(operator, cluster, steps);
    StoredWhereAnswered(operator, cluster, steps);
  }

  lemma StoredWhereAnswered(operator: NamespacedName, cluster: Cluster, steps: seq<Step>)
    ensures var s := Run(Initial(operator, cluster), steps);
      forall key | Answers(s, key) :: key in s.store
  {
    hide Run;
  }

  /** One incarnation comes and goes while a search for what it made is held up. */
  lemma SearchIsHeldUp(operator: NamespacedName, cluster: Cluster, key: Key, owner: NamespacedName, here: string,
                       token: Token)
    returns (t: State, steps: seq<Step>)
    requires Invites(cluster, operator, key, owner) && here != "" && TrimSpace(token.issuer) != ""
      && token.audience != ""
    ensures t == Run(Initial(operator, cluster), steps) && t.operator == operator && t.cluster == cluster
      && cluster in t.seen
    ensures key !in t.store && PassOf(t, 0).Idle? && PassOf(t, 1).Running? && PassOf(t, 1).here == here
    ensures PassOf(t, 1).at == Searching(token) && PassOf(t, 1).issued.key == key && PassOf(t, 1).issued.uid < t.clock
    ensures PassOf(t, 1).issued.deleting
  {
    hide Run, Invites, Made;
    var first := Initial(operator, cluster);
    var marked, a := Marks(first, 0, key, owner, here, token);
    var sent, b, id := Sends(marked, 0, token, "");
    RunJoins(first, a, b);
    var doomed := Next(sent, DeleteRecord(key));
    AndThen(first, a + b, DeleteRecord(key));
    assert PassOf(doomed, 1) == PassOf(sent, 1) == PassOf(marked, 1) == PassOf(first, 1);
    var c := ReachesSearch(doomed, 1, doomed.store[key], here, token);
    RunJoins(first, a + b + [DeleteRecord(key)], c);
    var searching := Move(doomed, 1, Running(here, doomed.store[key], Searching(token)));
    var gone, d := Destroys(searching, 0, key, here, token, id);
    RunJoins(first, a + b + [DeleteRecord(key)] + c, d);
    steps, t := a + b + [DeleteRecord(key)] + c + d, gone;
  }

  /**
   Held up for long enough, that search finds what a later incarnation of the name made, and removes it:
   a marker names the record's name and nothing of its incarnation.
   */
  lemma LateSearchRemovesAnothers(operator: NamespacedName, cluster: Cluster, key: Key, owner: NamespacedName,
                                  here: string, token: Token)
    returns (steps: seq<Step>, id: nat)
    requires Invites(cluster, operator, key, owner) && here != "" && TrimSpace(token.issuer) != ""
      && token.audience != ""
    ensures var s := Run(Initial(operator, cluster), steps);
      && PassOf(s, 1).Running? && PassOf(s, 1).at == Removing(id) && PassOf(s, 1).issued.key == key
      && key in s.store && !s.store[key].deleting && s.store[key].uid != PassOf(s, 1).issued.uid
      && id in s.principals && Made(s.flights, s.origins, key, s.store[key].uid, id)
      && id !in Run(Initial(operator, cluster), steps + [Call(1, Done)]).principals
  {
    hide Run, Invites, Made;
    var first := Initial(operator, cluster);
    var held, a := SearchIsHeldUp(operator, cluster, key, owner, here, token);
    var marked, b := Marks(held, 0, key, owner, here, token);
    RunJoins(first, a, b);
    var sent, c, made := Sends(marked, 0, token, "");
    RunJoins(first, a + b, c);
    AndThen(first, a + b + c, Call(1, Found(made)));
    AndThen(first, a + b + c + [Call(1, Found(made))], Call(1, Done));
    steps, id := a + b + c + [Call(1, Found(made))], made;
  }
}

/**
 Exactly which records stay Sent for good, and which calls bring it about: outside the records that are
 lost there is always a run that settles them.
 */
module LostExactly {
  import opened Names
  import opened Options
  import opened Records
  import opened RecordProtocol
  import opened RecordRuns
  import opened RecordSafety
  import opened RecordTheorems
  import opened LostCreates
  import RecordDeletes
  import Requests

  /******* What brings a loss about *******/

  /** Where all that was ever called for it came to nothing, a record is lost. */
  lemma DroppedIsLost(s: State, key: Key)
    requires Inv(s) && key in s.store && StateOf(s.store[key].status) == Sent && Clientless(s.passes, s.store[key].uid)
    requires forall f | f in s.flights && s.flights[f].maker == s.store[key].uid :: s.flights[f].phase.Dropped?
    ensures IsLost(s, key)
  {
    hide StateOf, Clientless;
    forall w | PassOf(s, w).Running? && PassOf(s, w).issued.key == key && Current(s.store, PassOf(s, w).issued)
      ensures !HoldsAnswer(PassOf(s, w), s.flights)
    {
      NoAnswerForDropped(s, key, w);
    }
  }

  lemma NoAnswerForDropped(s: State, key: Key, w: Worker)
    requires Inv(s) && key in s.store && StateOf(s.store[key].status) == Sent
    requires forall f | f in s.flights && s.flights[f].maker == s.store[key].uid :: s.flights[f].phase.Dropped?
    requires PassOf(s, w).Running? && PassOf(s, w).issued.key == key && Current(s.store, PassOf(s, w).issued)
    ensures !HoldsAnswer(PassOf(s, w), s.flights)
  {
    var p := PassOf(s, w);
    assert p.issued in s.past && Relies(s, p);
    CurrentIsStored(s, p.issued);
  }

  lemma NothingSentYet(s: State, w: Worker)
    requires Inv(s) && MayCreate(s.passes, w)
    ensures var issued := s.passes[w].issued;
      && issued.key in s.store && s.store[issued.key].uid == issued.uid && StateOf(s.store[issued.key].status) == Sent
      && (forall f | f in s.flights :: s.flights[f].maker != issued.uid)
      && (forall v | MayCreate(s.passes, v) && s.passes[v].issued.uid == issued.uid :: v == w)
  {
  }

  /** Between its mark and its create, a record is lost exactly when the pass that may create has no clients. */
  lemma CreatorLosesIffClientless(s: State, w: Worker)
    requires Inv(s) && MayCreate(s.passes, w)
    ensures IsLost(s, s.passes[w].issued.key) <==> s.passes[w].here == ""
  {
    NothingSentYet(s, w);
    hide Inv, StateOf;
    if s.passes[w].here == "" {
      DroppedIsLost(s, s.passes[w].issued.key);
    }
  }

  /**
   The call that stores a mark, over the version that is stored: it loses the record exactly when the mark
   may have been stored and there are no clients to create with or the pass ends there.
   */
  lemma MarkLosesIff(s: State, w: Worker, a: Answer)
    requires Inv(s) && PassOf(s, w).Running? && PassOf(s, w).at.Marking? && Current(s.store, PassOf(s, w).issued)
    ensures IsLost(Next(s, Call(w, a)), PassOf(s, w).issued.key) <==>
      !a.Failed? && (PassOf(s, w).here == "" || !a.Done?)
  {
    hide Inv, Next, StateOf;
    var p, t := PassOf(s, w), Next(s, Call(w, a));
    NextKeeps(s, Call(w, a));
    MarkedIs(s, w, a);
    UnsentHasNothing(s, p.issued.key);
    if a.Done? {
      CreatorLosesIffClientless(t, w);
    } else if !a.Failed? {
      forall v | MayCreate(t.passes, v)
        ensures t.passes[v].issued.uid != t.store[p.issued.key].uid
      {
        assert PassOf(t, v) == PassOf(s, v);
      }
      DroppedIsLost(t, p.issued.key);
    }
  }

  lemma MarkedIs(s: State, w: Worker, a: Answer)
    requires Inv(s) && PassOf(s, w).Running? && PassOf(s, w).at.Marking? && Current(s.store, PassOf(s, w).issued)
    ensures var p, t := PassOf(s, w), Next(s, Call(w, a));
      && MovesOnly(s, t, w) && t.flights == s.flights && p.issued.key in t.store
      && StateOf(s.store[p.issued.key].status) == Unsent && t.store[p.issued.key].uid == s.store[p.issued.key].uid
      && (StateOf(t.store[p.issued.key].status) == Sent <==> !a.Failed?)
      && (if a.Done? then MayCreate(t.passes, w) && t.passes[w].issued.key == p.issued.key && t.passes[w].here == p.here
          else PassOf(t, w).Idle?)
  {
    assert Fits(PassOf(s, w), s.operator, s.seen) && PassOf(s, w).issued in s.past;
    CurrentIsStored(s, PassOf(s, w).issued);
    hide Inv, Next;
    MarkWrites(s, w, a);
  }

  lemma MarkWrites(s: State, w: Worker, a: Answer)
    requires PassOf(s, w).Running? && PassOf(s, w).at.Marking? && StateOf(PassOf(s, w).issued.status) == Unsent
    requires PassOf(s, w).issued.key in s.store && s.store[PassOf(s, w).issued.key] == PassOf(s, w).issued
    ensures var p, t := PassOf(s, w), Next(s, Call(w, a));
      && MovesOnly(s, t, w) && t.flights == s.flights && p.issued.key in t.store
      && t.store[p.issued.key].uid == s.store[p.issued.key].uid
      && (StateOf(t.store[p.issued.key].status) == Sent <==> !a.Failed?)
      && (if a.Done? then MayCreate(t.passes, w) && t.passes[w].issued.key == p.issued.key && t.passes[w].here == p.here
          else PassOf(t, w).Idle?)
  {
    hide Look, Talk, AddFinalizer, DeleteByName, DropFinalizer;
  }

  lemma UnsentHasNothing(s: State, key: Key)
    requires Inv(s) && key in s.store
    ensures StateOf(s.store[key].status) == Unsent ==>
      && (forall f | f in s.flights :: s.flights[f].maker != s.store[key].uid)
      && Uncreating(s.passes, s.store[key].uid)
  {
    forall w | MayCreate(s.passes, w) && s.passes[w].issued.uid == s.store[key].uid
      ensures StateOf(s.store[key].status) == Sent
    {
      assert s.store[s.passes[w].issued.key] in s.past && s.store[key] in s.past;
    }
  }

  /** The call that creates loses its record exactly when it was not taken up. */
  lemma CreateLosesIffNotSent(s: State, w: Worker, a: Answer)
    requires Inv(s) && MayCreate(s.passes, w)
    ensures IsLost(Next(s, Call(w, a)), s.passes[w].issued.key) <==> !(a.Done? && s.passes[w].here != "")
  {
    var key, t := s.passes[w].issued.key, Next(s, Call(w, a));
    NextKeeps(s, Call(w, a));
    NothingSentYet(s, w);
    SendIsOneFlight(s, w, a);
    CreateLeavesPrincipals(s, w, a);
    assert MovesOnly(s, t, w) && !MayCreate(t.passes, w);
    hide Inv, Next, Advance, StateOf;
    assert Outstanding(t.flights, t.principals, s.clock) <==> a.Done? && s.passes[w].here != "";
    if !(a.Done? && s.passes[w].here != "") {
      ClientlessButFor(s, t, w);
      DroppedIsLost(t, key);
    }
  }

  /** Stopped between its mark and its create, a pass loses its record whatever it holds. */
  lemma CrashBeforeCreateLoses(s: State, w: Worker)
    requires Inv(s) && MayCreate(s.passes, w)
    ensures IsLost(Next(s, Crash(w)), s.passes[w].issued.key)
  {
    var t := Next(s, Crash(w));
    NextKeeps(s, Crash(w));
    NothingSentYet(s, w);
    ClientlessButFor(s, t, w);
    hide Inv, StateOf;
    DroppedIsLost(t, s.passes[w].issued.key);
  }

  lemma ClientlessButFor(s: State, t: State, w: Worker)
    requires MovesOnly(s, t, w) && MayCreate(s.passes, w) && !MayCreate(t.passes, w)
    requires forall v | MayCreate(s.passes, v) && s.passes[v].issued.uid == s.passes[w].issued.uid :: v == w
    ensures Clientless(t.passes, s.passes[w].issued.uid)
  {
    forall v | MayCreate(t.passes, v)
      ensures v != w && MayCreate(s.passes, v) && t.passes[v] == s.passes[v]
    {
      assert v != w ==> PassOf(t, v) == PassOf(s, v);
    }
  }

  /**
   From wherever a run has got to: a record made and marked with nobody in between, by a pass that had no
   clients, is lost then and for good. The very first run of an operator is one of these.
   */
  lemma MarkedWithoutClientsIsLost(operator: NamespacedName, cluster: Cluster, before: seq<Step>, w: Worker, key: Key,
                                   owner: NamespacedName, token: Token)
    returns (steps: seq<Step>)
    requires var s := Run(Initial(operator, cluster), before);
      key !in s.store && PassOf(s, w).Idle? && Invites(s.cluster, operator, key, owner)
    requires TrimSpace(token.issuer) != "" && token.audience != ""
    ensures forall more :: IsLost(Run(Initial(operator, cluster), before + steps + more), key)
  {
    hide Run, Next, Invites, StateOf;
    var s := Run(Initial(operator, cluster), before);
    Reached(operator, cluster, before);
    RunKeepsOperator(Initial(operator, cluster), before);
    SeesItsCluster(s);
    var t, marks := Marks(s, w, key, owner, "", token);
    RunJoins(Initial(operator, cluster), before, marks);
    Reached(operator, cluster, before + marks);
    steps := marks;
    CreatorLosesIffClientless(t, w);
    forall more
      ensures IsLost(Run(Initial(operator, cluster), before + steps + more), key)
    {
      RunJoins(Initial(operator, cluster), before + steps, more);
      LostForGood(t, more, key);
    }
  }

  lemma SeesItsCluster(s: State)
    requires Inv(s)
    ensures s.cluster in s.seen
  {
  }

  /******* What is not lost can be settled *******/

  /** No marker is ever made of an issuer that is blank. */
  ghost predicate NamesIssuers(s: State) {
    && (forall f | f in s.flights :: TrimSpace(s.flights[f].marker.issuer) != "")
    && (forall w | PassOf(s, w).Running? :: BearsIssuer(PassOf(s, w).at))
  }

  predicate BearsIssuer(at: At) {
    at.Marking? || at.Creating? ==> TrimSpace(at.token.issuer) != ""
  }

  lemma LookBearsIssuer(s: State, p: Pass, a: Answer)
    requires p.Running? && Looks(p.at)
    ensures Look(s, p, a).Running? ==> BearsIssuer(Look(s, p, a).at)
  {
    hide StillWanted, OutOfScope, MayDestroyIn, StateOf;
  }

  lemma TalkNamesIssuers(s: State, w: Worker, p: Pass, a: Answer)
    requires p.Running? && Talks(p.at) && BearsIssuer(p.at) && PassOf(s, w) == p
    requires forall f | f in s.flights :: TrimSpace(s.flights[f].marker.issuer) != ""
    ensures var t := Talk(s, w, p, a);
      && (forall f | f in t.flights :: TrimSpace(t.flights[f].marker.issuer) != "")
      && (PassOf(t, w).Running? ==> BearsIssuer(PassOf(t, w).at))
  {
    hide TrimSpace, SendCreate, Await, Search, Remove, Ensure;
    TalkLeads(s, w, p, a);
    if p.at.Creating? {
      SendNamesIssuer(s, w, p, p.at.token, a);
    }
  }

  lemma SendNamesIssuer(s: State, w: Worker, p: Pass, token: Token, a: Answer)
    requires p.Running? && TrimSpace(token.issuer) != ""
    requires forall f | f in s.flights :: TrimSpace(s.flights[f].marker.issuer) != ""
    ensures var t := SendCreate(s, w, p, token, a);
      forall f | f in t.flights :: TrimSpace(t.flights[f].marker.issuer) != ""
  {
    hide TrimSpace;
  }

  lemma WriteBearsIssuer(s: State, w: Worker, p: Pass, a: Answer)
    requires p.Running? && !Looks(p.at) && !Talks(p.at) && BearsIssuer(p.at)
    ensures PassOf(Write(s, w, p, a), w).Running? ==> BearsIssuer(PassOf(Write(s, w, p, a), w).at)
  {
    hide TrimSpace, Current, Proposed, Put, AddFinalizer, DeleteByName, DropFinalizer;
  }

  lemma CallNamesIssuers(s: State, w: Worker, p: Pass, a: Answer)
    requires NamesIssuers(s) && PassOf(s, w) == p && p.Running?
    ensures NamesIssuers(Advance(s, w, p, a))
  {
    hide Look, Talk, Write, TrimSpace;
    var t := Advance(s, w, p, a);
    assert MovesOnly(s, t, w);
    if Looks(p.at) {
      LookBearsIssuer(s, p, a);
    } else if Talks(p.at) {
      TalkNamesIssuers(s, w, p, a);
    } else {
      WriteBearsIssuer(s, w, p, a);
    }
  }

  lemma BegunBearsIssuer(here: string, version: Record)
    ensures AfterFetch(here, version).Running? ==> BearsIssuer(AfterFetch(here, version).at)
  {
  }

  lemma OthersNameIssuers(s: State, step: Step)
    requires !step.Call? && forall f | f in s.flights :: TrimSpace(s.flights[f].marker.issuer) != ""
    ensures forall f | f in Next(s, step).flights :: TrimSpace(Next(s, step).flights[f].marker.issuer) != ""
  {
    hide TrimSpace, AfterFetch;
  }

  lemma StepNamesIssuers(s: State, step: Step)
    requires NamesIssuers(s)
    ensures NamesIssuers(Next(s, step))
  {
    hide Advance, AfterFetch, TrimSpace, BearsIssuer;
    if step.Call? {
      if PassOf(s, step.worker).Running? {
        CallNamesIssuers(s, step.worker, PassOf(s, step.worker), step.answer);
      }
    } else {
      forall w | PassOf(Next(s, step), w).Running?
        ensures BearsIssuer(PassOf(Next(s, step), w).at)
      {
        RecordDeletes.OthersMoveOnlyTheirs(s, step, w);
        if PassOf(Next(s, step), w) != PassOf(s, w) {
          BegunBearsIssuer(step.here, step.version);
        }
      }
      OthersNameIssuers(s, step);
    }
  }

  lemma {:induction false} RunNamesIssuers(operator: NamespacedName, cluster: Cluster, steps: seq<Step>)
    ensures NamesIssuers(Run(Initial(operator, cluster), steps))
    decreases |steps|
  {
    hide Next;
    if steps != [] {
      RunNamesIssuers(operator, cluster, steps[..|steps| - 1]);
      StepNamesIssuers(Run(Initial(operator, cluster), steps[..|steps| - 1]), steps[|steps| - 1]);
    }
  }

  /** A cluster in which this record is wanted: its annotation is there, and says nothing that lets go of it. */
  function Welcoming(r: Record): Cluster {
    Cluster(map[r.owner := ServiceAccount(r.key.uid, map[Requests.AnnotationFor(r.key.identity) := ""])], None, map[])
  }

  lemma WelcomingWants(operator: NamespacedName, r: Record)
    ensures StillWanted(Welcoming(r), operator, r) && !OutOfScope(Welcoming(r), r.owner.namespace)
  {
    hide Requests.AnnotationFor;
    assert TrimSpace("") == "";
    assert Requests.ParseOperator("").None?;
  }

  /** What is live of a record's own create carries its marker, and the record is one a pass can find it for. */
  lemma LiveIsItsOwn(s: State, key: Key, f: nat)
    requires Inv(s) && NamesIssuers(s) && key in s.store
    requires f in s.flights && s.flights[f].maker == s.store[key].uid && s.flights[f].phase.Landed?
    requires s.flights[f].phase.id in s.principals
    ensures var marker := s.principals[s.flights[f].phase.id].marker;
      marker == Marker(marker.issuer, s.operator, key) && TrimSpace(marker.issuer) != ""
  {
  }

  lemma SentIsHeld(s: State, key: Key)
    requires Inv(s) && key in s.store && StateOf(s.store[key].status) == Sent
    ensures s.store[key].key == key && s.store[key].finalizer && s.store[key] in s.past
  {
  }

  /** The service principal is there: one undisturbed pass writes it down, or removes it and the record with it. */
  lemma SettlesLive(s: State, key: Key, f: nat) returns (steps: seq<Step>)
    requires Inv(s) && NamesIssuers(s) && key in s.store && StateOf(s.store[key].status) == Sent
    requires f in s.flights && s.flights[f].maker == s.store[key].uid && s.flights[f].phase.Landed?
    requires s.flights[f].phase.id in s.principals
    ensures !Waits(s.store[key], Run(s, steps).store)
  {
    hide Inv, Run, NamesIssuers, StillWanted, OutOfScope, Welcoming, TrimSpace;
    LiveIsItsOwn(s, key, f);
    SentIsHeld(s, key);
    var r, id := s.store[key], s.flights[f].phase.id;
    var token := Token(s.principals[id].marker.issuer, "a");
    var idle := Next(s, Crash(0));
    OneStep(s, Crash(0));
    if r.deleting {
      var t, rest := Destroys(idle, 0, key, "a", token, id);
      RunJoins(s, [Crash(0)], rest);
      steps := [Crash(0)] + rest;
    } else {
      var welcome := Next(idle, ClusterChanges(Welcoming(r)));
      AndThen(s, [Crash(0)], ClusterChanges(Welcoming(r)));
      WelcomingWants(s.operator, r);
      var t, rest := Adopts(welcome, 0, key, "a", token, id);
      RunJoins(s, [Crash(0)] + [ClusterChanges(Welcoming(r))], rest);
      steps := [Crash(0)] + [ClusterChanges(Welcoming(r))] + rest;
    }
  }

  lemma SettlesOut(s: State, key: Key, f: nat) returns (steps: seq<Step>)
    requires Inv(s) && NamesIssuers(s) && key in s.store && StateOf(s.store[key].status) == Sent
    requires Outstanding(s.flights, s.principals, f) && s.flights[f].maker == s.store[key].uid
    ensures !Waits(s.store[key], Run(s, steps).store)
  {
    hide Inv, Run, NamesIssuers, StateOf;
    if s.flights[f].phase.InAir? {
      var landed := Next(s, Land(f, ""));
      NextKeeps(s, Land(f, ""));
      StepNamesIssuers(s, Land(f, ""));
      var rest := SettlesLive(landed, key, f);
      OneStep(s, Land(f, ""));
      RunJoins(s, [Land(f, "")], rest);
      steps := [Land(f, "")] + rest;
    } else {
      steps := SettlesLive(s, key, f);
    }
  }

  lemma SettlesSending(s: State, key: Key, w: Worker) returns (steps: seq<Step>)
    requires Inv(s) && NamesIssuers(s) && key in s.store && StateOf(s.store[key].status) == Sent
    requires MayCreate(s.passes, w) && s.passes[w].issued.uid == s.store[key].uid && s.passes[w].here != ""
    ensures !Waits(s.store[key], Run(s, steps).store)
  {
    SendIsOneFlight(s, w, Done);
    CreateLeavesPrincipals(s, w, Done);
    var sent := Next(s, Call(w, Done));
    assert sent == Advance(s, w, s.passes[w], Done);
    hide Inv, Run, NamesIssuers, StateOf, Advance, Next;
    NextKeeps(s, Call(w, Done));
    StepNamesIssuers(s, Call(w, Done));
    var rest := SettlesOut(sent, key, s.clock);
    OneStep(s, Call(w, Done));
    RunJoins(s, [Call(w, Done)], rest);
    steps := [Call(w, Done)] + rest;
  }

  lemma AwaitedIsAdopting(s: State, w: Worker)
    requires PassOf(s, w).Running? && PassOf(s, w).at.Awaiting? && PassOf(s, w).at.flight in s.flights
    requires s.flights[PassOf(s, w).at.flight].phase.Landed?
    ensures var p := PassOf(s, w);
      var phase := s.flights[p.at.flight].phase;
      Next(s, Call(w, Done)) == Move(s, w, Running(p.here, p.issued, Adopting(p.at.token, phase.id, phase.clientId)))
  {
  }

  lemma ReleasedIsGone(s: State, w: Worker)
    requires PassOf(s, w).Running? && PassOf(s, w).at.Releasing?
    requires PassOf(s, w).issued.key in s.store && s.store[PassOf(s, w).issued.key] == PassOf(s, w).issued
    requires PassOf(s, w).issued.deleting
    ensures PassOf(s, w).issued.key !in Next(s, Call(w, Done)).store
  {
  }

  lemma MovedWhereItIs(s: State, w: Worker)
    requires PassOf(s, w).Running?
    ensures Move(s, w, PassOf(s, w)) == s
  {
    assert s.passes[w := s.passes[w]] == s.passes;
  }

  lemma AnswerIsForStored(s: State, key: Key, w: Worker)
    requires Inv(s) && key in s.store && PassOf(s, w).Running? && PassOf(s, w).issued.key == key
    requires Current(s.store, PassOf(s, w).issued)
    ensures s.store[key] == PassOf(s, w).issued
    ensures PassOf(s, w).at.Removing? || PassOf(s, w).at.Releasing? ==> PassOf(s, w).issued.deleting
  {
    assert PassOf(s, w).issued in s.past && Fits(PassOf(s, w), s.operator, s.seen);
    CurrentIsStored(s, PassOf(s, w).issued);
  }

  /** A pass that holds an answer has one or two calls left to write it down. */
  lemma SettlesAnswered(s: State, key: Key, w: Worker) returns (steps: seq<Step>)
    requires Inv(s) && key in s.store && PassOf(s, w).Running? && PassOf(s, w).issued.key == key
    requires Current(s.store, PassOf(s, w).issued) && HoldsAnswer(PassOf(s, w), s.flights)
    ensures !Waits(s.store[key], Run(s, steps).store)
  {
    hide Inv, Run, Next, Current;
    var p := PassOf(s, w);
    AnswerIsForStored(s, key, w);
    MovedWhereItIs(s, w);
    OneStep(s, Call(w, Done));
    AndThen(s, [Call(w, Done)], Call(w, Done));
    steps := if p.at.Removing? || p.at.Awaiting? then [Call(w, Done)] + [Call(w, Done)] else [Call(w, Done)];
    if p.at.Adopting? {
      var _ := AdoptedIs(s, w, p.issued, p.here, p.at.token, p.at.id, p.at.clientId);
    } else if p.at.Releasing? {
      ReleasedIsGone(s, w);
    } else if p.at.Removing? {
      var _ := RemovesAndReleases(s, w, p.issued, p.here, p.at.id);
    } else {
      AwaitedIsAdopting(s, w);
      var phase := s.flights[p.at.flight].phase;
      var _ := AdoptedIs(s, w, p.issued, p.here, p.at.token, phase.id, phase.clientId);
    }
  }

  lemma Settles(s: State, key: Key) returns (steps: seq<Step>)
    requires Inv(s) && NamesIssuers(s) && key in s.store && StateOf(s.store[key].status) == Sent && !IsLost(s, key)
    ensures !Waits(s.store[key], Run(s, steps).store)
  {
    hide Inv, NamesIssuers, Run, Waits, HoldsAnswer, StateOf;
    var uid := s.store[key].uid;
    if f :| Outstanding(s.flights, s.principals, f) && s.flights[f].maker == uid {
      steps := SettlesOut(s, key, f);
    } else if w :| MayCreate(s.passes, w) && s.passes[w].issued.uid == uid && s.passes[w].here != "" {
      steps := SettlesSending(s, key, w);
    } else {
      var w :| PassOf(s, w).Running? && PassOf(s, w).issued.key == key && Current(s.store, PassOf(s, w).issued)
               && HoldsAnswer(PassOf(s, w), s.flights);
      steps := SettlesAnswered(s, key, w);
    }
  }

  /**
   Wherever a run has got to: a marked record is lost exactly when no run from there, whatever anybody
   does and however often it is tried, ever gets it further or lets it go.
   */
  lemma LostIffNeverSettles(operator: NamespacedName, cluster: Cluster, before: seq<Step>, key: Key)
    requires var s := Run(Initial(operator, cluster), before); key in s.store && StateOf(s.store[key].status) == Sent
    ensures var s := Run(Initial(operator, cluster), before);
      IsLost(s, key) <==> forall steps :: Waits(s.store[key], Run(s, steps).store)
  {
    hide Inv, NamesIssuers, Waits, IsLost, StateOf, Next;
    var s := Run(Initial(operator, cluster), before);
    Reached(operator, cluster, before);
    RunNamesIssuers(operator, cluster, before);
    if IsLost(s, key) {
      forall steps
        ensures Waits(s.store[key], Run(s, steps).store)
      {
        LostForGood(s, steps, key);
      }
    } else {
      var steps := Settles(s, key);
    }
  }
}

/**
 Records that stay Sent for good.

 The mark is written before the call and nothing takes it back, so a call that failed for certain -- no
 clients were installed, Databricks refused it, the process stopped first -- is not told from one whose
 answer was lost. What is looked for is then never found.
 */
module LostCreates {
  import opened Names
  import opened Options
  import opened Records
  import opened RecordProtocol
  import opened RecordRuns
  import opened RecordSafety
  import opened RecordTheorems
  import RecordDeletes

  /** A pass that was told what became of the create, or has removed it, and only has to write that down. */
  predicate HoldsAnswer(p: Pass, flights: Flights)
    requires p.Running?
  {
    || p.at.Adopting? || p.at.Releasing?
    || (p.at.Removing? && p.here != "")
    || (p.at.Awaiting? && p.at.flight in flights && flights[p.at.flight].phase.Landed?)
  }

  /** No pass over the version that is stored has an answer to write down. */
  ghost predicate Unanswered(s: State, key: Key) {
    forall w | PassOf(s, w).Running? && PassOf(s, w).issued.key == key && Current(s.store, PassOf(s, w).issued) ::
      !HoldsAnswer(PassOf(s, w), s.flights)
  }

  /** A pass about to create for this incarnation, if there is one, has no clients to do it with. */
  ghost predicate Clientless(passes: Passes, uid: nat) {
    forall w | MayCreate(passes, w) && passes[w].issued.uid == uid :: passes[w].here == ""
  }

  /** Marked, and nothing of it is there, can appear, can be sent, or is known to anybody. */
  ghost predicate IsLost(s: State, key: Key) {
    && key in s.store && StateOf(s.store[key].status) == Sent
    && OnlyThe(s.flights, s.principals, s.store[key].uid, {})
    && Clientless(s.passes, s.store[key].uid)
    && Unanswered(s, key)
  }

  /** The same incarnation, still marked and no further. */
  ghost predicate Waits(before: Record, store: Store) {
    && before.key in store && store[before.key].uid == before.uid
    && StateOf(store[before.key].status) == Sent
  }

  /******* A lost record stays lost *******/

  lemma CurrentPassOfLost(s: State, key: Key, w: Worker)
    requires Inv(s) && IsLost(s, key) && PassOf(s, w).Running?
    requires PassOf(s, w).issued.key == key && Current(s.store, PassOf(s, w).issued)
    ensures !PassOf(s, w).at.Marking? && !PassOf(s, w).at.Latching?
    ensures !PassOf(s, w).at.Adopting? && !PassOf(s, w).at.Releasing?
    ensures PassOf(s, w).issued == s.store[key]
  {
    var p := PassOf(s, w);
    assert Fits(p, s.operator, s.seen);
    CurrentIsStored(s, p.issued);
  }

  lemma CallWaits(s: State, w: Worker, a: Answer, key: Key)
    requires Inv(s) && IsLost(s, key) && PassOf(s, w).Running?
    ensures Waits(s.store[key], Advance(s, w, PassOf(s, w), a).store)
  {
    hide Look, Talk, Write, Next;
    var p := PassOf(s, w);
    if !Looks(p.at) && !Talks(p.at) {
      assert s.store[key] in s.past && Fits(p, s.operator, s.seen);
      if p.issued.key == key && Current(s.store, p.issued) {
        CurrentPassOfLost(s, key, w);
      }
      if p.at.AddingFinalizer? || p.at.Deleting? || p.at.Releasing? {
        MetaWaits(s, w, p, a, key);
      } else {
        WroteStatusOf(s, w, p, a, key);
      }
    }
  }

  lemma MetaWaits(s: State, w: Worker, p: Pass, a: Answer, key: Key)
    requires p.Running? && (p.at.AddingFinalizer? || p.at.Deleting? || p.at.Releasing?)
    requires key in s.store && forall k | k in s.store :: s.store[k].key == k
    requires StateOf(s.store[key].status) == Sent && s.store[key].finalizer
    requires p.issued.key == key && Current(s.store, p.issued) ==> !p.at.Releasing?
    ensures Waits(s.store[key], Write(s, w, p, a).store)
  {
    hide StateOf, Proposed, WriteStatus, Onward, AddFinalizer, DeleteByName, DropFinalizer;
    AddFinalizerIsMeta(s, p.issued, key);
    DeleteIsMeta(s, p.issued.key, key);
    DropFinalizerIsMeta(s, p.issued, key);
  }

  lemma WroteStatusOf(s: State, w: Worker, p: Pass, a: Answer, key: Key)
    requires p.Running? && Writes(p.at)
    requires Fits(p, s.operator, s.seen)
    requires key in s.store && forall k | k in s.store :: s.store[k].key == k
    requires StateOf(s.store[key].status) == Sent
    requires p.issued.key == key && Current(s.store, p.issued) ==> p.at.Reporting? && p.issued == s.store[key]
    ensures Waits(s.store[key], Write(s, w, p, a).store)
  {
    if p.issued.key != key {
      WroteStatus(s, w, p, a);
    }
  }

  lemma StepWaits(s: State, step: Step, key: Key)
    requires Inv(s) && IsLost(s, key)
    ensures Waits(s.store[key], Next(s, step).store)
  {
    hide Advance;
    assert s.store[key].finalizer by { assert s.store[key] in s.past; }
    if step.Call? {
      if PassOf(s, step.worker).Running? {
        CallWaits(s, step.worker, step.answer, key);
      }
    } else {
      OthersWait(s, step, key);
    }
  }

  lemma OthersWait(s: State, step: Step, key: Key)
    requires !step.Call?
    requires key in s.store && forall k | k in s.store :: s.store[k].key == k
    requires StateOf(s.store[key].status) == Sent && s.store[key].finalizer
    ensures Waits(s.store[key], Next(s, step).store)
  {
    if !step.CreateRecord? && !step.DeleteRecord? {
      OthersLeaveStore(s, step);
    }
  }

  /******* Nothing of it comes out *******/

  lemma StepPutsNothingOut(s: State, step: Step, key: Key)
    requires Inv(s) && IsLost(s, key)
    ensures var t := Next(s, step); OnlyThe(t.flights, t.principals, s.store[key].uid, {})
  {
    var uid := s.store[key].uid;
    if step.Call? && MayCreate(s.passes, step.worker) {
      ClientlessSendIsDropped(s, step.worker, step.answer, uid);
    } else if step.Call? {
      if PassOf(s, step.worker).Running? {
        CallsRemoveOnly(s, step.worker, PassOf(s, step.worker), step.answer);
        assert forall f | Outstanding(Next(s, step).flights, Next(s, step).principals, f) ::
          Outstanding(s.flights, s.principals, f);
      }
    } else {
      OthersPutNothingOut(s, step, uid);
    }
  }

  lemma CallsRemoveOnly(s: State, w: Worker, p: Pass, a: Answer)
    requires p.Running? && !p.at.Creating?
    ensures forall id | id in Advance(s, w, p, a).principals :: id in s.principals
  {
    hide Look, Talk, Write;
    if Talks(p.at) {
      TalksRemoveOnly(s, w, p, a);
    } else if !Looks(p.at) {
      WritesRemoveNothing(s, w, p, a);
    }
  }

  lemma TalksRemoveOnly(s: State, w: Worker, p: Pass, a: Answer)
    requires p.Running? && Talks(p.at) && !p.at.Creating?
    ensures forall id | id in Talk(s, w, p, a).principals :: id in s.principals
  {
    hide Search, Report, Go;
  }

  lemma WritesRemoveNothing(s: State, w: Worker, p: Pass, a: Answer)
    requires p.Running? && !Looks(p.at) && !Talks(p.at)
    ensures Write(s, w, p, a).principals == s.principals
  {
    hide WriteStatus, Current, Proposed, Onward;
    if Writes(p.at) {
      StatusRemovesNothing(s, w, p, Proposed(p), a, Onward(p.at));
    }
  }

  lemma StatusRemovesNothing(s: State, w: Worker, p: Pass, status: Status, a: Answer, next: Option<At>)
    requires p.Running?
    ensures WriteStatus(s, w, p, status, a, next).principals == s.principals
  {
  }

  lemma ClientlessSendIsDropped(s: State, w: Worker, a: Answer, uid: nat)
    requires Inv(s) && MayCreate(s.passes, w) && OnlyThe(s.flights, s.principals, uid, {}) && Clientless(s.passes, uid)
    ensures var t := Next(s, Call(w, a)); OnlyThe(t.flights, t.principals, uid, {})
  {
    hide Inv, Advance;
    SendIsOneFlight(s, w, a);
    CreateLeavesPrincipals(s, w, a);
    var t := Advance(s, w, s.passes[w], a);
    forall f | Outstanding(t.flights, t.principals, f) && t.flights[f].maker == uid
      ensures Outstanding(s.flights, s.principals, f)
    {
    }
  }

  lemma CreateLeavesPrincipals(s: State, w: Worker, a: Answer)
    requires MayCreate(s.passes, w) && s.clock !in s.flights
    ensures var t := Advance(s, w, s.passes[w], a);
      && t.principals == s.principals && t.store == s.store
      && s.clock in t.flights
      && t.flights[s.clock].phase == (if a.Done? && s.passes[w].here != "" then InAir else Dropped)
  {
  }

  lemma OthersPutNothingOut(s: State, step: Step, uid: nat)
    requires !step.Call? && Traced(s.principals, s.flights, s.origins, s.operator, s.clock)
    requires OnlyThe(s.flights, s.principals, uid, {})
    ensures var t := Next(s, step); OnlyThe(t.flights, t.principals, uid, {})
  {
    hide AfterFetch;
    var t := Next(s, step);
    forall f | Outstanding(t.flights, t.principals, f) && t.flights[f].maker == uid
      ensures Outstanding(s.flights, s.principals, f)
    {
      if step.Land? && step.flight in s.flights && s.flights[step.flight].phase.InAir? {
        assert Outstanding(s.flights, s.principals, step.flight);
      }
    }
  }

  /** A pass comes to be about to create only by writing the mark itself. */
  lemma NewCreatorMarked(s: State, step: Step, w: Worker)
    requires MayCreate(Next(s, step).passes, w)
    ensures (MayCreate(s.passes, w) && Next(s, step).passes[w] == s.passes[w])
      || (PassOf(s, w).Running? && PassOf(s, w).at.Marking? && Current(s.store, PassOf(s, w).issued)
          && Next(s, step).passes[w].issued.uid == s.store[PassOf(s, w).issued.key].uid)
  {
    hide Look, Talk, Write;
    if step.Call? && PassOf(s, step.worker).Running? {
      assert MovesOnly(s, Next(s, step), step.worker);
      assert w != step.worker ==> PassOf(Next(s, step), w) == PassOf(s, w);
    }
  }

  lemma StepEntitlesNobody(s: State, step: Step, key: Key)
    requires Inv(s) && IsLost(s, key)
    ensures Clientless(Next(s, step).passes, s.store[key].uid)
  {
    hide Next;
    var t := Next(s, step);
    forall w | MayCreate(t.passes, w) && t.passes[w].issued.uid == s.store[key].uid
      ensures t.passes[w].here == ""
    {
      NewCreatorMarked(s, step, w);
      if !(MayCreate(s.passes, w) && t.passes[w] == s.passes[w]) {
        MarkerIsNotLost(s, key, w);
      }
    }
  }

  lemma MarkerIsNotLost(s: State, key: Key, w: Worker)
    requires Inv(s) && IsLost(s, key)
    requires PassOf(s, w).Running? && PassOf(s, w).at.Marking? && Current(s.store, PassOf(s, w).issued)
    ensures s.store[PassOf(s, w).issued.key].uid != s.store[key].uid
  {
    var p := PassOf(s, w);
    assert s.store[p.issued.key] in s.past && s.store[key] in s.past;
    if s.store[p.issued.key].uid == s.store[key].uid {
      CurrentPassOfLost(s, key, w);
    }
  }

  /******* Nobody comes to hold an answer *******/

  /** What is stored of a name is the version it was, or one newer than any copy. */
  lemma StoredIsOldOrNew(s: State, step: Step, key: Key)
    requires key in s.store && forall k | k in s.store :: s.store[k].key == k
    ensures key in Next(s, step).store ==>
      Next(s, step).store[key] == s.store[key] || Next(s, step).store[key].version >= s.clock
  {
    hide Look, Talk, Write;
    if step.Call? && PassOf(s, step.worker).Running? {
      var p := PassOf(s, step.worker);
      if !Looks(p.at) && !Talks(p.at) {
        WrittenIsOldOrNew(s, step.worker, p, step.answer, key);
      }
    }
  }

  lemma WrittenIsOldOrNew(s: State, w: Worker, p: Pass, a: Answer, key: Key)
    requires key in s.store && p.Running? && !Looks(p.at) && !Talks(p.at) && forall k | k in s.store ::
      s.store[k].key == k
    ensures key in Write(s, w, p, a).store ==>
      Write(s, w, p, a).store[key] == s.store[key] || Write(s, w, p, a).store[key].version >= s.clock
  {
    if Writes(p.at) {
      StatusIsOldOrNew(s, w, p, a, key);
    } else {
      hide WriteStatus, AddFinalizer, DeleteByName, DropFinalizer;
      MetaIsOldOrNew(s, p.issued, key);
    }
  }

  lemma PutIsOldOrNew(s: State, r: Record, key: Key)
    requires key in s.store
    ensures key in Put(s, r).store && IsOldOrNew(s, Put(s, r), key)
  {
  }

  lemma MetaIsOldOrNew(s: State, issued: Record, key: Key)
    requires key in s.store && forall k | k in s.store :: s.store[k].key == k
    ensures key in AddFinalizer(s, issued).store ==> IsOldOrNew(s, AddFinalizer(s, issued), key)
    ensures key in DeleteByName(s, issued.key).store ==> IsOldOrNew(s, DeleteByName(s, issued.key), key)
    ensures key in DropFinalizer(s, issued).store ==> IsOldOrNew(s, DropFinalizer(s, issued), key)
  {
    hide Put;
    if issued.key in s.store {
      var r := s.store[issued.key];
      PutIsOldOrNew(s, r.(finalizer := true), key);
      PutIsOldOrNew(s, r.(deleting := true), key);
      PutIsOldOrNew(s, r.(finalizer := false), key);
    }
  }

  predicate IsOldOrNew(s: State, t: State, key: Key)
    requires key in s.store && key in t.store
  {
    t.store[key] == s.store[key] || t.store[key].version >= s.clock
  }

  lemma StatusIsOldOrNew(s: State, w: Worker, p: Pass, a: Answer, key: Key)
    requires key in s.store && p.Running? && Writes(p.at) && forall k | k in s.store :: s.store[k].key == k
    ensures key in Write(s, w, p, a).store &&
      (Write(s, w, p, a).store[key] == s.store[key] || Write(s, w, p, a).store[key].version >= s.clock)
  {
    hide Write;
    WroteStatus(s, w, p, a);
  }

  lemma LandedOrInAir(s: State, step: Step, f: nat)
    requires f in s.flights && s.clock !in s.flights
    ensures f in Next(s, step).flights && Next(s, step).flights[f].phase.Landed? ==>
      s.flights[f].phase.Landed? || s.flights[f].phase.InAir?
  {
    hide Look, Write;
  }

  lemma NothingInAir(s: State, key: Key, f: nat)
    requires IsLost(s, key) && f in s.flights && s.flights[f].maker == s.store[key].uid
    ensures !s.flights[f].phase.InAir?
  {
  }

  lemma SamePassUnanswered(s: State, step: Step, key: Key, w: Worker)
    requires Inv(s) && IsLost(s, key) && PassOf(s, w).Running? && PassOf(s, w).issued.key == key
    requires Current(Next(s, step).store, PassOf(s, w).issued)
    ensures !HoldsAnswer(PassOf(s, w), Next(s, step).flights)
  {
    hide Next, StateOf;
    var p := PassOf(s, w);
    assert p.issued in s.past && Relies(s, p);
    StoredIsOldOrNew(s, step, key);
    CurrentIsStored(s, p.issued);
    assert !HoldsAnswer(p, s.flights);
    if p.at.Awaiting? {
      LandedOrInAir(s, step, p.at.flight);
      NothingInAir(s, key, p.at.flight);
    }
  }

  lemma BegunUnanswered(s: State, here: string, version: Record, key: Key)
    requires Inv(s) && IsLost(s, key) && version in s.past
    ensures var q := AfterFetch(here, version);
      q.Running? && q.issued.key == key && Current(s.store, q.issued) ==> !HoldsAnswer(q, s.flights)
  {
    if version.key == key && Current(s.store, version) {
      CurrentIsStored(s, version);
    }
  }

  lemma LookedUnanswered(s: State, p: Pass, a: Answer)
    requires p.Running? && Looks(p.at)
    ensures var q := Look(s, p, a); q.Running? ==> !HoldsAnswer(q, s.flights)
  {
    hide StateOf, StillWanted, OutOfScope, MayDestroyIn;
  }

  lemma WroteUnanswered(s: State, w: Worker, p: Pass, a: Answer)
    requires p.Running? && !Looks(p.at) && !Talks(p.at)
    ensures var t := Write(s, w, p, a); PassOf(t, w).Running? ==> !HoldsAnswer(PassOf(t, w), t.flights)
  {
    hide Current, Proposed, Put, AddFinalizer, DeleteByName, DropFinalizer;
  }

  lemma FoundIsOut(s: State, issued: Record, token: Token, id: nat)
    requires Inv(s) && issued in s.past && Current(s.store, issued)
    requires id in s.principals && s.principals[id].marker == MarkerOf(s, issued, token)
    ensures id in s.origins && Outstanding(s.flights, s.principals, s.origins[id])
      && s.flights[s.origins[id]].maker == issued.uid
  {
    FoundIsMade(s, issued, token, id);
  }

  lemma SearchedUnanswered(s: State, p: Pass, token: Token, a: Answer, key: Key)
    requires Inv(s) && IsLost(s, key) && p.Running? && p.issued in s.past && p.issued.key == key
      && Current(s.store, p.issued)
    ensures Search(s, p, token, a) == Report(p)
  {
    hide StateOf, Unanswered, Clientless, Inv;
    CurrentIsStored(s, p.issued);
    if Search(s, p, token, a) != Report(p) {
      FoundIsOut(s, p.issued, token, a.id);
    }
  }

  /** What holds of the pass w in t, a call of it later than p, if it is still over the version that is stored. */
  ghost predicate StaysUnanswered(s: State, t: State, w: Worker, p: Pass, key: Key)
    requires p.Running?
  {
    PassOf(t, w).Running? ==>
      PassOf(t, w).issued == p.issued
      && (p.issued.key == key && Current(s.store, p.issued) ==> !HoldsAnswer(PassOf(t, w), t.flights))
  }

  lemma CreatedUnanswered(s: State, w: Worker, p: Pass, token: Token, a: Answer, key: Key)
    requires p.Running?
    ensures StaysUnanswered(s, SendCreate(s, w, p, token, a), w, p, key)
  {
    hide Current;
  }

  lemma AwaitedUnanswered(s: State, w: Worker, p: Pass, a: Answer, key: Key)
    requires PassOf(s, w) == p && p.Running? && p.at.Awaiting?
    requires p.issued.key == key && Current(s.store, p.issued) ==> !HoldsAnswer(p, s.flights)
    ensures StaysUnanswered(s, Await(s, w, p, p.at.token, p.at.flight, a), w, p, key)
  {
    hide Current;
  }

  lemma RemovedUnanswered(s: State, w: Worker, p: Pass, a: Answer, key: Key)
    requires p.Running? && p.at.Removing?
    requires p.issued.key == key && Current(s.store, p.issued) ==> !HoldsAnswer(p, s.flights)
    ensures StaysUnanswered(s, Remove(s, w, p, p.at.id, a), w, p, key)
  {
    hide Current;
  }

  lemma EnsuredUnanswered(s: State, w: Worker, p: Pass, token: Token, a: Answer, key: Key)
    requires p.Running? && p.at == Ensuring(token)
    ensures StaysUnanswered(s, Ensure(s, w, p, token, a), w, p, key)
  {
    hide Current;
  }

  lemma SearchedStays(s: State, w: Worker, p: Pass, token: Token, a: Answer, key: Key)
    requires Inv(s) && IsLost(s, key) && PassOf(s, w) == p && p.Running?
    ensures StaysUnanswered(s, Move(s, w, Search(s, p, token, a)), w, p, key)
  {
    hide IsLost, Current;
    if p.issued.key == key && Current(s.store, p.issued) {
      SearchedUnanswered(s, p, token, a, key);
    }
  }

  lemma TalkedUnanswered(s: State, w: Worker, p: Pass, a: Answer, key: Key)
    requires Inv(s) && IsLost(s, key) && PassOf(s, w) == p && p.Running? && Talks(p.at)
    ensures StaysUnanswered(s, Talk(s, w, p, a), w, p, key)
  {
    hide Inv, SendCreate, Await, Remove, Search, Ensure, StaysUnanswered, HoldsAnswer, Current;
    match p.at
    case Creating(token) => CreatedUnanswered(s, w, p, token, a, key);
    case Awaiting(_, _) => AwaitedUnanswered(s, w, p, a, key);
    case Searching(token) => SearchedStays(s, w, p, token, a, key);
    case Removing(_) => RemovedUnanswered(s, w, p, a, key);
    case Ensuring(token) => EnsuredUnanswered(s, w, p, token, a, key);
  }

  lemma StepAnswersNobody(s: State, step: Step, key: Key)
    requires Inv(s) && IsLost(s, key)
    ensures Unanswered(Next(s, step), key)
  {
    hide Inv, IsLost, HoldsAnswer, Look, Talk, Write, AfterFetch;
    var t := Next(s, step);
    forall w | PassOf(t, w).Running? && PassOf(t, w).issued.key == key && Current(t.store, PassOf(t, w).issued)
      ensures !HoldsAnswer(PassOf(t, w), t.flights)
    {
      if PassOf(t, w) == PassOf(s, w) {
        SamePassUnanswered(s, step, key, w);
      } else if step.Call? {
        assert MovesOnly(s, t, step.worker);
        var p := PassOf(s, w);
        if Looks(p.at) {
          LookedUnanswered(s, p, step.answer);
        } else if Talks(p.at) {
          TalkedUnanswered(s, w, p, step.answer, key);
        } else {
          WroteUnanswered(s, w, p, step.answer);
        }
      } else {
        RecordDeletes.OthersMoveOnlyTheirs(s, step, w);
        BegunUnanswered(s, step.here, step.version, key);
      }
    }
  }

  lemma IsKeyed(s: State, key: Key)
    requires Inv(s) && key in s.store
    ensures s.store[key].key == key
  {
  }

  /** Whatever happens next, by whomever, a lost record is still there and still waiting. */
  lemma {:induction false} LostForGood(s: State, steps: seq<Step>, key: Key)
    requires Inv(s) && IsLost(s, key)
    ensures IsLost(Run(s, steps), key) && Waits(s.store[key], Run(s, steps).store)
    decreases |steps|
  {
    hide Inv, Next, Unanswered, Clientless, OnlyThe;
    IsKeyed(s, key);
    if steps != [] {
      var before, last := steps[..|steps| - 1], steps[|steps| - 1];
      LostForGood(s, before, key);
      RunKeeps(s, before);
      var m := Run(s, before);
      IsKeyed(m, key);
      StepWaits(m, last, key);
      StepPutsNothingOut(m, last, key);
      StepEntitlesNobody(m, last, key);
      StepAnswersNobody(m, last, key);
    }
  }
}

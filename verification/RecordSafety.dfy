/** What each call does to the invariant of the record protocol. */
module RecordSafety {
  import opened Names
  import opened Options
  import opened Records
  import opened RecordProtocol

  /** What a pass relies on survives whatever leaves Databricks alone and makes nothing current again. */
  lemma ReliesCarries(s: State, t: State, p: Pass)
    requires p.Running? && Relies(s, p)
    requires t.flights == s.flights && t.principals == s.principals && t.origins == s.origins
    requires t.operator == s.operator && t.clock >= s.clock
    requires Current(t.store, p.issued) ==> Current(s.store, p.issued)
    requires forall v | MayCreate(t.passes, v) :: MayCreate(s.passes, v) && t.passes[v] == s.passes[v]
    ensures Relies(t, p)
  {
  }

  lemma PassFits(s: State, w: Worker, p: Pass)
    requires Inv(s) && PassOf(s, w) == p && p.Running?
    ensures Fits(p, s.operator, s.seen) && Relies(s, p) && p.issued in s.past
  {
  }

  /** A pass moving on writes nothing: what it must bring is its own reasons. */
  lemma MoveKeeps(s: State, w: Worker, p: Pass)
    requires Inv(s)
    requires p.Running? ==> p.issued in s.past && !p.at.Creating? && Fits(p, s.operator, s.seen) && Relies(s, p)
    ensures Inv(Move(s, w, p))
  {
    var t := Move(s, w, p);
    forall v | MayCreate(t.passes, v)
      ensures MayCreate(s.passes, v) && t.passes[v] == s.passes[v]
    {
    }
    forall v | v in t.passes && t.passes[v].Running?
      ensures Relies(t, t.passes[v])
    {
      ReliesCarries(s, t, t.passes[v]);
    }
  }

  /** A version of a stored incarnation that still stands for what is out of it. */
  ghost predicate StandsFor(s: State, r: Record) {
    && r.key in s.store && r.uid == s.store[r.key].uid && r.owner == s.store[r.key].owner
    && InOrder(r.status) && (StateOf(r.status) != Unsent || r.deleting ==> r.finalizer)
    && (StateOf(s.store[r.key].status) != Unsent ==> StateOf(r.status) != Unsent)
    && (r.status.servicePrincipalId.Some? ==>
         Made(s.flights, s.origins, r.key, r.uid, r.status.servicePrincipalId.value)
         && Given(s.flights, s.origins, r.status.servicePrincipalId.value, r.status.clientId))
    && (forall f | Outstanding(s.flights, s.principals, f) && s.flights[f].maker == r.uid :: Covers(r, s.flights[f]))
    && (Uncreating(s.passes, r.uid) || (r.finalizer && StateOf(r.status) == Sent))
  }

  lemma PutKeepsVersions(s: State, r: Record)
    requires Inv(s) && StandsFor(s, r)
    ensures Versioned(Put(s, r).store, Put(s, r).past, Put(s, r).clock)
  {
    assert s.store[r.key] in s.past;
  }

  lemma PutKeepsFlights(s: State, r: Record)
    requires Inv(s) && StandsFor(s, r)
    ensures Covered(Put(s, r).store, s.flights, s.principals)
    ensures Flown(Put(s, r).store, s.flights, s.operator, Put(s, r).clock)
    ensures Written(Put(s, r).past, s.flights, s.origins)
  {
    forall f | Outstanding(s.flights, s.principals, f)
      ensures s.flights[f].marker.key in Put(s, r).store
        && Covers(Put(s, r).store[s.flights[f].marker.key], s.flights[f])
    {
      assert Covers(s.store[s.flights[f].marker.key], s.flights[f]);
    }
  }

  lemma PutKeepsPasses(s: State, r: Record)
    requires Inv(s) && StandsFor(s, r)
    ensures Entitled(Put(s, r).store, s.flights, s.passes)
    ensures Relying(Put(s, r))
  {
    hide Relies, Written, Covered, Flown, Traced, OneCreateEach, Fitting;
    var t := Put(s, r);
    forall w | w in s.passes && s.passes[w].Running?
      ensures Relies(t, s.passes[w])
    {
      assert s.passes[w].issued in s.past;
      ReliesCarries(s, t, s.passes[w]);
    }
    forall w | MayCreate(s.passes, w) && s.passes[w].issued.key == r.key
      ensures s.passes[w].issued.uid == r.uid && r.finalizer && StateOf(r.status) == Sent
    {
    }
  }

  /** Writing a version of a stored incarnation, where the version still stands for what is out. */
  lemma PutKeeps(s: State, r: Record)
    requires Inv(s) && StandsFor(s, r)
    ensures Inv(Put(s, r))
  {
    PutKeepsVersions(s, r);
    PutKeepsFlights(s, r);
    PutKeepsPasses(s, r);
    assert forall w | w in s.passes && s.passes[w].Running? :: s.passes[w].issued in s.past;
  }

  /** A version that changes nothing the protocol reads: finalizer on, deletion asked for, other fields. */
  lemma PutSameKeeps(s: State, r: Record)
    requires Inv(s)
    requires r.key in s.store && r.uid == s.store[r.key].uid && r.owner == s.store[r.key].owner
    requires (s.store[r.key].finalizer ==> r.finalizer) && (r.deleting ==> r.finalizer)
    requires r.status == s.store[r.key].status.(issuer := r.status.issuer, audience := r.status.audience)
    ensures Inv(Put(s, r))
  {
    if !Uncreating(s.passes, r.uid) {
      var w :| MayCreate(s.passes, w) && s.passes[w].issued.uid == r.uid;
      CreatorIsCurrent(s, w, r.key);
    }
    PutKeeps(s, r);
  }

  /** A creator's incarnation is the stored one of its name, marked and held. */
  lemma CreatorIsCurrent(s: State, w: Worker, key: Key)
    requires Inv(s) && MayCreate(s.passes, w) && key in s.store && s.store[key].uid == s.passes[w].issued.uid
    ensures s.passes[w].issued.key == key && s.store[key].finalizer && StateOf(s.store[key].status) == Sent
  {
    assert s.passes[w].issued in s.past && s.store[key] in s.past;
  }

  lemma ForgetRelies(s: State, key: Key)
    requires Relying(s)
    ensures Relying(s.(store := s.store - {key}))
  {
    hide Relies;
    var t := s.(store := s.store - {key});
    forall w | w in t.passes && t.passes[w].Running?
      ensures Relies(t, t.passes[w])
    {
      ReliesCarries(s, t, s.passes[w]);
    }
  }

  lemma ForgetCovers(s: State, key: Key)
    requires Inv(s) && key in s.store
    requires OnlyThe(s.flights, s.principals, s.store[key].uid, {})
    ensures Covered(s.store - {key}, s.flights, s.principals)
  {
    hide Relying, Written, OneCreateEach, Traced, Fitting, Entitled;
    forall f | Outstanding(s.flights, s.principals, f)
      ensures s.flights[f].marker.key in s.store - {key}
    {
      assert Covers(s.store[s.flights[f].marker.key], s.flights[f]);
    }
  }

  /** An incarnation nothing is out for may go. */
  lemma ForgetKeeps(s: State, key: Key)
    requires Inv(s) && key in s.store
    requires OnlyThe(s.flights, s.principals, s.store[key].uid, {}) && Uncreating(s.passes, s.store[key].uid)
    ensures Inv(s.(store := s.store - {key}))
  {
    hide Relying, Written, OneCreateEach, Traced, Fitting, Covered, OnlyThe;
    ForgetRelies(s, key);
    ForgetCovers(s, key);
  }

  /** A record nobody holds has sent nothing. */
  lemma UnheldIsSettled(s: State, key: Key)
    requires Inv(s) && key in s.store && !s.store[key].finalizer
    ensures OnlyThe(s.flights, s.principals, s.store[key].uid, {}) && Uncreating(s.passes, s.store[key].uid)
  {
    forall w | MayCreate(s.passes, w)
      ensures s.passes[w].issued.uid != s.store[key].uid
    {
      if s.passes[w].issued.uid == s.store[key].uid {
        CreatorIsCurrent(s, w, key);
      }
    }
  }

  lemma DeleteByNameKeeps(s: State, key: Key)
    requires Inv(s)
    ensures Inv(DeleteByName(s, key))
  {
    if key in s.store && !s.store[key].deleting {
      if s.store[key].finalizer {
        PutSameKeeps(s, s.store[key].(deleting := true));
      } else {
        UnheldIsSettled(s, key);
        ForgetKeeps(s, key);
      }
    }
  }

  lemma CreateRecordKeeps(s: State, key: Key, owner: NamespacedName, finalizer: bool)
    requires Inv(s)
    ensures Inv(Next(s, CreateRecord(key, owner, finalizer)))
  {
    if key !in s.store {
      var r := Record(key, owner, s.clock, s.clock + 1, finalizer, false, NEW_STATUS);
      var t := s.(store := s.store[r.key := r], past := s.past + {r}, clock := s.clock + 2);
      NewRecordIs(s, t, r);
      NewRecordKeeps(s, t, r);
    }
  }

  lemma NewRecordKeeps(s: State, t: State, r: Record)
    requires Inv(s) && r.key !in s.store
    requires r == Record(r.key, r.owner, s.clock, s.clock + 1, r.finalizer, false, NEW_STATUS)
    requires t == s.(store := s.store[r.key := r], past := s.past + {r}, clock := s.clock + 2)
    ensures Inv(t)
  {
    NewRecordVersioned(s.store, s.past, s.clock, r);
    NewRecordCovers(s.store, s.flights, s.principals, s.operator, s.clock, r);
    NewRecordTraced(s, r);
    NewRecordLeavesPasses(s, t, r);
  }

  lemma NewRecordIs(s: State, t: State, r: Record)
    requires r.key !in s.store && r == Record(r.key, r.owner, s.clock, s.clock + 1, r.finalizer, false, NEW_STATUS)
    requires t == s.(store := s.store[r.key := r], past := s.past + {r}, clock := s.clock + 2)
    ensures t == Next(s, CreateRecord(r.key, r.owner, r.finalizer))
  {
  }

  lemma NewRecordTraced(s: State, r: Record)
    requires Written(s.past, s.flights, s.origins) && r.status == NEW_STATUS && !r.deleting
    requires Traced(s.principals, s.flights, s.origins, s.operator, s.clock) && Copies(s.passes, s.past)
    ensures Written(s.past + {r}, s.flights, s.origins)
    ensures Traced(s.principals, s.flights, s.origins, s.operator, s.clock + 2)
    ensures Copies(s.passes, s.past + {r})
  {
  }

  lemma NewRecordVersioned(store: Store, past: set<Record>, clock: nat, r: Record)
    requires Versioned(store, past, clock) && r.version == clock + 1 && r.uid == clock
    ensures Versioned(store[r.key := r], past + {r}, clock + 2)
  {
  }

  lemma NewRecordCovers(store: Store, flights: Flights, live: Live, operator: NamespacedName, clock: nat, r: Record)
    requires Covered(store, flights, live) && Flown(store, flights, operator, clock)
    requires r.key !in store && r.uid == clock
    ensures Covered(store[r.key := r], flights, live) && Flown(store[r.key := r], flights, operator, clock + 2)
  {
    forall f | Outstanding(flights, live, f)
      ensures flights[f].marker.key != r.key
    {
    }
  }

  lemma NewRecordLeavesPasses(s: State, t: State, r: Record)
    requires Versioned(s.store, s.past, s.clock) && Copies(s.passes, s.past) && Relying(s)
    requires Entitled(s.store, s.flights, s.passes)
    requires t.passes == s.passes && t.flights == s.flights && t.principals == s.principals && t.origins == s.origins
    requires t.operator == s.operator && t.clock >= s.clock
    requires r.key !in s.store && r.version >= s.clock && t.store == s.store[r.key := r]
    ensures Relying(t) && Entitled(t.store, t.flights, t.passes)
  {
    forall w | w in t.passes && t.passes[w].Running?
      ensures Relies(t, t.passes[w])
    {
      assert s.passes[w].issued in s.past;
      ReliesCarries(s, t, s.passes[w]);
    }
  }

  lemma LandTraced(live: Live, flights: Flights, origins: map<nat, nat>, operator: NamespacedName, clock: nat, f: nat,
                   clientId: string)
    requires Traced(live, flights, origins, operator, clock)
    requires f in flights && flights[f].phase.InAir?
    ensures Traced(live[clock := Principal(flights[f].marker, clientId)],
                   flights[f := flights[f].(phase := Landed(clock, clientId))],
                   origins[clock := f], operator, clock + 1)
  {
  }

  /** What is out is the same after a create lands, and it is out under the same flights. */
  lemma LandOutstanding(live: Live, flights: Flights, origins: map<nat, nat>, operator: NamespacedName, clock: nat,
                        f: nat, clientId: string, g: nat)
    requires Traced(live, flights, origins, operator, clock)
    requires f in flights && flights[f].phase.InAir?
    ensures var live' := live[clock := Principal(flights[f].marker, clientId)];
            var flights' := flights[f := flights[f].(phase := Landed(clock, clientId))];
            Outstanding(flights', live', g) <==> Outstanding(flights, live, g)
  {
    if g in flights && g != f && flights[g].phase.Landed? {
      assert flights[g].phase.id in origins;
    }
  }

  lemma LandCovered(store: Store, live: Live, flights: Flights, origins: map<nat, nat>, operator: NamespacedName,
                    clock: nat, f: nat, clientId: string)
    requires Covered(store, flights, live) && Traced(live, flights, origins, operator, clock)
    requires f in flights && flights[f].phase.InAir?
    ensures Covered(store, flights[f := flights[f].(phase := Landed(clock, clientId))],
                    live[clock := Principal(flights[f].marker, clientId)])
  {
    var live' := live[clock := Principal(flights[f].marker, clientId)];
    var flights' := flights[f := flights[f].(phase := Landed(clock, clientId))];
    forall g | Outstanding(flights', live', g)
      ensures flights'[g].marker.key in store && Covers(store[flights'[g].marker.key], flights'[g])
    {
      LandOutstanding(live, flights, origins, operator, clock, f, clientId, g);
    }
  }

  lemma LandKeepsWritten(store: Store, past: set<Record>, flights: Flights, origins: map<nat, nat>,
                         operator: NamespacedName, clock: nat, f: nat, clientId: string)
    requires Written(past, flights, origins) && OneCreateEach(flights) && Flown(store, flights, operator, clock)
    requires f in flights && flights[f].phase.InAir? && clock !in origins
    ensures var flights' := flights[f := flights[f].(phase := Landed(clock, clientId))];
      OneCreateEach(flights') && Flown(store, flights', operator, clock + 1)
      && Written(past, flights', origins[clock := f])
  {
    var flights' := flights[f := flights[f].(phase := Landed(clock, clientId))];
    forall r | r in past && r.status.servicePrincipalId.Some?
      ensures Made(flights', origins[clock := f], r.key, r.uid, r.status.servicePrincipalId.value)
      ensures Given(flights', origins[clock := f], r.status.servicePrincipalId.value, r.status.clientId)
    {
      assert Made(flights, origins, r.key, r.uid, r.status.servicePrincipalId.value);
    }
  }

  lemma LandAccounts(s: State, t: State, f: nat, clientId: string, p: Pass)
    requires f in s.flights && s.flights[f].phase.InAir? && t == Next(s, Land(f, clientId))
    requires Traced(s.principals, s.flights, s.origins, s.operator, s.clock)
    requires p.Running? && Accounts(p, s.flights, s.principals, s.passes)
    ensures Accounts(p, t.flights, t.principals, t.passes)
  {
    hide Traced;
    if Accounted(p).Some? {
      forall g | Outstanding(t.flights, t.principals, g) && t.flights[g].maker == p.issued.uid
        ensures t.flights[g].phase.Landed? && t.flights[g].phase.id in Accounted(p).value
      {
        LandOutstanding(s.principals, s.flights, s.origins, s.operator, s.clock, f, clientId, g);
      }
    }
  }

  lemma LandRelied(s: State, t: State, f: nat, clientId: string, p: Pass)
    requires f in s.flights && s.flights[f].phase.InAir? && t == Next(s, Land(f, clientId))
    requires Traced(s.principals, s.flights, s.origins, s.operator, s.clock)
    requires p.Running? && Relies(s, p)
    ensures Relies(t, p)
  {
    hide StateOf, Accounts;
    if Current(s.store, p.issued) {
      LandAccounts(s, t, f, clientId, p);
    }
    if HasLanded(s.flights, p.issued.uid) {
      var g :| g in s.flights && s.flights[g].maker == p.issued.uid && s.flights[g].phase.Landed?;
      assert t.flights[g] == s.flights[g];
    }
  }

  lemma LandKeeps(s: State, f: nat, clientId: string)
    requires Inv(s)
    ensures Inv(Next(s, Land(f, clientId)))
  {
    if f in s.flights && s.flights[f].phase.InAir? {
      var t := Next(s, Land(f, clientId));
      LandTraced(s.principals, s.flights, s.origins, s.operator, s.clock, f, clientId);
      LandCovered(s.store, s.principals, s.flights, s.origins, s.operator, s.clock, f, clientId);
      LandKeepsWritten(s.store, s.past, s.flights, s.origins, s.operator, s.clock, f, clientId);
      LandKeepsRelying(s, t, f, clientId);
    }
  }

  lemma LandKeepsRelying(s: State, t: State, f: nat, clientId: string)
    requires f in s.flights && s.flights[f].phase.InAir? && t == Next(s, Land(f, clientId))
    requires Traced(s.principals, s.flights, s.origins, s.operator, s.clock) && Relying(s)
    requires Entitled(s.store, s.flights, s.passes)
    ensures Relying(t) && Entitled(t.store, t.flights, t.passes)
  {
    forall w | w in t.passes && t.passes[w].Running?
      ensures Relies(t, t.passes[w])
    {
      LandRelied(s, t, f, clientId, s.passes[w]);
    }
  }

  lemma DropKeepsFlights(store: Store, past: set<Record>, flights: Flights, live: Live, origins: map<nat, nat>,
                         operator: NamespacedName, clock: nat, f: nat)
    requires f in flights && flights[f].phase.InAir?
    requires Covered(store, flights, live) && OneCreateEach(flights) && Flown(store, flights, operator, clock)
    requires Traced(live, flights, origins, operator, clock) && Written(past, flights, origins)
    ensures var flights' := flights[f := flights[f].(phase := Dropped)];
      && Covered(store, flights', live) && OneCreateEach(flights') && Flown(store, flights', operator, clock)
      && Traced(live, flights', origins, operator, clock) && Written(past, flights', origins)
  {
    var flights' := flights[f := flights[f].(phase := Dropped)];
    forall g | Outstanding(flights', live, g)
      ensures Outstanding(flights, live, g)
    {
    }
  }

  lemma DropKeepsPasses(s: State, t: State, f: nat)
    requires Relying(s) && Entitled(s.store, s.flights, s.passes)
    requires f in s.flights && s.flights[f].phase.InAir? && t == Next(s, Drop(f))
    ensures Relying(t) && Entitled(t.store, t.flights, t.passes)
  {
    forall w | w in s.passes && s.passes[w].Running?
      ensures Relies(t, s.passes[w])
    {
      assert Relies(s, s.passes[w]);
      assert forall g :: Outstanding(t.flights, t.principals, g) ==> Outstanding(s.flights, s.principals, g);
    }
  }

  lemma DropKeeps(s: State, f: nat)
    requires Inv(s)
    ensures Inv(Next(s, Drop(f)))
  {
    if f in s.flights && s.flights[f].phase.InAir? {
      DropKeepsFlights(s.store, s.past, s.flights, s.principals, s.origins, s.operator, s.clock, f);
      DropKeepsPasses(s, Next(s, Drop(f)), f);
    }
  }

  lemma PrincipalDeletedKeeps(s: State, id: nat)
    requires Inv(s)
    ensures Inv(Next(s, PrincipalDeleted(id)))
  {
    hide Written, Entitled, Fitting, Versioned, OneCreateEach;
  }

  lemma ForeignIsNotOut(live: Live, flights: Flights, origins: map<nat, nat>, operator: NamespacedName, clock: nat,
                        principal: Principal, f: nat)
    requires Traced(live, flights, origins, operator, clock)
    ensures Outstanding(flights, live[clock := principal], f) <==> Outstanding(flights, live, f)
  {
    if f in flights && flights[f].phase.Landed? {
      assert flights[f].phase.id in origins;
    }
  }

  lemma ForeignTraced(store: Store, live: Live, flights: Flights, origins: map<nat, nat>, operator: NamespacedName,
                      clock: nat, principal: Principal)
    requires Traced(live, flights, origins, operator, clock) && Covered(store, flights, live)
    requires principal.marker.operator != operator
    ensures Traced(live[clock := principal], flights, origins, operator, clock + 1)
    ensures Covered(store, flights, live[clock := principal])
  {
    forall f | Outstanding(flights, live[clock := principal], f)
      ensures Outstanding(flights, live, f)
    {
      ForeignIsNotOut(live, flights, origins, operator, clock, principal, f);
    }
  }

  lemma ForeignRelied(s: State, principal: Principal, p: Pass)
    requires Traced(s.principals, s.flights, s.origins, s.operator, s.clock)
    requires p.Running? && Relies(s, p)
    ensures Relies(s.(principals := s.principals[s.clock := principal], clock := s.clock + 1), p)
  {
    forall f
      ensures Outstanding(s.flights, s.principals[s.clock := principal], f) <==> Outstanding(s.flights, s.principals, f)
    {
      ForeignIsNotOut(s.principals, s.flights, s.origins, s.operator, s.clock, principal, f);
    }
  }

  lemma ForeignPrincipalKeeps(s: State, principal: Principal)
    requires Inv(s)
    ensures Inv(Next(s, ForeignPrincipal(principal)))
  {
    if principal.marker.operator != s.operator {
      ForeignTraced(s.store, s.principals, s.flights, s.origins, s.operator, s.clock, principal);
      forall w | w in s.passes && s.passes[w].Running?
        ensures Relies(s.(principals := s.principals[s.clock := principal], clock := s.clock + 1), s.passes[w])
      {
        ForeignRelied(s, principal, s.passes[w]);
      }
    }
  }

  lemma ClusterChangesKeeps(s: State, cluster: Cluster)
    requires Inv(s)
    ensures Inv(Next(s, ClusterChanges(cluster)))
  {
  }

  /******* The calls of a pass *******/

  lemma CurrentIsStored(s: State, issued: Record)
    requires Inv(s) && issued in s.past && Current(s.store, issued)
    ensures s.store[issued.key] == issued
  {
  }

  /** What a record's state alone says is left of it. */
  lemma StateSettles(s: State, issued: Record)
    requires Inv(s) && issued in s.past && Current(s.store, issued) && StateOf(issued.status) != Sent
    ensures Uncreating(s.passes, issued.uid)
    ensures OnlyThe(s.flights, s.principals, issued.uid,
                    if StateOf(issued.status) == Known then {issued.status.servicePrincipalId.value} else {})
  {
    CurrentIsStored(s, issued);
    forall w | MayCreate(s.passes, w)
      ensures s.passes[w].issued.uid != issued.uid
    {
      if s.passes[w].issued.uid == issued.uid {
        CreatorIsCurrent(s, w, issued.key);
      }
    }
    forall f | Outstanding(s.flights, s.principals, f) && s.flights[f].maker == issued.uid
      ensures Covers(issued, s.flights[f])
    {
      CoverIsCurrent(s, f, issued.key);
    }
  }

  /** What is out of an incarnation is covered by the stored version of it. */
  lemma CoverIsCurrent(s: State, f: nat, key: Key)
    requires Inv(s) && Outstanding(s.flights, s.principals, f)
    requires key in s.store && s.store[key].uid == s.flights[f].maker
    ensures s.flights[f].marker.key == key && Covers(s.store[key], s.flights[f])
  {
    assert Covers(s.store[s.flights[f].marker.key], s.flights[f]);
  }

  lemma BeginKeeps(s: State, w: Worker, version: Record, here: string)
    requires Inv(s) && version in s.past
    ensures Inv(Move(s, w, AfterFetch(here, version)))
  {
    hide Inv;
    BegunRelies(s, here, version);
    MoveKeeps(s, w, AfterFetch(here, version));
  }

  lemma BegunRelies(s: State, here: string, version: Record)
    requires Inv(s) && version in s.past
    ensures var p := AfterFetch(here, version);
      p.Running? ==> Fits(p, s.operator, s.seen) && Relies(s, p)
  {
    if Current(s.store, version) && StateOf(version.status) != Sent {
      StateSettles(s, version);
    }
    if Current(s.store, version) {
      CurrentIsStored(s, version);
    }
  }

  lemma AskKeeps(s: State, w: Worker, p: Pass, a: Answer)
    requires Inv(s) && PassOf(s, w) == p && p.Running? && p.at.Asking?
    ensures Inv(Move(s, w, Ask(s, p, a)))
  {
    MoveKeeps(s, w, Ask(s, p, a));
  }

  lemma ScopeKeeps(s: State, w: Worker, p: Pass, account: Cluster)
    requires Inv(s) && PassOf(s, w) == p && p.Running? && p.at.Locating? && account in s.seen
    ensures Inv(Move(s, w, AfterScope(p, account)))
  {
    MoveKeeps(s, w, AfterScope(p, account));
  }

  lemma CheckClaimKeeps(s: State, w: Worker, p: Pass, a: Answer)
    requires Inv(s) && PassOf(s, w) == p && p.Running? && p.at.CheckingClaim?
    ensures Inv(Move(s, w, CheckClaim(s, p, p.at.account, a)))
  {
    MoveKeeps(s, w, CheckClaim(s, p, p.at.account, a));
  }

  lemma PreparingKeeps(s: State, w: Worker, p: Pass, a: Answer)
    requires Inv(s) && PassOf(s, w) == p && p.Running? && p.at.Preparing?
    ensures Inv(Move(s, w, Look(s, p, a)))
  {
    MoveKeeps(s, w, Look(s, p, a));
  }

  lemma PoliciesKeep(s: State, policies: map<nat, Trust>)
    requires Inv(s)
    ensures Inv(s.(policies := policies))
  {
    var t := s.(policies := policies);
    hide Versioned, Covered, Flown, Traced, Entitled, Written, Fits, Relies;
    forall w | w in t.passes && t.passes[w].Running?
      ensures Relies(t, t.passes[w])
    {
      ReliesCarries(s, t, t.passes[w]);
    }
  }

  lemma EnsuringKeeps(s: State, w: Worker, p: Pass, token: Token, a: Answer)
    requires Inv(s) && PassOf(s, w) == p && p.Running? && p.at == Ensuring(token)
    ensures Inv(Ensure(s, w, p, token, a))
  {
    var q := Go(p, Reporting(p.issued.status.(issuer := token.issuer, audience := token.audience)));
    hide Inv;
    EnsuredFits(s, w, p, q);
    MoveKeeps(s, w, q);
    var id := p.issued.status.servicePrincipalId;
    if id.Some? {
      var policies := s.policies[id.value := Trust(token.issuer, p.issued.owner, token.audience)];
      PoliciesKeep(Move(s, w, q), policies);
      assert Move(s, w, q).(policies := policies) == Move(s.(policies := policies), w, q);
    }
  }

  lemma EnsuredFits(s: State, w: Worker, p: Pass, q: Pass)
    requires Inv(s) && PassOf(s, w) == p && p.Running? && p.at.Ensuring? && q.Running? && q == Go(p, q.at)
    requires q.at.Reporting?
      && q.at.status == p.issued.status.(issuer := q.at.status.issuer, audience := q.at.status.audience)
    ensures p.issued in s.past && Fits(q, s.operator, s.seen) && Relies(s, q)
  {
  }

  lemma ReportKeeps(s: State, w: Worker, p: Pass)
    requires Inv(s) && PassOf(s, w) == p && p.Running?
    ensures Inv(Move(s, w, Report(p)))
  {
    MoveKeeps(s, w, Report(p));
  }

  /** One flight of one incarnation is all there can be of it. */
  lemma OneFlightIsAll(s: State, f: nat)
    requires Inv(s) && f in s.flights && s.flights[f].phase.Landed?
    ensures OnlyThe(s.flights, s.principals, s.flights[f].maker, {s.flights[f].phase.id})
    ensures Uncreating(s.passes, s.flights[f].maker)
    ensures Made(s.flights, s.origins, s.flights[f].marker.key, s.flights[f].maker, s.flights[f].phase.id)
  {
  }

  lemma AwaitKeeps(s: State, w: Worker, p: Pass, a: Answer)
    requires Inv(s) && PassOf(s, w) == p && p.Running? && p.at.Awaiting?
    ensures Inv(Await(s, w, p, p.at.token, p.at.flight, a))
  {
    if a.Done? {
      assert Relies(s, p) && Fits(p, s.operator, s.seen);
      if s.flights[p.at.flight].phase.Landed? {
        OneFlightIsAll(s, p.at.flight);
        MoveKeeps(s, w, PassOf(Await(s, w, p, p.at.token, p.at.flight, a), w));
      }
    } else {
      ReportKeeps(s, w, p);
    }
  }

  /** A listing that shows this record's marker shows what this record's incarnation made. */
  lemma FoundIsMade(s: State, issued: Record, token: Token, id: nat)
    requires Inv(s) && issued in s.past && Current(s.store, issued)
    requires id in s.principals && s.principals[id].marker == MarkerOf(s, issued, token)
    ensures OnlyThe(s.flights, s.principals, issued.uid, {id}) && Uncreating(s.passes, issued.uid)
    ensures Made(s.flights, s.origins, issued.key, issued.uid, id)
    ensures Given(s.flights, s.origins, id, s.principals[id].clientId)
  {
    CurrentIsStored(s, issued);
    var f := s.origins[id];
    assert Outstanding(s.flights, s.principals, f);
    OneFlightIsAll(s, f);
  }

  lemma FoundRelies(s: State, p: Pass, token: Token, a: Answer)
    requires Inv(s) && p.Running? && p.at.Searching? && p.issued in s.past && Search(s, p, token, a) != Report(p)
    ensures Relies(s, Search(s, p, token, a))
  {
    if Current(s.store, p.issued) {
      FoundIsMade(s, p.issued, token, a.id);
    }
  }

  lemma SearchingKeeps(s: State, w: Worker, p: Pass, token: Token, a: Answer)
    requires Inv(s) && PassOf(s, w) == p && p.Running? && p.at == Searching(token)
    ensures Inv(Move(s, w, Search(s, p, token, a)))
  {
    var q := Search(s, p, token, a);
    assert p.issued in s.past && Fits(p, s.operator, s.seen);
    if q != Report(p) {
      FoundRelies(s, p, token, a);
    }
    MoveKeeps(s, w, q);
  }

  /** A get by id that finds nothing leaves nothing of a record that is current. */
  lemma LatchingRelies(s: State, p: Pass, q: Pass)
    requires Inv(s) && p.Running? && p.at.Probing? && p.issued in s.past && q.Running? && q == Go(p, q.at)
      && q.at.Latching?
    requires StateOf(p.issued.status) == Known && p.issued.status.servicePrincipalId.value !in s.principals
    ensures Relies(s, q)
  {
    if Current(s.store, p.issued) {
      StateSettles(s, p.issued);
    }
  }

  lemma ProbingKeeps(s: State, w: Worker, p: Pass, a: Answer)
    requires Inv(s) && PassOf(s, w) == p && p.Running? && p.at.Probing?
    ensures Inv(Move(s, w, Look(s, p, a)))
  {
    var q := Look(s, p, a);
    assert p.issued in s.past && Fits(p, s.operator, s.seen);
    if q.at.Latching? {
      LatchingRelies(s, p, q);
    }
    MoveKeeps(s, w, q);
  }

  /** Once the id is gone, nothing of the incarnation is left. */
  lemma RemovedIsSettled(s: State, p: Pass, q: Pass)
    requires p.Running? && p.at.Removing? && Relies(s, p)
    requires q == Go(p, Releasing) || q == Report(p)
    ensures Relies(s.(principals := s.principals - {p.at.id}), q)
  {
    var live := s.principals - {p.at.id};
    if q.at.Releasing? && Current(s.store, p.issued) {
      forall f | Outstanding(s.flights, live, f) && s.flights[f].maker == p.issued.uid
        ensures false
      {
        assert Outstanding(s.flights, s.principals, f);
      }
      assert s.origins[p.at.id] in s.flights;
    }
  }

  lemma RemoveKeeps(s: State, w: Worker, p: Pass, id: nat, a: Answer)
    requires Inv(s) && PassOf(s, w) == p && p.Running? && p.at == Removing(id)
    ensures Inv(Remove(s, w, p, id, a))
  {
    hide Inv, Relies;
    if p.here == "" || !(a.Done? || a.Lost?) {
      ReportKeeps(s, w, p);
    } else {
      var t := s.(principals := s.principals - {id});
      var q := if a.Done? then Go(p, Releasing) else Report(p);
      PassFits(s, w, p);
      RemovedIsSettled(s, p, q);
      PrincipalDeletedKeeps(s, id);
      assert t == Next(s, PrincipalDeleted(id));
      MoveKeeps(t, w, q);
    }
  }

  lemma DropFinalizerKeeps(s: State, w: Worker, p: Pass)
    requires Inv(s) && PassOf(s, w) == p && p.Running? && p.at.Releasing?
    ensures Inv(DropFinalizer(s, p.issued))
  {
    hide Inv, StateOf;
    PassFits(s, w, p);
    if Current(s.store, p.issued) {
      CurrentIsStored(s, p.issued);
      ForgetKeeps(s, p.issued.key);
    }
  }

  lemma SendCreateFlies(s: State, w: Worker, p: Pass, token: Token, phase: Phase)
    requires Inv(s) && PassOf(s, w) == p && p.Running? && p.at == Creating(token)
    requires phase == InAir || phase == Dropped
    ensures var flights := s.flights[s.clock := Flight(p.issued.uid, MarkerOf(s, p.issued, token), phase)];
      && Covered(s.store, flights, s.principals) && OneCreateEach(flights)
      && Flown(s.store, flights, s.operator, s.clock + 1)
      && Traced(s.principals, flights, s.origins, s.operator, s.clock + 1) && Written(s.past, flights, s.origins)
  {
    hide Inv, Covered, Flown, Traced, OneCreateEach, Written;
    var flights := s.flights[s.clock := Flight(p.issued.uid, MarkerOf(s, p.issued, token), phase)];
    SendCreateCovered(s, flights, w, p);
    SendCreateFlown(s, flights, w, p);
    SendCreateTraced(s, flights, w, p);
  }

  lemma SendCreateTraced(s: State, flights: Flights, w: Worker, p: Pass)
    requires Inv(s) && MayCreate(s.passes, w) && s.passes[w] == p
    requires s.clock in flights && flights[s.clock].maker == p.issued.uid
    requires flights == s.flights[s.clock := flights[s.clock]] && !flights[s.clock].phase.Landed?
    ensures OneCreateEach(flights) && Traced(s.principals, flights, s.origins, s.operator, s.clock + 1)
    ensures Written(s.past, flights, s.origins)
  {
    hide Relying, Fitting, Covered, Versioned;
  }

  lemma SendCreateCovered(s: State, flights: Flights, w: Worker, p: Pass)
    requires Inv(s) && MayCreate(s.passes, w) && s.passes[w] == p
    requires s.clock in flights && flights[s.clock].maker == p.issued.uid && flights[s.clock].marker.key == p.issued.key
    requires flights == s.flights[s.clock := flights[s.clock]] && !flights[s.clock].phase.Landed?
    ensures Covered(s.store, flights, s.principals)
  {
    hide Relying, Written, Traced, Fitting, OneCreateEach;
    forall f | Outstanding(flights, s.principals, f)
      ensures flights[f].marker.key in s.store && Covers(s.store[flights[f].marker.key], flights[f])
    {
      if f != s.clock {
        assert Outstanding(s.flights, s.principals, f);
      }
    }
  }

  lemma SendCreateFlown(s: State, flights: Flights, w: Worker, p: Pass)
    requires Inv(s) && MayCreate(s.passes, w) && s.passes[w] == p
    requires s.clock in flights && flights[s.clock].maker == p.issued.uid && flights[s.clock].marker.key == p.issued.key
    requires flights[s.clock].marker.operator == s.operator
    requires flights == s.flights[s.clock := flights[s.clock]] && !flights[s.clock].phase.Landed?
    ensures Flown(s.store, flights, s.operator, s.clock + 1)
  {
    hide Relying, Written, Traced, Fitting, OneCreateEach, Covered;
    forall k | k in s.store && s.store[k].uid == p.issued.uid
      ensures StateOf(s.store[k].status) != Unsent && k == p.issued.key
    {
      CreatorIsCurrent(s, w, k);
    }
    assert p.issued in s.past;
  }

  /** While a pass may create, nobody else relies on anything about its incarnation. */
  lemma SendCreateLeaves(s: State, flights: Flights, w: Worker, p: Pass, q: Pass)
    requires q.Running? && Relies(s, q) && MayCreate(s.passes, w) && s.passes[w] == p
    requires s.clock !in s.flights && s.clock in flights && flights[s.clock].maker == p.issued.uid
    requires flights == s.flights[s.clock := flights[s.clock]]
    ensures Relies(s.(flights := flights, clock := s.clock + 1, passes := s.passes[w := Idle]), q)
  {
    var t := s.(flights := flights, clock := s.clock + 1, passes := s.passes[w := Idle]);
    forall v | MayCreate(t.passes, v)
      ensures MayCreate(s.passes, v) && t.passes[v] == s.passes[v]
    {
    }
    if Current(s.store, q.issued) && Accounted(q).Some? {
      assert q.issued.uid != p.issued.uid;
      forall f | Outstanding(t.flights, t.principals, f) && t.flights[f].maker == q.issued.uid
        ensures Outstanding(s.flights, s.principals, f)
      {
      }
    }
  }

  lemma SendCreateSpends(s: State, flights: Flights, w: Worker, p: Pass)
    requires Inv(s) && MayCreate(s.passes, w) && s.passes[w] == p
    requires s.clock in flights && flights[s.clock].maker == p.issued.uid
    requires flights == s.flights[s.clock := flights[s.clock]]
    ensures var t := s.(flights := flights, clock := s.clock + 1, passes := s.passes[w := Idle]);
      Relying(t) && Entitled(t.store, t.flights, t.passes) && OneCreatorEach(t.passes)
  {
    var t := s.(flights := flights, clock := s.clock + 1, passes := s.passes[w := Idle]);
    forall v | MayCreate(t.passes, v)
      ensures MayCreate(s.passes, v) && t.passes[v] == s.passes[v] && s.passes[v].issued.uid != p.issued.uid
    {
    }
    forall v | v in t.passes && t.passes[v].Running?
      ensures Relies(t, t.passes[v])
    {
      SendCreateLeaves(s, flights, w, p, s.passes[v]);
    }
  }

  lemma SendCreateSpent(s: State, w: Worker, p: Pass, token: Token, phase: Phase)
    requires Inv(s) && PassOf(s, w) == p && p.Running? && p.at == Creating(token)
    requires phase == InAir || phase == Dropped
    ensures Inv(s.(flights := s.flights[s.clock := Flight(p.issued.uid, MarkerOf(s, p.issued, token), phase)],
                   clock := s.clock + 1, passes := s.passes[w := Idle]))
  {
    var flights := s.flights[s.clock := Flight(p.issued.uid, MarkerOf(s, p.issued, token), phase)];
    SendCreateFlies(s, w, p, token, phase);
    SendCreateSpends(s, flights, w, p);
    SendCreateEnds(s, s.(flights := flights, clock := s.clock + 1, passes := s.passes[w := Idle]), w);
  }

  /** A send, taken apart: the flight is added and the pass ends, and then the pass is where it is. */
  lemma SendCreateIs(s: State, w: Worker, p: Pass, token: Token, a: Answer, t: State, q: Pass)
    requires p.Running? && p.at == Creating(token) && t.passes == s.passes[w := Idle]
    requires var phase := if a.Done? && p.here != "" then InAir else Dropped;
      && q == (if phase.InAir? then Go(p, Awaiting(token, s.clock)) else Report(p))
      && t == s.(flights := s.flights[s.clock := Flight(p.issued.uid, MarkerOf(s, p.issued, token), phase)],
                 clock := s.clock + 1, passes := t.passes)
    ensures Move(t, w, q) == SendCreate(s, w, p, token, a)
    ensures s.clock in t.flights && t.flights[s.clock].maker == p.issued.uid
      && t.flights[s.clock].marker.key == p.issued.key
  {
    assert s.passes[w := Idle][w := q] == s.passes[w := q];
  }

  lemma SendCreateKeeps(s: State, w: Worker, p: Pass, token: Token, a: Answer)
    requires Inv(s) && PassOf(s, w) == p && p.Running? && p.at == Creating(token)
    ensures Inv(SendCreate(s, w, p, token, a))
  {
    var phase := if a.Done? && p.here != "" then InAir else Dropped;
    var t := s.(flights := s.flights[s.clock := Flight(p.issued.uid, MarkerOf(s, p.issued, token), phase)],
                clock := s.clock + 1, passes := s.passes[w := Idle]);
    var q := if phase.InAir? then Go(p, Awaiting(token, s.clock)) else Report(p);
    SendCreateIs(s, w, p, token, a, t, q);
    SendCreateSpent(s, w, p, token, phase);
    SenderGoesOn(s, w, p, token, t, q);
  }

  lemma SenderGoesOn(s: State, w: Worker, p: Pass, token: Token, t: State, q: Pass)
    requires Fitting(s.passes, s.operator, s.seen) && Copies(s.passes, s.past)
    requires PassOf(s, w) == p && p.Running? && p.at == Creating(token)
    requires Inv(t) && t.past == s.past
    requires q == Go(p, Awaiting(token, s.clock)) || q == Report(p)
    requires s.clock in t.flights && t.flights[s.clock].maker == p.issued.uid
      && t.flights[s.clock].marker.key == p.issued.key
    ensures Inv(Move(t, w, q))
  {
    assert Fits(p, s.operator, s.seen) && p.issued in s.past;
    MoveKeeps(t, w, q);
  }

  /** The rest of a state, when all that changed is one pass ending and flights being added. */
  lemma SendCreateEnds(s: State, t: State, w: Worker)
    requires Versioned(s.store, s.past, s.clock) && Copies(s.passes, s.past) && Fitting(s.passes, s.operator, s.seen)
    requires t.store == s.store && t.past == s.past && t.clock == s.clock + 1 && t.passes == s.passes[w := Idle]
    requires t.operator == s.operator && t.seen == s.seen
    ensures Versioned(t.store, t.past, t.clock) && Copies(t.passes, t.past) && Fitting(t.passes, t.operator, t.seen)
  {
  }

  /******* Status writes *******/

  lemma WriteKeeps(s: State, w: Worker, p: Pass, status: Status, a: Answer, next: Option<At>)
    requires Inv(s) && PassOf(s, w) == p && p.Running?
    requires Current(s.store, p.issued) ==> StandsFor(s, p.issued.(status := status))
    requires next.Some? ==>
      var written := p.issued.(status := status, version := s.clock);
      !next.value.Creating? && Fits(Running(p.here, written, next.value), s.operator, s.seen)
      && Accounted(Running(p.here, written, next.value)).None? && !next.value.Awaiting? && !next.value.Adopting?
    ensures Inv(WriteStatus(s, w, p, status, a, next))
  {
    if a.Failed? || !Current(s.store, p.issued) {
      MoveKeeps(s, w, Idle);
    } else {
      CurrentIsStored(s, p.issued);
      var r := p.issued.(status := status);
      PutKeeps(s, r);
      MoveKeeps(Put(s, r), w, PassOf(WriteStatus(s, w, p, status, a, next), w));
    }
  }

  lemma ReportingKeeps(s: State, w: Worker, p: Pass, a: Answer)
    requires Inv(s) && PassOf(s, w) == p && p.Running? && p.at.Reporting?
    ensures Inv(WriteStatus(s, w, p, Proposed(p), a, Onward(p.at)))
  {
    hide Inv, Relies, StandsFor, WriteStatus;
    PassFits(s, w, p);
    if Current(s.store, p.issued) {
      ReportStandsFor(s, p);
    }
    WriteKeeps(s, w, p, p.at.status, a, None);
  }

  lemma ReportStandsFor(s: State, p: Pass)
    requires Inv(s) && p.Running? && p.at.Reporting? && p.issued in s.past && Fits(p, s.operator, s.seen)
    requires Current(s.store, p.issued)
    ensures StandsFor(s, p.issued.(status := p.at.status))
  {
    CurrentIsStored(s, p.issued);
    SameStandsFor(s, p.issued.(status := p.at.status));
  }

  lemma LatchedStandsFor(s: State, p: Pass)
    requires Inv(s) && p.Running? && p.at.Latching? && p.issued in s.past && Fits(p, s.operator, s.seen) && Relies(s, p)
    requires Current(s.store, p.issued)
    ensures StandsFor(s, p.issued.(status := Proposed(p)))
  {
    CurrentIsStored(s, p.issued);
  }

  lemma LatchingKeeps(s: State, w: Worker, p: Pass, a: Answer)
    requires Inv(s) && PassOf(s, w) == p && p.Running? && p.at.Latching?
    ensures Inv(WriteStatus(s, w, p, Proposed(p), a, Onward(p.at)))
  {
    hide Inv, Relies, Fits, StandsFor, WriteStatus;
    PassFits(s, w, p);
    if Current(s.store, p.issued) {
      LatchedStandsFor(s, p);
    }
    WriteKeeps(s, w, p, Proposed(p), a, None);
  }

  /** The id that was answered is the one whatever is out of the incarnation landed as. */
  lemma AdoptedStandsFor(s: State, p: Pass)
    requires Inv(s) && p.Running? && p.at.Adopting? && p.issued in s.past && Fits(p, s.operator, s.seen) && Relies(s, p)
    requires Current(s.store, p.issued)
    ensures StandsFor(s, p.issued.(status := Proposed(p)))
  {
    CurrentIsStored(s, p.issued);
    forall f | Outstanding(s.flights, s.principals, f) && s.flights[f].maker == p.issued.uid
      ensures Covers(p.issued.(status := Proposed(p)), s.flights[f])
    {
      CoverIsCurrent(s, f, p.issued.key);
    }
  }

  lemma AdoptingKeeps(s: State, w: Worker, p: Pass, a: Answer)
    requires Inv(s) && PassOf(s, w) == p && p.Running? && p.at.Adopting?
    ensures Inv(WriteStatus(s, w, p, Proposed(p), a, Onward(p.at)))
  {
    hide Inv, Relies, StandsFor, WriteStatus;
    PassFits(s, w, p);
    if Current(s.store, p.issued) {
      AdoptedStandsFor(s, p);
    }
    WriteKeeps(s, w, p, Proposed(p), a, Onward(p.at));
  }

  /** The mark is what entitles the pass that wrote it to the one create. */
  lemma MarkingKeeps(s: State, w: Worker, p: Pass, a: Answer)
    requires Inv(s) && PassOf(s, w) == p && p.Running? && p.at.Marking?
    ensures Inv(WriteStatus(s, w, p, Proposed(p), a, Onward(p.at)))
  {
    hide Inv, Relies;
    PassFits(s, w, p);
    if a.Failed? || !Current(s.store, p.issued) {
      MoveKeeps(s, w, Idle);
    } else {
      var r := p.issued.(status := Proposed(p));
      MarkedKeeps(s, p.issued, r);
      if a.Done? {
        MarkEntitles(s, w, p.issued, Running(p.here, r.(version := s.clock), Creating(p.at.token)));
      } else {
        MoveKeeps(Put(s, r), w, Idle);
      }
    }
  }

  lemma MarkedKeeps(s: State, issued: Record, r: Record)
    requires Inv(s) && issued in s.past && Current(s.store, issued)
    requires StateOf(issued.status) == Unsent && issued.finalizer
    requires r == issued.(status := r.status) && InOrder(r.status) && StateOf(r.status) == Sent
    ensures s.store[issued.key] == issued && Inv(Put(s, r))
  {
    CurrentIsStored(s, issued);
    StateSettles(s, issued);
    PutKeeps(s, r);
  }

  lemma MarkEntitles(s: State, w: Worker, issued: Record, q: Pass)
    requires Inv(s) && issued in s.past && Current(s.store, issued) && StateOf(issued.status) == Unsent
    requires q.Running? && q.at.Creating? && q.issued == issued.(status := q.issued.status, version := s.clock)
    requires q.issued.finalizer && StateOf(q.issued.status) == Sent && Inv(Put(s, q.issued))
    ensures Inv(Move(Put(s, q.issued), w, q))
  {
    CurrentIsStored(s, issued);
    StateSettles(s, issued);
    var t := Put(s, q.issued);
    forall v | v in t.passes && t.passes[v].Running?
      ensures !Current(t.store, t.passes[v].issued) || t.passes[v].issued.uid != q.issued.uid
    {
      assert t.passes[v].issued in s.past;
      if t.passes[v].issued.uid == q.issued.uid {
        assert t.passes[v].issued.key == issued.key;
      }
    }
    EntitleKeeps(t, w, q);
  }

  lemma EntitleKeeps(s: State, w: Worker, p: Pass)
    requires Inv(s) && p.Running? && p.at.Creating?
    requires p.issued.key in s.store && s.store[p.issued.key] == p.issued
    requires p.issued.finalizer && StateOf(p.issued.status) == Sent
    requires forall f | f in s.flights :: s.flights[f].maker != p.issued.uid
    requires Uncreating(s.passes, p.issued.uid)
    requires forall v | v in s.passes && s.passes[v].Running? && Accounted(s.passes[v]).Some? ::
      !Current(s.store, s.passes[v].issued) || s.passes[v].issued.uid != p.issued.uid
    ensures Inv(Move(s, w, p))
  {
    hide Relies;
    var t := Move(s, w, p);
    forall v | v in t.passes && t.passes[v].Running?
      ensures Relies(t, t.passes[v])
    {
      EntitleRelied(s, w, p, t.passes[v]);
    }
    EntitleOne(s.store, s.flights, s.passes, w, p);
  }

  lemma EntitleOne(store: Store, flights: Flights, passes: Passes, w: Worker, p: Pass)
    requires p.Running? && Entitled(store, flights, passes) && OneCreatorEach(passes)
      && Uncreating(passes, p.issued.uid)
    requires p.issued.key in store && store[p.issued.key] == p.issued
    requires p.issued.finalizer && StateOf(p.issued.status) == Sent
    requires forall f | f in flights :: flights[f].maker != p.issued.uid
    ensures Entitled(store, flights, passes[w := p]) && OneCreatorEach(passes[w := p])
  {
    forall v | MayCreate(passes[w := p], v) && v != w
      ensures MayCreate(passes, v)
    {
    }
  }

  lemma EntitleRelied(s: State, w: Worker, p: Pass, q: Pass)
    requires Relying(s) && p.Running? && p.at.Creating? && q.Running?
    requires q == p || exists v :: v in s.passes && s.passes[v] == q
    requires Accounted(q).Some? ==> !Current(s.store, q.issued) || q.issued.uid != p.issued.uid
    ensures Relies(Move(s, w, p), q)
  {
    if q != p {
      var v :| v in s.passes && s.passes[v] == q;
      assert Relies(s, q);
    }
  }

  lemma SameStandsFor(s: State, r: Record)
    requires Inv(s)
    requires r.key in s.store && r.uid == s.store[r.key].uid && r.owner == s.store[r.key].owner
    requires (s.store[r.key].finalizer ==> r.finalizer) && (r.deleting ==> r.finalizer)
    requires r.status == s.store[r.key].status.(issuer := r.status.issuer, audience := r.status.audience)
    ensures StandsFor(s, r)
  {
    if !Uncreating(s.passes, r.uid) {
      var w :| MayCreate(s.passes, w) && s.passes[w].issued.uid == r.uid;
      CreatorIsCurrent(s, w, r.key);
    }
    forall f | Outstanding(s.flights, s.principals, f) && s.flights[f].maker == r.uid
      ensures Covers(r, s.flights[f])
    {
      CoverIsCurrent(s, f, r.key);
    }
  }
}

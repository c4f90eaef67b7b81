/**
 One pass over one record, as the controller makes it: a copy that is changed in place, and written
 step by step between calls
 (internal/controller/issueddatabricksserviceprincipal_controller.go:127-506, 554-587).

 Anybody else may move before any call. What a pass ensures is that every call it makes is the one
 the protocol has it make there, to the end, so that what is proved of every run holds of it.
 */
module RecordReconciler {
  import opened Names
  import opened Options
  import opened Records
  import opened RecordProtocol
  import RecordTheorems
  import Requests

  /** The object a pass holds. Only what the controller assigns to can change. */
  class Issued {
    const key: Key
    const owner: NamespacedName
    const uid: nat
    const deleting: bool
    var version: nat
    var finalizer: bool
    var status: Status

    constructor (r: Record)
      ensures Copy() == r
    {
      key, owner, uid, version, finalizer, deleting, status :=
        r.key, r.owner, r.uid, r.version, r.finalizer, r.deleting, r.status;
    }

    function Copy(): Record
      reads this
    {
      Record(key, owner, uid, version, finalizer, deleting, status)
    }
  }

  function Starts(log: seq<Step>, w: Worker): nat {
    if log == [] then 0
    else Starts(log[..|log| - 1], w) + if log[|log| - 1].Begin? && log[|log| - 1].worker == w then 1 else 0
  }

  /** The version this worker last started a pass over. */
  function Over(log: seq<Step>, w: Worker): Option<Record> {
    if log == [] then None
    else if log[|log| - 1].Begin? && log[|log| - 1].worker == w then Some(log[|log| - 1].version)
    else Over(log[..|log| - 1], w)
  }

  function Crashes(log: seq<Step>, w: Worker): nat {
    if log == [] then 0
    else Crashes(log[..|log| - 1], w) + if log[|log| - 1] == Crash(w) then 1 else 0
  }

  /** The call by which a pass of this worker deletes its record. */
  predicate SendsDelete(s: State, step: Step, w: Worker) {
    step.Call? && step.worker == w && PassOf(s, w).Running? && PassOf(s, w).at.Deleting?
  }

  function Deletes(s: State, log: seq<Step>, w: Worker): nat
    decreases |log|
  {
    if log == [] then 0
    else Deletes(s, log[..|log| - 1], w) + if SendsDelete(Run(s, log[..|log| - 1]), log[|log| - 1], w) then 1 else 0
  }

  lemma OneMoreDeletes(s: State, log: seq<Step>, step: Step, w: Worker)
    ensures Deletes(s, log + [step], w) == Deletes(s, log, w) + if SendsDelete(Run(s, log), step, w) then 1 else 0
  {
    hide Run, SendsDelete;
    var longer := log + [step];
    assert longer[..|longer| - 1] == log && longer[|longer| - 1] == step && longer != [];
  }

  lemma OneMore(s: State, log: seq<Step>, step: Step)
    ensures Run(s, log + [step]) == Next(Run(s, log), step)
    ensures forall w :: Crashes(log + [step], w) == Crashes(log, w) + if step == Crash(w) then 1 else 0
    ensures forall w :: Starts(log + [step], w) == Starts(log, w) + if step.Begin? && step.worker == w then 1 else 0
    ensures forall w ::
      Over(log + [step], w) == if step.Begin? && step.worker == w then Some(step.version) else Over(log, w)
    ensures forall w ::
      Deletes(s, log + [step], w) == Deletes(s, log, w) + if SendsDelete(Run(s, log), step, w) then 1 else 0
  {
    forall w
      ensures Deletes(s, log + [step], w) == Deletes(s, log, w) + if SendsDelete(Run(s, log), step, w) then 1 else 0
    {
      OneMoreDeletes(s, log, step, w);
    }
    hide Deletes, SendsDelete;
    var longer := log + [step];
    assert longer[..|longer| - 1] == log && longer[|longer| - 1] == step && longer != [];
    OneMoreRuns(s, longer);
    forall w
      ensures Crashes(longer, w) == Crashes(log, w) + if step == Crash(w) then 1 else 0
      ensures Starts(longer, w) == Starts(log, w) + if step.Begin? && step.worker == w then 1 else 0
      ensures Over(longer, w) == if step.Begin? && step.worker == w then Some(step.version) else Over(log, w)
    {
    }
  }

  lemma OneMoreRuns(s: State, steps: seq<Step>)
    requires steps != []
    ensures Run(s, steps) == Next(Run(s, steps[..|steps| - 1]), steps[|steps| - 1])
  {
  }

  predicate By(step: Step, w: Worker) {
    (step.Begin? || step.Call? || step.Crash?) && step.worker == w
  }

  /** Everything outside one pass: the API server, Databricks, and everybody else. */
  class World {
    const operator: NamespacedName
    var s: State
    ghost const first: Cluster
    ghost var log: seq<Step>

    constructor (operator: NamespacedName, cluster: Cluster)
      ensures Valid() && s == Initial(operator, cluster)
    {
      this.operator, s, first, log := operator, Initial(operator, cluster), cluster, [];
    }

    /** What there is came about by the protocol's steps. */
    ghost predicate Valid()
      reads this
    {
      s == Run(Initial(operator, first), log) && s.operator == operator
    }

    lemma Safe()
      requires Valid()
      ensures Inv(s)
    {
      RecordTheorems.Reached(operator, first, log);
    }

    /** How often a pass of this worker has called for its record to be deleted. */
    ghost function DeletesBy(w: Worker): nat
      reads this
    {
      Deletes(Initial(operator, first), log, w)
    }

    /** More steps were taken; this worker's pass was not cut short or started again, and sent so many deletes. */
    twostate predicate Went(w: Worker, deletes: nat)
      reads this
    {
      && old(log) <= log && Crashes(log, w) == Crashes(old(log), w)
      && Starts(log, w) == Starts(old(log), w) && Over(log, w) == Over(old(log), w)
      && DeletesBy(w) == old(DeletesBy(w)) + deletes
    }

    twostate predicate Continued(w: Worker)
      reads this
    {
      Went(w, 0)
    }

    /** This worker started one pass, over this version, it was not cut short, and it sent so many deletes. */
    twostate predicate Began(w: Worker, version: Record, deletes: nat)
      reads this
    {
      && old(log) <= log && Crashes(log, w) == Crashes(old(log), w)
      && Starts(log, w) == Starts(old(log), w) + 1 && Over(log, w) == Some(version)
      && DeletesBy(w) == old(DeletesBy(w)) + deletes
    }

    method Take(step: Step)
      requires Valid()
      modifies this
      ensures Valid() && s == Next(old(s), step) && old(log) <= log
      ensures forall w :: Crashes(log, w) == Crashes(old(log), w) + if step == Crash(w) then 1 else 0
      ensures forall w :: Starts(log, w) == Starts(old(log), w) + if step.Begin? && step.worker == w then 1 else 0
      ensures forall w ::
        Over(log, w) == if step.Begin? && step.worker == w then Some(step.version) else Over(old(log), w)
      ensures forall w :: DeletesBy(w) == old(DeletesBy(w)) + if SendsDelete(old(s), step, w) then 1 else 0
    {
      OneMore(Initial(operator, first), log, step);
      s := Next(s, step);
      log := log + [step];
    }

    /** Anybody else, any number of times. */
    method Others(w: Worker)
      requires Valid()
      modifies this
      ensures Valid() && Continued(w) && PassOf(s, w) == PassOf(old(s), w) && old(s.past) <= s.past
    {
      var n: nat :| 0 <= n;
      for i := 0 to n
        invariant Valid() && Continued(w) && PassOf(s, w) == PassOf(old(s), w) && old(s.past) <= s.past
      {
        var step: Step := *;
        if !By(step, w) {
          OthersMoveOthers(s, step, w);
          Take(step);
        }
      }
    }

    /** One call of this worker's pass, with the answer it got, after whatever came before it. */
    method Call(w: Worker, a: Answer) returns (ghost before: State)
      requires Valid() && PassOf(s, w).Running?
      modifies this
      ensures Valid() && Went(w, if PassOf(old(s), w).at.Deleting? then 1 else 0)
      ensures PassOf(before, w) == PassOf(old(s), w) && Trusts(before, PassOf(before, w))
      ensures s == Advance(before, w, PassOf(before, w), a)
    {
      Others(w);
      before := s;
      Safe();
      PassTrusts(s, w);
      Take(Step.Call(w, a));
    }

    /** What the cache answers, which is nothing or any version there ever was; and the clients as they stand. */
    method Get(w: Worker, cached: Option<Record>) returns (found: Option<Issued>, clients: string)
      requires Valid() && PassOf(s, w).Idle? && (cached.Some? ==> cached.value in s.past)
      modifies this
      ensures Valid() && (found.None? <==> cached.None?)
      ensures found.None? ==> Continued(w) && PassOf(s, w).Idle?
      ensures found.Some? ==> Began(w, cached.value, 0) && fresh(found.value) && found.value.Copy() == cached.value
                              && PassOf(s, w) == AfterFetch(clients, cached.value)
    {
      clients := *;
      Others(w);
      if cached.None? {
        return None, clients;
      }
      Take(Begin(w, cached.value, clients));
      var issued := new Issued(cached.value);
      found := Some(issued);
    }

    /** Writes the object but for its status, if it is still the version that was read. */
    method Update(w: Worker, issued: Issued) returns (err: bool, ghost before: State)
      requires Valid() && PassOf(s, w).Running?
      requires var p := PassOf(s, w);
        (p.at.AddingFinalizer? && issued.Copy() == p.issued.(finalizer := true))
        || (p.at.Releasing? && issued.Copy() == p.issued.(finalizer := false))
      modifies this
      ensures Valid() && Continued(w) && PassOf(s, w).Idle?
      ensures s.store == before.store
        || (issued.key in before.store && before.store[issued.key].version == issued.version
            && s.store == if issued.deleting && !issued.finalizer then before.store - {issued.key}
                          else before.store[issued.key := issued.Copy().(version := before.clock)])
    {
      var a: Answer := *;
      err := *;
      before := Call(w, a);
      MetaWritten(before, w, PassOf(before, w), a);
    }

    /** Writes the status, if the object is still the version that was read. */
    method UpdateStatus(w: Worker, issued: Issued) returns (err: bool, ghost before: State)
      requires Valid() && PassOf(s, w).Running? && Writes(PassOf(s, w).at)
      requires issued.Copy() == PassOf(s, w).issued.(status := Proposed(PassOf(s, w)))
      modifies this, issued`version
      ensures Valid() && Continued(w)
      ensures err || Onward(PassOf(old(s), w).at).None? ==> PassOf(s, w).Idle?
      ensures !err && Onward(PassOf(old(s), w).at).Some? ==>
        PassOf(s, w) == Running(PassOf(old(s), w).here, issued.Copy(), Onward(PassOf(old(s), w).at).value)
      ensures s.store == before.store
        || (issued.key in before.store && before.store[issued.key].version == old(issued.version)
            && s.store == before.store[issued.key := issued.Copy().(version := before.clock)])
    {
      var a: Answer := *;
      var goesOn := Onward(PassOf(s, w).at).Some?;
      before := Call(w, a);
      StatusWritten(before, w, PassOf(before, w), a);
      var p := PassOf(s, w);
      if p.Running? {
        issued.version := p.issued.version;
        err := false;
      } else {
        err := *;
        err := err || goesOn;
      }
    }

    method Delete(w: Worker, issued: Issued) returns (err: bool, ghost before: State)
      requires Valid() && PassOf(s, w).Running? && PassOf(s, w).at.Deleting? && PassOf(s, w).issued.key == issued.key
      modifies this
      ensures Valid() && Went(w, 1) && PassOf(s, w).Idle?
      ensures s.store == before.store || s.store == DeleteByName(before, issued.key).store
      ensures PassOf(before, w) == PassOf(old(s), w) && Trusts(before, PassOf(before, w)) && before.operator == operator
    {
      var a: Answer := *;
      err := *;
      before := Call(w, a);
      Deleted(before, w, PassOf(before, w), a);
    }

    /** The ServiceAccount as it is now. None is the read failing. */
    method LiveGet(w: Worker) returns (got: Option<Option<ServiceAccount>>)
      requires Valid() && PassOf(s, w).Running? && PassOf(s, w).at.Asking?
      modifies this
      ensures Valid() && Continued(w)
      ensures got.None? ==> PassOf(s, w).Idle?
      ensures got.Some? ==>
        var p, q := PassOf(old(s), w), PassOf(s, w);
        q.Running? && q == Go(p, q.at)
        && if IsWanted(got.value, operator, p.issued.key) then q.at.Locating? else q.at.Deleting?
    {
      Others(w);
      var p := PassOf(s, w);
      var a: Answer := *;
      if a.Failed? {
        got := None;
      } else {
        var accounts := s.cluster.serviceAccounts;
        got := Some(if p.issued.owner in accounts then Some(accounts[p.issued.owner]) else None);
      }
      Take(Step.Call(w, a));
    }

    /** Whether a cached account is declared and names the namespace. None is the read failing. */
    method AccountServes(w: Worker) returns (got: Option<(bool, bool)>)
      requires Valid() && PassOf(s, w).Running? && PassOf(s, w).at.Locating?
      modifies this
      ensures Valid() && Continued(w)
      ensures got.None? ==> PassOf(s, w).Idle?
      ensures got.Some? && got.value.0 && !got.value.1 ==>
        var q := PassOf(s, w); q.Running? && q.at.CheckingClaim? && q == Go(PassOf(old(s), w), q.at)
      ensures got.Some? && !(got.value.0 && !got.value.1) ==>
        var p := PassOf(old(s), w);
        PassOf(s, w) == if StateOf(p.issued.status) == Gone then Report(p) else Go(p, Preparing)
    {
      Others(w);
      var p := PassOf(s, w);
      var account: Cluster := *;
      if account in s.seen {
        got := Some((account.declared.Some?, Served(account, p.issued.owner.namespace)));
      } else {
        got := None;
      }
      Take(Step.Call(w, Saw(account)));
    }

    /** Who a cached Namespace names as destroying there, and whether there is one. */
    method HeldBy(w: Worker) returns (got: Option<(Option<NamespacedName>, bool)>)
      requires Valid() && PassOf(s, w).Running? && PassOf(s, w).at.CheckingClaim?
      modifies this
      ensures Valid() && Continued(w)
      ensures got.None? ==> PassOf(s, w).Idle?
      ensures got.Some? && got.value.1 && got.value.0 != Some(operator) ==> PassOf(s, w) == Report(PassOf(old(s), w))
      ensures got.Some? && (!got.value.1 || got.value.0 == Some(operator)) ==>
        var q := PassOf(s, w); q.Running? && q.at.Deleting? && q.at.why.NotServed? && q == Go(PassOf(old(s), w), q.at)
    {
      Others(w);
      var p := PassOf(s, w);
      var namespace := p.issued.owner.namespace;
      var cached: Cluster := *;
      if cached in s.seen {
        var there := namespace in cached.holders;
        got := Some((if there then cached.holders[namespace] else None, there));
      } else {
        got := None;
      }
      Take(Step.Call(w, Saw(cached)));
    }

    /** The operator's own token as it reads now, and what time that is. */
    method ReadToken(w: Worker) returns (got: Option<Token>, now: nat)
      requires Valid() && PassOf(s, w).Running? && PassOf(s, w).at.Preparing?
      modifies this
      ensures Valid() && Continued(w)
      ensures got.None? ==> PassOf(s, w) == Report(PassOf(old(s), w))
      ensures got.Some? ==> PassOf(s, w) == AfterToken(PassOf(old(s), w), got.value, now)
    {
      Others(w);
      now := s.clock;
      var a: Answer := *;
      got := if a.Reads? then Some(a.token) else None;
      Take(Step.Call(w, a));
    }

    /** The create. An error is any of not sent, refused, and no answer. */
    method CreateServicePrincipal(w: Worker) returns (made: Option<(nat, string)>)
      requires Valid() && PassOf(s, w).Running? && PassOf(s, w).at.Creating?
      modifies this
      ensures Valid() && Continued(w)
      ensures var p := PassOf(old(s), w);
        PassOf(s, w) == if made.Some? then Go(p, Adopting(p.at.token, made.value.0, made.value.1)) else Report(p)
    {
      hide Run, Initial, Starts, Over, Crashes, Deletes, Look, Write;
      var a: Answer := *;
      ghost var before := Call(w, a);
      if PassOf(s, w).at.Reporting? {
        return None;
      }
      Others(w);
      var flight := PassOf(s, w).at.flight;
      if a.Done? && flight in s.flights && s.flights[flight].phase.Landed? {
        made := Some((s.flights[flight].phase.id, s.flights[flight].phase.clientId));
        Take(Step.Call(w, Done));
      } else {
        made := None;
        Take(Step.Call(w, Lost));
      }
    }

    /** The one service principal carrying the record's marker. None is an error, or none that shows. */
    method FindServicePrincipal(w: Worker) returns (found: Option<(nat, string)>)
      requires Valid() && PassOf(s, w).Running? && PassOf(s, w).at.Searching?
      modifies this
      ensures Valid() && Continued(w)
      ensures var p := PassOf(old(s), w);
        PassOf(s, w) == if found.None? then Report(p)
                        else Go(p, if p.issued.deleting then Removing(found.value.0)
                                   else Adopting(p.at.token, found.value.0, found.value.1))
    {
      Others(w);
      var a: Answer := *;
      var q := Search(s, PassOf(s, w), PassOf(s, w).at.token, a);
      found := if q.at.Reporting? then None else Some((a.id, s.principals[a.id].clientId));
      Take(Step.Call(w, a));
    }

    /** A get by id, which answers for certain when it answers, and what time that is. */
    method ServicePrincipalExists(w: Worker, id: nat) returns (there: Option<bool>, now: nat)
      requires Valid() && PassOf(s, w).Running? && PassOf(s, w).at.Probing?
      requires PassOf(s, w).issued.status.servicePrincipalId == Some(id)
      modifies this
      ensures Valid() && Continued(w)
      ensures var p := PassOf(old(s), w);
        PassOf(s, w) == match there
          case None => Report(p)
          case Some(true) => Go(p, Ensuring(p.at.token))
          case Some(false) => Go(p, Latching(now))
    {
      Others(w);
      now := s.clock;
      var a: Answer := *;
      there := if PassOf(s, w).here == "" || !a.Done? then None else Some(id in s.principals);
      Take(Step.Call(w, a));
    }

    method EnsureFederationPolicy(w: Worker) returns (err: bool)
      requires Valid() && PassOf(s, w).Running? && PassOf(s, w).at.Ensuring?
      modifies this
      ensures Valid() && Continued(w)
      ensures var p := PassOf(old(s), w);
        PassOf(s, w) == Go(p, Reporting(p.issued.status.(issuer := p.at.token.issuer, audience := p.at.token.audience)))
      ensures !err ==>
        var p := PassOf(old(s), w);
        p.issued.status.servicePrincipalId.Some? && p.issued.status.servicePrincipalId.value in s.policies
        && s.policies[p.issued.status.servicePrincipalId.value]
             == Trust(p.at.token.issuer, p.issued.owner, p.at.token.audience)
    {
      hide Run, Initial, Starts, Over, Crashes, Deletes, Next;
      Others(w);
      var a: Answer := *;
      var p := PassOf(s, w);
      var id := p.issued.status.servicePrincipalId;
      PolicyWritten(s, w, a);
      err := p.here == "" || !a.Done? || id.None? || id.value !in s.principals;
      Take(Step.Call(w, a));
    }

    method DeleteServicePrincipal(w: Worker, id: nat) returns (err: bool)
      requires Valid() && PassOf(s, w).Running? && PassOf(s, w).at == Removing(id)
      modifies this
      ensures Valid() && Continued(w)
      ensures var p := PassOf(old(s), w); PassOf(s, w) == if err then Report(p) else Go(p, Releasing)
      ensures !err ==> id !in s.principals
    {
      var a: Answer := *;
      ghost var before := Call(w, a);
      PrincipalDeleteCalled(before, w, PassOf(before, w), a);
      err := PassOf(s, w).at.Reporting?;
    }
  }

  /** What a pass may take for granted of its copy: read as it was, and what is stored if it is current. */
  ghost predicate Trusts(s: State, p: Pass) {
    p.Running? ==>
      && Fits(p, s.operator, s.seen)
      && (Current(s.store, p.issued) ==> s.store[p.issued.key] == p.issued)
  }

  lemma PolicyWritten(s: State, w: Worker, a: Answer)
    requires PassOf(s, w).Running? && PassOf(s, w).at.Ensuring?
    ensures var p, t := PassOf(s, w), Next(s, Call(w, a));
      var token, id := p.at.token, p.issued.status.servicePrincipalId;
      && PassOf(t, w) == Go(p, Reporting(p.issued.status.(issuer := token.issuer, audience := token.audience)))
      && (p.here != "" && a.Done? && id.Some? && id.value in s.principals ==>
           id.value in t.policies && t.policies[id.value] == Trust(token.issuer, p.issued.owner, token.audience))
  {
    hide SendCreate, Await, Search, Remove, Look, Write;
  }

  lemma StatusWritten(s: State, w: Worker, p: Pass, a: Answer)
    requires p.Running? && Writes(p.at) && Trusts(s, p)
    ensures var t, r := Advance(s, w, p, a), p.issued.(status := Proposed(p), version := s.clock);
      && (PassOf(t, w).Idle?
          || (Onward(p.at).Some? && PassOf(t, w) == Running(p.here, r, Onward(p.at).value)))
      && (t.store == s.store || (Current(s.store, p.issued) && t.store == s.store[r.key := r]))
      && (PassOf(t, w).Running? ==> t.store == s.store[r.key := r])
  {
    hide Look, Talk, AddFinalizer, DropFinalizer, DeleteByName, Fits, Proposed, Onward, WriteStatus;
    StatusStored(s, w, p, Proposed(p), a, Onward(p.at));
  }

  lemma StatusStored(s: State, w: Worker, p: Pass, status: Status, a: Answer, next: Option<At>)
    requires p.Running? && (Current(s.store, p.issued) ==> s.store[p.issued.key] == p.issued)
    ensures var t, r := WriteStatus(s, w, p, status, a, next), p.issued.(status := status, version := s.clock);
      && (PassOf(t, w).Idle? || (next.Some? && PassOf(t, w) == Running(p.here, r, next.value)))
      && (t.store == s.store || (Current(s.store, p.issued) && t.store == s.store[r.key := r]))
      && (PassOf(t, w).Running? ==> t.store == s.store[r.key := r])
  {
  }

  lemma MetaWritten(s: State, w: Worker, p: Pass, a: Answer)
    requires p.Running? && (p.at.AddingFinalizer? || p.at.Releasing?) && Trusts(s, p)
    ensures var t, r := Advance(s, w, p, a), p.issued.(finalizer := p.at.AddingFinalizer?, version := s.clock);
      && PassOf(t, w).Idle?
      && (t.store == s.store
          || (Current(s.store, p.issued)
              && t.store == if r.deleting && !r.finalizer then s.store - {r.key} else s.store[r.key := r]))
  {
  }

  lemma Deleted(s: State, w: Worker, p: Pass, a: Answer)
    requires p.Running? && p.at.Deleting?
    ensures var t := Advance(s, w, p, a);
      PassOf(t, w).Idle? && (t.store == s.store || t.store == DeleteByName(s, p.issued.key).store)
  {
  }

  lemma PrincipalDeleteCalled(s: State, w: Worker, p: Pass, a: Answer)
    requires p.Running? && p.at.Removing?
    ensures var t := Advance(s, w, p, a);
      PassOf(t, w) == Report(p) || (PassOf(t, w) == Go(p, Releasing) && p.at.id !in t.principals)
  {
  }

  lemma PassTrusts(s: State, w: Worker)
    requires Inv(s)
    ensures Trusts(s, PassOf(s, w))
  {
  }

  predicate IsWanted(found: Option<ServiceAccount>, operator: NamespacedName, key: Key) {
    found.Some? && !Requests.LetsGo(found.value.annotations, operator, key.identity) && found.value.uid == key.uid
  }

  lemma OthersMoveOthers(s: State, step: Step, w: Worker)
    requires !By(step, w)
    ensures PassOf(Next(s, step), w) == PassOf(s, w)
  {
    if step.Call? && PassOf(s, step.worker).Running? {
      assert MovesOnly(s, Next(s, step), step.worker);
    }
  }

  /** How a pass ended: there was no record, it is to be tried again, or it is over until something changes. */
  datatype Outcome = Absent | Erred | Requeued | Settled

  class Reconciler {
    const w: Worker
    const world: World

    constructor (world: World, w: Worker)
      ensures this.world == world && this.w == w
    {
      this.world, this.w := world, w;
    }

    ghost predicate Ready()
      reads this, world
    {
      world.Valid()
    }

    /** Two questions of the record the cache holds, and what follows from the answers: one whole pass over it. */
    method Reconcile(cached: Option<Record>) returns (outcome: Outcome)
      requires Ready() && PassOf(world.s, w).Idle? && (cached.Some? ==> cached.value in world.s.past)
      modifies world
      ensures Ready() && PassOf(world.s, w).Idle? && (outcome == Absent <==> cached.None?)
      ensures
        if cached.None? then world.Continued(w)
        else world.Began(w, cached.value, 0) || world.Began(w, cached.value, 1)
    {
      hide Run, Initial, Starts, Over, Crashes, Deletes, StateOf;
      var fetched, clients := world.Get(w, cached);
      if fetched.None? {
        return Absent;
      }
      var issued := fetched.value;
      if issued.deleting {
        outcome := Destroy(clients, issued);
        return;
      }
      if !issued.finalizer {
        issued.finalizer := true;
        var err, _ := world.Update(w, issued);
        return if err then Erred else Requeued;
      }
      var wanted := StillWanted(issued);
      if wanted.None? {
        return Erred;
      }
      if !wanted.value {
        var err, _ := world.Delete(w, issued);
        return if err then Erred else Settled;
      }
      var serves := world.AccountServes(w);
      if serves.None? {
        return Erred;
      }
      var (declared, served) := serves.value;
      if declared && !served {
        var ended, _ := DestroyBecauseNotServed(issued);
        return ended;
      }
      outcome := Converge(clients, issued);
    }

    /** Whether the ServiceAccount is there, still asking, and still the same one. */
    method StillWanted(issued: Issued) returns (wanted: Option<bool>)
      requires Ready() && PassOf(world.s, w).Running? && PassOf(world.s, w).at.Asking?
      requires issued.Copy() == PassOf(world.s, w).issued
      modifies world
      ensures Ready() && world.Continued(w)
      ensures wanted.None? ==> PassOf(world.s, w).Idle?
      ensures wanted.Some? ==>
        var p, q := PassOf(old(world.s), w), PassOf(world.s, w);
        q.Running? && q == Go(p, q.at) && if wanted.value then q.at.Locating? else q.at.Deleting?
    {
      var got := world.LiveGet(w);
      if got.None? {
        return None;
      }
      if got.value.None? {
        return Some(false);
      }
      var serviceAccount := got.value.value;
      var requested := Requests.RequestsFor(serviceAccount.annotations, world.operator);
      var gone := Requests.NoLongerAsked(requested, issued.key.identity);
      Requests.LettingGoIsExact(serviceAccount.annotations, world.operator, requested, issued.key.identity);
      if gone {
        return Some(false);
      }
      return Some(serviceAccount.uid == issued.key.uid);
    }

    /** Ends the pass: the status as it stands is written. */
    method ReportReady(issued: Issued) returns (outcome: Outcome)
      requires Ready() && PassOf(world.s, w).Running?
      requires PassOf(world.s, w).at == Reporting(issued.status) || PassOf(world.s, w).at.Latching?
      requires issued.Copy() == PassOf(world.s, w).issued.(status := Proposed(PassOf(world.s, w)))
      modifies world, issued`version
      ensures Ready() && world.Continued(w) && PassOf(world.s, w).Idle? && outcome != Absent
    {
      var err, _ := world.UpdateStatus(w, issued);
      outcome := if err then Erred else Settled;
    }

    method ReportFailure(issued: Issued) returns (outcome: Outcome)
      requires Ready() && PassOf(world.s, w).Running? && PassOf(world.s, w).at == Reporting(issued.status)
      requires issued.Copy() == PassOf(world.s, w).issued.(status := issued.status)
      modifies world, issued`version
      ensures Ready() && world.Continued(w) && PassOf(world.s, w).Idle? && outcome != Absent
    {
      outcome := ReportReady(issued);
      var goesBack: bool := *;
      if goesBack {
        outcome := Erred;
      }
    }

    /** Deletes the service principal, and holds the record until it has. */
    method Destroy(clients: string, issued: Issued) returns (outcome: Outcome)
      requires Ready() && issued.deleting && PassOf(world.s, w) == AfterFetch(clients, issued.Copy())
      modifies world, issued
      ensures Ready() && world.Continued(w) && PassOf(world.s, w).Idle? && outcome != Absent
    {
      if !issued.finalizer {
        return Settled;
      }
      var id: Option<nat>;
      match StateOf(issued.status) {
        case Unsent => id := None;
        case Gone => id := None;
        case Known => id := issued.status.servicePrincipalId;
        case Sent =>
          id, outcome := LookFor(issued);
          if id.None? {
            return;
          }
      }
      outcome := Release(clients, issued, id);
    }

    /** Lets the record go, once what there is to delete has been. */
    method Release(clients: string, issued: Issued, id: Option<nat>) returns (outcome: Outcome)
      requires Ready() && issued.deleting
      requires PassOf(world.s, w) == Running(clients, issued.Copy(), if id.Some? then Removing(id.value) else Releasing)
      modifies world, issued
      ensures Ready() && world.Continued(w) && PassOf(world.s, w).Idle? && outcome != Absent
    {
      if id.Some? {
        var err := world.DeleteServicePrincipal(w, id.value);
        if err {
          outcome := ReportFailure(issued);
          return;
        }
      }
      issued.finalizer := false;
      var err, _ := world.Update(w, issued);
      return if err then Erred else Settled;
    }

    /** What a create whose answer was lost may have made. A listing that does not show it releases nothing. */
    method LookFor(issued: Issued) returns (found: Option<nat>, outcome: Outcome)
      requires Ready() && PassOf(world.s, w).Running? && PassOf(world.s, w).at.Preparing?
      requires issued.deleting && issued.Copy() == PassOf(world.s, w).issued
      modifies world, issued
      ensures Ready() && world.Continued(w) && issued.finalizer == old(issued.finalizer) && outcome != Absent
      ensures found.None? ==> PassOf(world.s, w).Idle?
      ensures found.Some? ==> PassOf(world.s, w) == Go(PassOf(old(world.s), w), Removing(found.value))
      ensures found.Some? ==> issued.Copy() == old(issued.Copy())
    {
      var token, _ := world.ReadToken(w);
      if token.None? || TrimSpace(token.value.issuer) == "" {
        outcome := ReportReady(issued);
        return None, outcome;
      }
      var shown := world.FindServicePrincipal(w);
      if shown.None? {
        outcome := ReportFailure(issued);
        return None, outcome;
      }
      return Some(shown.value.0), Settled;
    }

    /** Builds the service principal and the policy that makes its subject's token exchangeable. */
    method Converge(clients: string, issued: Issued) returns (outcome: Outcome)
      requires Ready() && !issued.deleting && PassOf(world.s, w).Running?
      requires PassOf(world.s, w) ==
        Running(clients, issued.Copy(), if StateOf(issued.status) == Gone then Reporting(issued.status) else Preparing)
      modifies world, issued
      ensures Ready() && world.Continued(w) && PassOf(world.s, w).Idle? && outcome != Absent
    {
      hide Run, Initial, Starts, Over, Crashes, Deletes;
      if StateOf(issued.status) == Gone {
        outcome := ReportReady(issued);
        return;
      }
      var read, now := world.ReadToken(w);
      if read.None? || TrimSpace(read.value.issuer) == "" || read.value.audience == "" {
        outcome := ReportReady(issued);
        return;
      }
      var token := read.value;
      var ended: Option<Outcome>;
      match StateOf(issued.status) {
        case Known => ended := Probe(issued);
        case Unsent => ended := Create(clients, issued, token, now);
        case Sent => ended := Find(clients, issued, token);
        case Gone => assert false;
      }
      if ended.Some? {
        return ended.value;
      }
      outcome := Exchange(issued, token);
    }

    method Exchange(issued: Issued, token: Token) returns (outcome: Outcome)
      requires Ready() && PassOf(world.s, w).Running? && PassOf(world.s, w).at == Ensuring(token)
      requires issued.Copy() == PassOf(world.s, w).issued
      modifies world, issued
      ensures Ready() && world.Continued(w) && PassOf(world.s, w).Idle? && outcome != Absent
    {
      issued.status := issued.status.(issuer := token.issuer, audience := token.audience);
      var err := world.EnsureFederationPolicy(w);
      if err {
        outcome := ReportFailure(issued);
        return;
      }
      outcome := ReportReady(issued);
    }

    /** The authoritative question, and the latch when the answer is no. */
    method Probe(issued: Issued) returns (ended: Option<Outcome>)
      requires Ready() && PassOf(world.s, w).Running? && PassOf(world.s, w).at.Probing?
      requires issued.Copy() == PassOf(world.s, w).issued && StateOf(issued.status) == Known
      modifies world, issued
      ensures Ready() && world.Continued(w)
      ensures ended.Some? ==> PassOf(world.s, w).Idle? && ended.value != Absent
      ensures ended.None? ==>
        PassOf(world.s, w) == Go(PassOf(old(world.s), w), Ensuring(PassOf(old(world.s), w).at.token))
      ensures ended.None? ==> issued.Copy() == old(issued.Copy())
    {
      var there, removedAt := world.ServicePrincipalExists(w, issued.status.servicePrincipalId.value);
      if there.None? {
        var outcome := ReportFailure(issued);
        return Some(outcome);
      }
      if there.value {
        return None;
      }
      issued.status := issued.status.(removedAt := Some(removedAt));
      var outcome := ReportReady(issued);
      return Some(outcome);
    }

    method Mark(clients: string, issued: Issued, token: Token, now: nat) returns (err: bool)
      requires Ready() && PassOf(world.s, w) == Running(clients, issued.Copy(), Marking(token, now))
      modifies world, issued
      ensures Ready() && world.Continued(w)
      ensures PassOf(world.s, w) == if err then Idle else Running(clients, issued.Copy(), Creating(token))
      ensures issued.status.createSentAt == Some(now)
    {
      if clients != "" && issued.status.accountId == "" {
        issued.status := issued.status.(accountId := clients);
      }
      issued.status := issued.status.(createSentAt := Some(now));
      var failed, _ := world.UpdateStatus(w, issued);
      err := failed;
    }

    /** The mark is persisted before the call that it tells of. */
    method Create(clients: string, issued: Issued, token: Token, now: nat) returns (ended: Option<Outcome>)
      requires Ready() && PassOf(world.s, w) == Running(clients, issued.Copy(), Marking(token, now))
      modifies world, issued
      ensures Ready() && world.Continued(w)
      ensures ended.Some? ==> PassOf(world.s, w).Idle? && ended.value != Absent
      ensures ended.None? ==> PassOf(world.s, w) == Running(clients, issued.Copy(), Ensuring(token))
    {
      var err := Mark(clients, issued, token, now);
      if err {
        return Some(Erred);
      }
      var made := world.CreateServicePrincipal(w);
      if made.None? {
        var outcome := ReportFailure(issued);
        return Some(outcome);
      }
      var failed := Adopt(clients, issued, made.value.0, made.value.1, token);
      return if failed then Some(Erred) else None;
    }

    /** Looked for, and nothing else: creating here is what makes two. */
    method Find(clients: string, issued: Issued, token: Token) returns (ended: Option<Outcome>)
      requires Ready() && !issued.deleting && PassOf(world.s, w) == Running(clients, issued.Copy(), Searching(token))
      modifies world, issued
      ensures Ready() && world.Continued(w)
      ensures ended.Some? ==> PassOf(world.s, w).Idle? && ended.value != Absent
      ensures ended.None? ==> PassOf(world.s, w) == Running(clients, issued.Copy(), Ensuring(token))
    {
      var found := world.FindServicePrincipal(w);
      if found.None? {
        var outcome := ReportFailure(issued);
        return Some(outcome);
      }
      var failed := Adopt(clients, issued, found.value.0, found.value.1, token);
      return if failed then Some(Erred) else None;
    }

    /** Writes down what Databricks answered, before anything else is attempted. */
    method Adopt(clients: string, issued: Issued, id: nat, clientId: string, token: Token) returns (err: bool)
      requires Ready() && PassOf(world.s, w) == Running(clients, issued.Copy(), Adopting(token, id, clientId))
      modifies world, issued
      ensures Ready() && world.Continued(w)
      ensures err ==> PassOf(world.s, w).Idle?
      ensures !err ==> PassOf(world.s, w) == Running(clients, issued.Copy(), Ensuring(token))
      ensures !err ==> issued.status.servicePrincipalId == Some(id) && issued.status.clientId == clientId
    {
      issued.status := issued.status.(servicePrincipalId := Some(id), clientId := clientId);
      if clients != "" {
        issued.status := issued.status.(accountId := clients);
      }
      issued.status := issued.status.(issuer := token.issuer);
      issued.status := issued.status.(audience := token.audience);
      var failed, _ := world.UpdateStatus(w, issued);
      err := failed;
    }

    /**
     Deletes the record, once this operator holds the namespace or it is gone. sent is where the one delete
     was sent, and without it none was: there, a declared account that was read does not name the namespace,
     and a Namespace that was read is this operator's or is not there.
     */
    method DestroyBecauseNotServed(issued: Issued) returns (outcome: Outcome, ghost sent: Option<State>)
      requires Ready() && PassOf(world.s, w).Running? && PassOf(world.s, w).at.CheckingClaim?
      requires issued.Copy() == PassOf(world.s, w).issued
      modifies world, issued
      ensures Ready() && world.Went(w, if sent.Some? then 1 else 0) && PassOf(world.s, w).Idle? && outcome != Absent
      ensures sent.Some? ==>
        var p := PassOf(sent.value, w);
        p.Running? && p.at.Deleting? && p.at.why.NotServed? && p.issued == old(issued.Copy())
        && Justified(sent.value.seen, world.operator, p.issued, p.at.why)
    {
      hide Run, Initial, Starts, Over, Crashes, Deletes;
      sent := None;
      var held := world.HeldBy(w);
      if held.None? {
        return Erred, None;
      }
      var (holder, there) := held.value;
      if there && holder.None? {
        outcome := ReportReady(issued);
        return;
      }
      if there && holder != Some(world.operator) {
        outcome := ReportReady(issued);
        return;
      }
      var err, before := world.Delete(w, issued);
      return if err then Erred else Settled, Some(before);
    }
  }
}

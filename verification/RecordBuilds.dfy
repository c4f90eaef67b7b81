/**
 What one pass that nobody comes between makes of a record and of Databricks, from whatever state they are
 in: building comes to what the record's status and the account say, and nothing else moves
 (internal/controller/issueddatabricksserviceprincipal_controller.go:127-247, 342-506, 554-587).
 */
module RecordBuilds {
  import opened Names
  import opened Options
  import opened Records
  import opened RecordProtocol
  import opened RecordRuns
  import RecordSafety
  import RecordTheorems
  import Requests

  /** One pass through n of its calls, each answered, and each create taking effect while it is awaited. */
  ghost function Carried(s: State, w: Worker, token: Token, clientId: string, n: nat): State
    decreases n
  {
    var p := PassOf(s, w);
    if n == 0 || p.Idle? then s
    else
      var m := if p.at.Awaiting? then Next(s, Land(p.at.flight, clientId)) else s;
      Carried(Next(m, Call(w, QuietAnswer(m, p, token))), w, token, clientId, n - 1)
  }

  /** A pass over the version that is stored. None makes more than nine calls. */
  ghost function Undisturbed(s: State, w: Worker, key: Key, here: string, token: Token, clientId: string,
                             calls: nat): State {
    if key in s.store then Carried(Next(s, Begin(w, s.store[key], here)), w, token, clientId, calls) else s
  }

  /** It is a run of the protocol like any other. */
  lemma {:induction false} CarriedIsRun(s: State, w: Worker, token: Token, clientId: string, n: nat)
    returns (steps: seq<Step>)
    ensures Carried(s, w, token, clientId, n) == Run(s, steps)
    decreases n
  {
    hide Next, QuietAnswer;
    if n == 0 || PassOf(s, w).Idle? {
      steps := [];
    } else {
      var p := PassOf(s, w);
      var before := if p.at.Awaiting? then [Land(p.at.flight, clientId)] else [];
      var m := if p.at.Awaiting? then Next(s, Land(p.at.flight, clientId)) else s;
      if p.at.Awaiting? {
        OneStep(s, Land(p.at.flight, clientId));
      }
      var answer := QuietAnswer(m, p, token);
      AndThen(s, before, Call(w, answer));
      var rest := CarriedIsRun(Next(m, Call(w, answer)), w, token, clientId, n - 1);
      RunJoins(s, before + [Call(w, answer)], rest);
      steps := before + [Call(w, answer)] + rest;
    }
  }

  lemma UndisturbedIsRun(s: State, w: Worker, key: Key, here: string, token: Token, clientId: string, calls: nat)
    returns (steps: seq<Step>)
    ensures Undisturbed(s, w, key, here, token, clientId, calls) == Run(s, steps)
  {
    hide Next, Carried, Run;
    if key in s.store {
      var begin := Begin(w, s.store[key], here);
      var rest := CarriedIsRun(Next(s, begin), w, token, clientId, calls);
      OneStep(s, begin);
      RunJoins(s, [begin], rest);
      steps := [begin] + rest;
    } else {
      steps := [];
      assert Run(s, []) == s by { NoStep(s); }
    }
  }

  lemma NoStep(s: State)
    ensures Run(s, []) == s
  {
  }

  lemma OneCarried(s: State, w: Worker, token: Token, clientId: string, n: nat)
    requires n > 0 && PassOf(s, w).Running? && !PassOf(s, w).at.Awaiting?
    ensures Carried(s, w, token, clientId, n)
         == Carried(Advance(s, w, PassOf(s, w), QuietAnswer(s, PassOf(s, w), token)), w, token, clientId, n - 1)
  {
  }

  lemma CarriedEnds(s: State, w: Worker, token: Token, clientId: string, n: nat)
    requires PassOf(s, w).Idle?
    ensures Carried(s, w, token, clientId, n) == s
  {
  }

  /******* From each call to the end of the pass *******/

  /** The pass is over the very version that is stored. */
  predicate OverStored(m: State, w: Worker) {
    var p := PassOf(m, w);
    p.Running? && p.issued.key in m.store && m.store[p.issued.key] == p.issued
  }

  /** Only one record's status was written, the pass is over, and so is what was there of service principals. */
  ghost predicate OnlyWrote(m: State, t: State, w: Worker, r: Record, status: Status) {
    && t.operator == m.operator && t.cluster == m.cluster && PassOf(t, w).Idle?
    && r.key in t.store && t.store == m.store[r.key := r.(status := status, version := t.store[r.key].version)]
  }

  /** The write a pass ends on. */
  lemma LastWritten(m: State, w: Worker) returns (t: State)
    requires OverStored(m, w) && Writes(PassOf(m, w).at) && Onward(PassOf(m, w).at).None?
    ensures t == Advance(m, w, PassOf(m, w), Done)
    ensures OnlyWrote(m, t, w, PassOf(m, w).issued, Proposed(PassOf(m, w)))
    ensures t.principals == m.principals && t.policies == m.policies && t.flights == m.flights
  {
    hide Look, Talk, Proposed, AddFinalizer, DeleteByName, DropFinalizer;
    var p := PassOf(m, w);
    t := WriteStatus(m, w, p, Proposed(p), Done, None);
  }

  lemma FromReporting(m: State, w: Worker, token: Token, clientId: string, n: nat) returns (t: State)
    requires n >= 1 && OverStored(m, w) && PassOf(m, w).at.Reporting?
    ensures t == Carried(m, w, token, clientId, n) && OnlyWrote(m, t, w, PassOf(m, w).issued, PassOf(m, w).at.status)
    ensures t.principals == m.principals && t.policies == m.policies && t.flights == m.flights
  {
    hide Advance, Carried;
    OneCarried(m, w, token, clientId, n);
    t := LastWritten(m, w);
    CarriedEnds(t, w, token, clientId, n - 1);
  }

  lemma FromLatching(m: State, w: Worker, token: Token, clientId: string, n: nat) returns (t: State)
    requires n >= 1 && OverStored(m, w) && PassOf(m, w).at.Latching?
    ensures t == Carried(m, w, token, clientId, n)
    ensures var r := PassOf(m, w).issued; OnlyWrote(m, t, w, r, r.status.(removedAt := Some(PassOf(m, w).at.now)))
    ensures t.principals == m.principals && t.policies == m.policies && t.flights == m.flights
  {
    hide Advance, Carried;
    OneCarried(m, w, token, clientId, n);
    t := LastWritten(m, w);
    CarriedEnds(t, w, token, clientId, n - 1);
  }

  /** The policy is written, and the status says what for. */
  lemma FromEnsuring(m: State, w: Worker, token: Token, clientId: string, n: nat, id: nat) returns (t: State)
    requires n >= 2 && OverStored(m, w) && PassOf(m, w).at == Ensuring(token) && PassOf(m, w).here != ""
    requires PassOf(m, w).issued.status.servicePrincipalId == Some(id) && id in m.principals
    ensures t == Carried(m, w, token, clientId, n)
    ensures var r := PassOf(m, w).issued;
      && OnlyWrote(m, t, w, r, r.status.(issuer := token.issuer, audience := token.audience))
      && t.policies == m.policies[id := Trust(token.issuer, r.owner, token.audience)]
    ensures t.principals == m.principals && t.flights == m.flights
  {
    hide Carried;
    OneCarried(m, w, token, clientId, n);
    var e := Ensure(m, w, PassOf(m, w), token, Done);
    RecordTheorems.EnsuredReports(m, w, PassOf(m, w), token, Done);
    t := FromReporting(e, w, token, clientId, n - 1);
  }

  /** What a write that goes on leads to. */
  lemma WroteOn(m: State, w: Worker) returns (t: State)
    requires OverStored(m, w) && Writes(PassOf(m, w).at) && Onward(PassOf(m, w).at).Some?
    ensures t == Advance(m, w, PassOf(m, w), Done)
    ensures var p := PassOf(m, w);
      var r := p.issued.(status := Proposed(p), version := m.clock);
      && OverStored(t, w) && PassOf(t, w) == Running(p.here, r, Onward(p.at).value)
      && t.store == m.store[r.key := r] && t.operator == m.operator && t.cluster == m.cluster
      && t.principals == m.principals && t.policies == m.policies && t.flights == m.flights && m.clock < t.clock
  {
    hide Look, Talk, Proposed, Onward, AddFinalizer, DeleteByName, DropFinalizer;
    var p := PassOf(m, w);
    t := WriteStatus(m, w, p, Proposed(p), Done, Onward(p.at));
  }

  /** The mark that goes before a create says when, and in which account where none was named before. */
  lemma MarkIsStored(m: State, w: Worker) returns (t: State)
    requires OverStored(m, w) && PassOf(m, w).at.Marking?
    ensures t == Advance(m, w, PassOf(m, w), Done)
    ensures var p := PassOf(m, w);
      var before := p.issued.status;
      && p.issued.key in t.store
      && t.store[p.issued.key].status == Status(if before.accountId != "" then before.accountId else p.here,
                                                Some(p.at.now), before.servicePrincipalId, before.clientId,
                                                before.issuer, before.audience, before.removedAt)
  {
    hide Advance;
    t := WroteOn(m, w);
  }

  /** What an adopted record's status says, field by field. */
  function Built(before: Status, here: string, id: nat, clientId: string, token: Token): Status {
    Status(here, before.createSentAt, Some(id), clientId, token.issuer, token.audience, before.removedAt)
  }

  /** What was made or found is on the record before anything else is done with it. */
  lemma AdoptionIsStored(m: State, w: Worker) returns (t: State)
    requires OverStored(m, w) && PassOf(m, w).at.Adopting? && PassOf(m, w).here != ""
    ensures t == Advance(m, w, PassOf(m, w), Done)
    ensures var p := PassOf(m, w);
      && p.issued.key in t.store
      && t.store[p.issued.key].status == Built(p.issued.status, p.here, p.at.id, p.at.clientId, p.at.token)
  {
    hide Advance;
    t := WroteOn(m, w);
  }

  lemma FromAdopting(m: State, w: Worker, token: Token, clientId: string, n: nat, id: nat, got: string)
    returns (t: State)
    requires n >= 3 && OverStored(m, w) && PassOf(m, w).at == Adopting(token, id, got) && PassOf(m, w).here != ""
    requires id in m.principals
    ensures t == Carried(m, w, token, clientId, n)
    ensures var p := PassOf(m, w);
      && OnlyWrote(m, t, w, p.issued, Built(p.issued.status, p.here, id, got, token))
      && t.policies == m.policies[id := Trust(token.issuer, p.issued.owner, token.audience)]
    ensures t.principals == m.principals && t.flights == m.flights
  {
    hide Advance, Carried;
    OneCarried(m, w, token, clientId, n);
    var e := WroteOn(m, w);
    t := FromEnsuring(e, w, token, clientId, n - 1, id);
  }

  /** What shows is what is written down. */
  lemma FromSearching(m: State, w: Worker, token: Token, clientId: string, n: nat) returns (t: State, id: nat)
    requires n >= 4 && OverStored(m, w) && PassOf(m, w).at == Searching(token) && PassOf(m, w).here != ""
    requires !PassOf(m, w).issued.deleting && Shows(m, MarkerOf(m, PassOf(m, w).issued, token))
    ensures t == Carried(m, w, token, clientId, n)
    ensures var p := PassOf(m, w);
      && id in m.principals && m.principals[id].marker == Marker(token.issuer, m.operator, p.issued.key)
      && OnlyWrote(m, t, w, p.issued, Built(p.issued.status, p.here, id, m.principals[id].clientId, token))
      && t.policies == m.policies[id := Trust(token.issuer, p.issued.owner, token.audience)]
    ensures t.principals == m.principals && t.flights == m.flights
  {
    var p := PassOf(m, w);
    var a := QuietAnswer(m, p, token);
    OneCarried(m, w, token, clientId, n);
    id := a.id;
    var q := Running(p.here, p.issued, Adopting(token, id, m.principals[id].clientId));
    assert Advance(m, w, p, a) == Move(m, w, q);
    hide Advance, Carried;
    t := FromAdopting(Move(m, w, q), w, token, clientId, n - 1, id, m.principals[id].clientId);
  }

  /** Where nothing shows, nothing is written but what is there. */
  lemma FromSearchingBlank(m: State, w: Worker, token: Token, clientId: string, n: nat) returns (t: State)
    requires n >= 2 && OverStored(m, w) && PassOf(m, w).at == Searching(token)
    requires !Shows(m, MarkerOf(m, PassOf(m, w).issued, token))
    ensures t == Carried(m, w, token, clientId, n)
    ensures OnlyWrote(m, t, w, PassOf(m, w).issued, PassOf(m, w).issued.status)
    ensures t.principals == m.principals && t.policies == m.policies && t.flights == m.flights
  {
    var p := PassOf(m, w);
    OneCarried(m, w, token, clientId, n);
    var q := Running(p.here, p.issued, Reporting(p.issued.status));
    assert Advance(m, w, p, Done) == Move(m, w, q);
    hide Advance, Carried;
    t := FromReporting(Move(m, w, q), w, token, clientId, n - 1);
  }

  /** An id that is there is asked about and its policy written. */
  lemma FromProbingLive(m: State, w: Worker, token: Token, clientId: string, n: nat, id: nat) returns (t: State)
    requires n >= 3 && OverStored(m, w) && PassOf(m, w).at == Probing(token) && PassOf(m, w).here != ""
    requires PassOf(m, w).issued.status.servicePrincipalId == Some(id) && id in m.principals
    ensures t == Carried(m, w, token, clientId, n)
    ensures var r := PassOf(m, w).issued;
      && OnlyWrote(m, t, w, r, r.status.(issuer := token.issuer, audience := token.audience))
      && t.policies == m.policies[id := Trust(token.issuer, r.owner, token.audience)]
    ensures t.principals == m.principals && t.flights == m.flights
  {
    var p := PassOf(m, w);
    OneCarried(m, w, token, clientId, n);
    var q := Running(p.here, p.issued, Ensuring(token));
    assert Advance(m, w, p, Done) == Move(m, w, q);
    hide Advance, Carried;
    t := FromEnsuring(Move(m, w, q), w, token, clientId, n - 1, id);
  }

  lemma FromProbingGone(m: State, w: Worker, token: Token, clientId: string, n: nat, id: nat) returns (t: State)
    requires n >= 2 && OverStored(m, w) && PassOf(m, w).at == Probing(token) && PassOf(m, w).here != ""
    requires PassOf(m, w).issued.status.servicePrincipalId == Some(id) && id !in m.principals
    ensures t == Carried(m, w, token, clientId, n)
    ensures var r := PassOf(m, w).issued; OnlyWrote(m, t, w, r, r.status.(removedAt := Some(m.clock)))
    ensures t.principals == m.principals && t.policies == m.policies && t.flights == m.flights
  {
    var p := PassOf(m, w);
    OneCarried(m, w, token, clientId, n);
    var q := Running(p.here, p.issued, Latching(m.clock));
    assert Advance(m, w, p, Done) == Move(m, w, q);
    hide Advance, Carried;
    t := FromLatching(Move(m, w, q), w, token, clientId, n - 1);
  }

  /** The create is awaited until it has taken effect, and its answer is what is written down. */
  lemma FromAwaiting(m: State, w: Worker, token: Token, clientId: string, n: nat, f: nat) returns (t: State)
    requires n >= 4 && OverStored(m, w) && PassOf(m, w).at == Awaiting(token, f) && PassOf(m, w).here != ""
    requires f in m.flights && m.flights[f].phase.InAir?
    ensures t == Carried(m, w, token, clientId, n)
    ensures var p, id := PassOf(m, w), m.clock;
      && OnlyWrote(m, t, w, p.issued, Built(p.issued.status, p.here, id, clientId, token))
      && t.policies == m.policies[id := Trust(token.issuer, p.issued.owner, token.audience)]
      && t.principals == m.principals[id := Principal(m.flights[f].marker, clientId)]
  {
    var p := PassOf(m, w);
    var landed := Next(m, Land(f, clientId));
    var q := Running(p.here, p.issued, Adopting(token, m.clock, clientId));
    assert Next(landed, Call(w, Done)) == Move(landed, w, q);
    assert Carried(m, w, token, clientId, n) == Carried(Move(landed, w, q), w, token, clientId, n - 1);
    hide Advance, Carried;
    t := FromAdopting(Move(landed, w, q), w, token, clientId, n - 1, m.clock, clientId);
  }

  lemma CreateCalled(m: State, w: Worker, token: Token) returns (t: State)
    requires OverStored(m, w) && PassOf(m, w).at == Creating(token) && PassOf(m, w).here != ""
    ensures t == Advance(m, w, PassOf(m, w), Done)
    ensures var p := PassOf(m, w);
      && OverStored(t, w) && PassOf(t, w) == Running(p.here, p.issued, Awaiting(token, m.clock))
      && t.store == m.store && t.operator == m.operator && t.cluster == m.cluster && t.clock == m.clock + 1
      && t.principals == m.principals && t.policies == m.policies
      && m.clock in t.flights && t.flights[m.clock].phase.InAir?
      && t.flights[m.clock].marker == Marker(token.issuer, m.operator, p.issued.key)
  {
    hide Look, Write, Await, Search, Remove, Ensure;
    t := SendCreate(m, w, PassOf(m, w), token, Done);
  }

  lemma FromCreating(m: State, w: Worker, token: Token, clientId: string, n: nat) returns (t: State)
    requires n >= 5 && OverStored(m, w) && PassOf(m, w).at == Creating(token) && PassOf(m, w).here != ""
    ensures t == Carried(m, w, token, clientId, n)
    ensures var p, id := PassOf(m, w), m.clock + 1;
      && OnlyWrote(m, t, w, p.issued, Built(p.issued.status, p.here, id, clientId, token))
      && t.policies == m.policies[id := Trust(token.issuer, p.issued.owner, token.audience)]
      && t.principals == m.principals[id := Principal(Marker(token.issuer, m.operator, p.issued.key), clientId)]
  {
    hide Advance, Carried;
    OneCarried(m, w, token, clientId, n);
    var e := CreateCalled(m, w, token);
    t := FromAwaiting(e, w, token, clientId, n - 1, m.clock);
  }

  lemma FromMarking(m: State, w: Worker, token: Token, clientId: string, n: nat) returns (t: State, id: nat)
    requires n >= 6 && OverStored(m, w) && PassOf(m, w).at.Marking? && PassOf(m, w).at.token == token
    requires PassOf(m, w).here != ""
    ensures t == Carried(m, w, token, clientId, n) && id >= m.clock
    ensures var p := PassOf(m, w);
      var marked := p.issued.status.(createSentAt := Some(p.at.now));
      && OnlyWrote(m, t, w, p.issued, Built(marked, p.here, id, clientId, token))
      && t.policies == m.policies[id := Trust(token.issuer, p.issued.owner, token.audience)]
      && t.principals == m.principals[id := Principal(Marker(token.issuer, m.operator, p.issued.key), clientId)]
  {
    hide Advance, Carried;
    OneCarried(m, w, token, clientId, n);
    var e := WroteOn(m, w);
    t := FromCreating(e, w, token, clientId, n - 1);
    id := e.clock + 1;
  }

  /******* From its start *******/

  /** The ServiceAccount is not there, is another one, or its annotation lets go of this identity. */
  predicate Unasked(s: State, r: Record) {
    r.owner !in s.cluster.serviceAccounts
    || s.cluster.serviceAccounts[r.owner].uid != r.key.uid
    || (var annotations := s.cluster.serviceAccounts[r.owner].annotations;
        var annotation := Requests.AnnotationFor(r.key.identity);
        annotation !in annotations
        || ((r.key.identity == "" || Requests.IsIdentityName(r.key.identity))
            && Requests.ParseOperator(annotations[annotation]).Some?
            && Requests.ParseOperator(annotations[annotation]) != Some(s.operator)))
  }

  /** The account that is declared does not name the record's namespace. */
  predicate Unserved(s: State, r: Record) {
    s.cluster.declared.Some? && r.owner.namespace !in s.cluster.declared.value
  }

  /** The namespace is this operator's to destroy in, or is not there at all. */
  predicate Claimed(s: State, r: Record) {
    r.owner.namespace !in s.cluster.holders || s.cluster.holders[r.owner.namespace] == Some(s.operator)
  }

  /** A worker that is free, and a record that is there. */
  ghost predicate Ready(s: State, w: Worker, key: Key) {
    Inv(s) && PassOf(s, w).Idle? && key in s.store
  }

  /** A pass that starts over what is stored, with clients and a token that says who issued it and for whom. */
  ghost predicate Starts(s: State, w: Worker, key: Key, here: string, token: Token) {
    && Ready(s, w, key)
    && here != "" && TrimSpace(token.issuer) != "" && token.audience != ""
  }

  lemma StartsOver(s: State, w: Worker, key: Key)
    requires Ready(s, w, key)
    ensures s.store[key].key == key && s.store[key] in s.past && s.cluster in s.seen
    ensures StateOf(s.store[key].status) != Unsent || s.store[key].deleting ==> s.store[key].finalizer
    ensures StateOf(s.store[key].status) == Known ==> s.store[key].status.servicePrincipalId.Some?
    ensures InOrder(s.store[key].status)
  {
  }

  lemma OneCarriedLook(s: State, w: Worker, p: Pass, token: Token, clientId: string, n: nat)
    requires n > 0 && p.Running? && Looks(p.at)
    ensures var m := Move(s, w, p);
      Carried(m, w, token, clientId, n)
        == Carried(Move(s, w, Look(m, p, QuietAnswer(m, p, token))), w, token, clientId, n - 1)
  {
    hide Look, QuietAnswer;
    var m := Move(s, w, p);
    OneCarried(m, w, token, clientId, n);
    MovedTwice(s, w, p, Look(m, p, QuietAnswer(m, p, token)));
  }

  lemma AskedGoesOn(s: State, w: Worker, r: Record, here: string, token: Token, clientId: string, n: nat)
    requires n >= 1
    ensures Carried(Move(s, w, Running(here, r, Asking)), w, token, clientId, n)
         == Carried(Move(s, w, Running(here, r, if Unasked(s, r) then Deleting(Unwanted(s.cluster)) else Locating)),
                    w, token, clientId, n - 1)
  {
    hide Carried, Requests.AnnotationFor, Requests.ParseOperator, Requests.IsIdentityName;
    OneCarriedLook(s, w, Running(here, r, Asking), token, clientId, n);
  }

  lemma LocatedGoesOn(s: State, w: Worker, r: Record, here: string, token: Token, clientId: string, n: nat)
    requires n >= 1 && s.cluster in s.seen
    ensures Carried(Move(s, w, Running(here, r, Locating)), w, token, clientId, n)
         == Carried(Move(s, w, Running(here, r,
                                       if Unserved(s, r) then CheckingClaim(s.cluster)
                                       else if StateOf(r.status) == Gone then Reporting(r.status)
                                       else Preparing)),
                    w, token, clientId, n - 1)
  {
    hide Carried, StateOf;
    OneCarriedLook(s, w, Running(here, r, Locating), token, clientId, n);
  }

  lemma CheckedGoesOn(s: State, w: Worker, r: Record, here: string, token: Token, clientId: string, n: nat)
    requires n >= 1 && s.cluster in s.seen
    ensures Carried(Move(s, w, Running(here, r, CheckingClaim(s.cluster))), w, token, clientId, n)
         == Carried(Move(s, w, Running(here, r,
                                       if Claimed(s, r) then Deleting(NotServed(s.cluster, s.cluster))
                                       else Reporting(r.status))),
                    w, token, clientId, n - 1)
  {
    hide Carried;
    OneCarriedLook(s, w, Running(here, r, CheckingClaim(s.cluster)), token, clientId, n);
  }

  lemma PreparedGoesOn(s: State, w: Worker, r: Record, here: string, token: Token, clientId: string, n: nat)
    requires n >= 1 && TrimSpace(token.issuer) != "" && token.audience != "" && !r.deleting
    ensures Carried(Move(s, w, Running(here, r, Preparing)), w, token, clientId, n)
         == Carried(Move(s, w, Running(here, r,
                                       match StateOf(r.status)
                                       case Unsent => Marking(token, s.clock)
                                       case Sent => Searching(token)
                                       case Known => Probing(token)
                                       case Gone => Reporting(r.status))),
                    w, token, clientId, n - 1)
  {
    hide Carried, StateOf, TrimSpace;
    OneCarriedLook(s, w, Running(here, r, Preparing), token, clientId, n);
  }

  lemma DeletedEnds(m: State, w: Worker, token: Token, clientId: string, n: nat) returns (t: State)
    requires n >= 1 && OverStored(m, w) && PassOf(m, w).at.Deleting?
    requires PassOf(m, w).issued.finalizer && !PassOf(m, w).issued.deleting
    ensures t == Carried(m, w, token, clientId, n)
    ensures var r := PassOf(m, w).issued;
      && t.operator == m.operator && t.cluster == m.cluster && PassOf(t, w).Idle?
      && r.key in t.store && t.store == m.store[r.key := r.(deleting := true, version := t.store[r.key].version)]
    ensures t.principals == m.principals && t.policies == m.policies && t.flights == m.flights
  {
    OneCarried(m, w, token, clientId, n);
    t := Advance(m, w, PassOf(m, w), Done);
    CarriedEnds(t, w, token, clientId, n - 1);
  }

  /******* What a pass comes to *******/

  /** Nothing was asked of Databricks that changes anything there. */
  predicate LeftAlone(s: State, t: State) {
    t.principals == s.principals && t.policies == s.policies && t.flights == s.flights
  }

  /** The record that is stored, and nothing else, is as given, under a new version. */
  ghost predicate Becomes(s: State, t: State, w: Worker, key: Key, r: Record) {
    && t.operator == s.operator && t.cluster == s.cluster && PassOf(t, w).Idle?
    && key in t.store && t.store == s.store[key := r.(version := t.store[key].version)]
  }

  /** A pass that starts over a record that is held asks first whether anybody still wants it. */
  lemma AsksFirst(s: State, w: Worker, key: Key, here: string, token: Token, clientId: string, calls: nat)
    requires calls >= 9 && Ready(s, w, key) && s.store[key].finalizer && !s.store[key].deleting
    ensures var r := s.store[key];
      Undisturbed(s, w, key, here, token, clientId, calls)
        == Carried(Move(s, w, Running(here, r, if Unasked(s, r) then Deleting(Unwanted(s.cluster)) else Locating)),
                   w, token, clientId, calls - 1)
  {
    hide Carried, Unasked, StateOf, InOrder, Advance, Put, TrimSpace, Inv;
    StartsOver(s, w, key);
    var r := s.store[key];
    assert Next(s, Begin(w, r, here)) == Move(s, w, Running(here, r, Asking));
    AskedGoesOn(s, w, r, here, token, clientId, calls);
  }

  /** As far as the token, for a record that is asked for and served. */
  lemma ReachesBuilding(s: State, w: Worker, key: Key, here: string, token: Token, clientId: string, calls: nat)
    requires calls >= 9 && Starts(s, w, key, here, token) && s.store[key].finalizer && !s.store[key].deleting
    requires !Unasked(s, s.store[key]) && !Unserved(s, s.store[key]) && StateOf(s.store[key].status) != Gone
    ensures var r := s.store[key];
      Undisturbed(s, w, key, here, token, clientId, calls)
        == Carried(Move(s, w, Running(here, r,
                                      match StateOf(r.status)
                                      case Unsent => Marking(token, s.clock)
                                      case Sent => Searching(token)
                                      case Known => Probing(token)
                                      case Gone => Reporting(r.status))),
                   w, token, clientId, calls - 3)
  {
    hide Inv, InOrder, Carried, Undisturbed, Move, Unasked, Unserved, StateOf, TrimSpace;
    StartsOver(s, w, key);
    AsksFirst(s, w, key, here, token, clientId, calls);
    var r := s.store[key];
    LocatedGoesOn(s, w, r, here, token, clientId, calls - 1);
    PreparedGoesOn(s, w, r, here, token, clientId, calls - 2);
  }

  /** An id that is recorded and there is asked about, and its policy trusts what the token says today. */
  lemma KnownIsTended(s: State, w: Worker, key: Key, here: string, token: Token, clientId: string, calls: nat, id: nat)
    returns (t: State)
    requires calls >= 9 && Starts(s, w, key, here, token) && s.store[key].finalizer && !s.store[key].deleting
    requires !Unasked(s, s.store[key]) && !Unserved(s, s.store[key])
    requires s.store[key].status.servicePrincipalId == Some(id) && s.store[key].status.removedAt.None?
    requires id in s.principals
    ensures t == Undisturbed(s, w, key, here, token, clientId, calls)
    ensures var status := s.store[key].status.(issuer := token.issuer, audience := token.audience);
      Becomes(s, t, w, key, s.store[key].(status := status))
    ensures t.policies == s.policies[id := Trust(token.issuer, s.store[key].owner, token.audience)]
    ensures t.principals == s.principals && t.flights == s.flights
  {
    hide Inv, InOrder, Carried, Undisturbed, Unasked, Unserved, TrimSpace;
    StartsOver(s, w, key);
    ReachesBuilding(s, w, key, here, token, clientId, calls);
    t := FromProbingLive(Move(s, w, Running(here, s.store[key], Probing(token))), w, token, clientId, calls - 3, id);
  }

  /** One that is not there is latched as gone, and stays on the record. */
  lemma MissingIsLatched(s: State, w: Worker, key: Key, here: string, token: Token, clientId: string, calls: nat,
                         id: nat)
    returns (t: State, now: nat)
    requires calls >= 9 && Starts(s, w, key, here, token) && s.store[key].finalizer && !s.store[key].deleting
    requires !Unasked(s, s.store[key]) && !Unserved(s, s.store[key])
    requires s.store[key].status.servicePrincipalId == Some(id) && s.store[key].status.removedAt.None?
    requires id !in s.principals
    ensures t == Undisturbed(s, w, key, here, token, clientId, calls) && LeftAlone(s, t)
    ensures Becomes(s, t, w, key, s.store[key].(status := s.store[key].status.(removedAt := Some(now))))
  {
    hide Inv, InOrder, Carried, Undisturbed, Unasked, Unserved, TrimSpace;
    StartsOver(s, w, key);
    ReachesBuilding(s, w, key, here, token, clientId, calls);
    t := FromProbingGone(Move(s, w, Running(here, s.store[key], Probing(token))), w, token, clientId, calls - 3, id);
    now := s.clock;
  }

  /** A record for which nothing was sent is as it was made, and its mark is what is written next. */
  lemma ReachesMarking(s: State, w: Worker, key: Key, here: string, token: Token, clientId: string, calls: nat)
    requires calls >= 9 && Starts(s, w, key, here, token) && s.store[key].finalizer && !s.store[key].deleting
    requires !Unasked(s, s.store[key]) && !Unserved(s, s.store[key]) && s.store[key].status.createSentAt.None?
    ensures s.store[key].key == key && forall id | id in s.principals :: id < s.clock
    ensures s.store[key].status.servicePrincipalId.None? && s.store[key].status.removedAt.None?
    ensures Undisturbed(s, w, key, here, token, clientId, calls)
         == Carried(Move(s, w, Running(here, s.store[key], Marking(token, s.clock))), w, token, clientId, calls - 3)
  {
    hide Carried, Undisturbed, Unasked, Unserved, TrimSpace;
    StartsOver(s, w, key);
    ReachesBuilding(s, w, key, here, token, clientId, calls);
  }

  /** Nothing was sent: one is made under the record's own key, written down with what came with it, and trusted. */
  lemma UnsentIsMade(s: State, w: Worker, key: Key, here: string, token: Token, clientId: string, calls: nat)
    returns (t: State, id: nat, now: nat)
    requires calls >= 9 && Starts(s, w, key, here, token) && s.store[key].finalizer && !s.store[key].deleting
    requires !Unasked(s, s.store[key]) && !Unserved(s, s.store[key]) && s.store[key].status.createSentAt.None?
    ensures t == Undisturbed(s, w, key, here, token, clientId, calls) && id !in s.principals
    ensures t.principals == s.principals[id := Principal(Marker(token.issuer, s.operator, key), clientId)]
    ensures t.policies == s.policies[id := Trust(token.issuer, s.store[key].owner, token.audience)]
    ensures var status := Status(here, Some(now), Some(id), clientId, token.issuer, token.audience, None);
      Becomes(s, t, w, key, s.store[key].(status := status))
  {
    hide Inv, Carried, Undisturbed, Unasked, Unserved, StateOf, InOrder, TrimSpace;
    ReachesMarking(s, w, key, here, token, clientId, calls);
    var m := Move(s, w, Running(here, s.store[key], Marking(token, s.clock)));
    t, id := FromMarking(m, w, token, clientId, calls - 3);
    now := s.clock;
  }

  /** One was sent and shows: it is written down and trusted, and nothing is made. */
  lemma SentIsFound(s: State, w: Worker, key: Key, here: string, token: Token, clientId: string, calls: nat)
    returns (t: State, id: nat)
    requires calls >= 9 && Starts(s, w, key, here, token) && s.store[key].finalizer && !s.store[key].deleting
    requires !Unasked(s, s.store[key]) && !Unserved(s, s.store[key])
    requires s.store[key].status.createSentAt.Some? && s.store[key].status.servicePrincipalId.None?
    requires Shows(s, Marker(token.issuer, s.operator, key))
    ensures t == Undisturbed(s, w, key, here, token, clientId, calls)
    ensures id in s.principals && s.principals[id].marker == Marker(token.issuer, s.operator, key)
    ensures var status := Status(here, s.store[key].status.createSentAt, Some(id), s.principals[id].clientId,
                                 token.issuer, token.audience, None);
      Becomes(s, t, w, key, s.store[key].(status := status))
    ensures t.policies == s.policies[id := Trust(token.issuer, s.store[key].owner, token.audience)]
    ensures t.principals == s.principals && t.flights == s.flights
  {
    hide Inv, InOrder, Carried, Undisturbed, Unasked, Unserved, TrimSpace;
    StartsOver(s, w, key);
    ReachesBuilding(s, w, key, here, token, clientId, calls);
    var m := Move(s, w, Running(here, s.store[key], Searching(token)));
    ShowsAlike(s, m, Marker(token.issuer, s.operator, key));
    t, id := FromSearching(m, w, token, clientId, calls - 3);
  }

  /** One was sent and does not show: nothing is made, and nothing changes. */
  lemma SentIsAwaited(s: State, w: Worker, key: Key, here: string, token: Token, clientId: string, calls: nat)
    returns (t: State)
    requires calls >= 9 && Starts(s, w, key, here, token) && s.store[key].finalizer && !s.store[key].deleting
    requires !Unasked(s, s.store[key]) && !Unserved(s, s.store[key])
    requires s.store[key].status.createSentAt.Some? && s.store[key].status.servicePrincipalId.None?
    requires !Shows(s, Marker(token.issuer, s.operator, key))
    ensures t == Undisturbed(s, w, key, here, token, clientId, calls)
    ensures Becomes(s, t, w, key, s.store[key]) && LeftAlone(s, t)
  {
    hide Inv, InOrder, Carried, Undisturbed, Unasked, Unserved, TrimSpace;
    StartsOver(s, w, key);
    ReachesBuilding(s, w, key, here, token, clientId, calls);
    var m := Move(s, w, Running(here, s.store[key], Searching(token)));
    ShowsAlike(s, m, Marker(token.issuer, s.operator, key));
    t := FromSearchingBlank(m, w, token, clientId, calls - 3);
  }

  /** One that was seen to be gone is never asked about again, and nothing is made in its place. */
  lemma GoneIsLeft(s: State, w: Worker, key: Key, here: string, token: Token, clientId: string, calls: nat)
    returns (t: State)
    requires calls >= 9 && Starts(s, w, key, here, token) && s.store[key].finalizer && !s.store[key].deleting
    requires !Unasked(s, s.store[key]) && !Unserved(s, s.store[key]) && s.store[key].status.removedAt.Some?
    ensures t == Undisturbed(s, w, key, here, token, clientId, calls)
    ensures Becomes(s, t, w, key, s.store[key]) && LeftAlone(s, t)
  {
    hide Inv, InOrder, Carried, Undisturbed, Unasked, Unserved, TrimSpace;
    StartsOver(s, w, key);
    AsksFirst(s, w, key, here, token, clientId, calls);
    var r := s.store[key];
    LocatedGoesOn(s, w, r, here, token, clientId, calls - 1);
    t := FromReporting(Move(s, w, Running(here, r, Reporting(r.status))), w, token, clientId, calls - 2);
  }

  lemma HeldFirst(s: State, w: Worker, key: Key, here: string)
    requires Ready(s, w, key) && !s.store[key].finalizer && !s.store[key].deleting
    ensures Next(s, Begin(w, s.store[key], here)) == Move(s, w, Running(here, s.store[key], AddingFinalizer))
    ensures s.store[key].key == key
  {
  }

  lemma FinalizerAdded(m: State, w: Worker) returns (t: State)
    requires OverStored(m, w) && PassOf(m, w).at.AddingFinalizer?
    ensures t == Advance(m, w, PassOf(m, w), Done)
    ensures var r := PassOf(m, w).issued;
      && t.operator == m.operator && t.cluster == m.cluster && PassOf(t, w).Idle?
      && r.key in t.store && t.store == m.store[r.key := r.(finalizer := true, version := t.store[r.key].version)]
    ensures t.principals == m.principals && t.policies == m.policies && t.flights == m.flights
  {
    hide Look, Talk, WriteStatus, DeleteByName, DropFinalizer;
    t := Advance(m, w, PassOf(m, w), Done);
  }

  /** A token that does not say who issued it, or for whom, leaves a record that is served as it is. */
  lemma UntoldIsLeft(s: State, w: Worker, key: Key, here: string, token: Token, clientId: string, calls: nat)
    returns (t: State)
    requires calls >= 9 && Ready(s, w, key) && s.store[key].finalizer && !s.store[key].deleting
    requires !Unasked(s, s.store[key]) && !Unserved(s, s.store[key])
    requires TrimSpace(token.issuer) == "" || token.audience == ""
    ensures t == Undisturbed(s, w, key, here, token, clientId, calls)
    ensures Becomes(s, t, w, key, s.store[key]) && LeftAlone(s, t)
  {
    hide Inv, InOrder, Carried, Undisturbed, Unasked, Unserved, StateOf, TrimSpace;
    StartsOver(s, w, key);
    AsksFirst(s, w, key, here, token, clientId, calls);
    var r := s.store[key];
    LocatedGoesOn(s, w, r, here, token, clientId, calls - 1);
    if StateOf(r.status) == Gone {
      t := FromReporting(Move(s, w, Running(here, r, Reporting(r.status))), w, token, clientId, calls - 2);
    } else {
      UntoldGoesOn(s, w, r, here, token, clientId, calls - 2);
      t := FromReporting(Move(s, w, Running(here, r, Reporting(r.status))), w, token, clientId, calls - 3);
    }
  }

  /** And so does a pass without clients, for a record something was sent for and that is not gone. */
  lemma ClientlessIsLeft(s: State, w: Worker, key: Key, token: Token, clientId: string, calls: nat)
    returns (t: State)
    requires calls >= 9 && Ready(s, w, key) && s.store[key].finalizer && !s.store[key].deleting
    requires !Unasked(s, s.store[key]) && !Unserved(s, s.store[key])
    requires s.store[key].status.createSentAt.Some? && s.store[key].status.removedAt.None?
    ensures t == Undisturbed(s, w, key, "", token, clientId, calls)
    ensures Becomes(s, t, w, key, s.store[key]) && LeftAlone(s, t)
  {
    hide Inv, InOrder, Carried, Undisturbed, Unasked, Unserved, TrimSpace;
    if TrimSpace(token.issuer) == "" || token.audience == "" {
      t := UntoldIsLeft(s, w, key, "", token, clientId, calls);
    } else {
      StartsOver(s, w, key);
      ClientlessReports(s, w, key, token, clientId, calls);
      var r := s.store[key];
      t := FromReporting(Move(s, w, Running("", r, Reporting(r.status))), w, token, clientId, calls - 4);
    }
  }

  lemma ClientlessReports(s: State, w: Worker, key: Key, token: Token, clientId: string, calls: nat)
    requires calls >= 9 && Ready(s, w, key) && s.store[key].finalizer && !s.store[key].deleting
    requires !Unasked(s, s.store[key]) && !Unserved(s, s.store[key])
    requires TrimSpace(token.issuer) != "" && token.audience != ""
    requires s.store[key].status.createSentAt.Some? && s.store[key].status.removedAt.None?
    ensures Undisturbed(s, w, key, "", token, clientId, calls)
         == Carried(Move(s, w, Running("", s.store[key], Reporting(s.store[key].status))), w, token, clientId,
                    calls - 4)
  {
    hide Inv, InOrder, Carried, Undisturbed, Move, Unasked, Unserved, TrimSpace;
    StartsOver(s, w, key);
    AsksFirst(s, w, key, "", token, clientId, calls);
    var r := s.store[key];
    LocatedGoesOn(s, w, r, "", token, clientId, calls - 1);
    PreparedGoesOn(s, w, r, "", token, clientId, calls - 2);
    var at := if StateOf(r.status) == Sent then Searching(token) else Probing(token);
    ClientlessGoesOn(s, w, r, at, token, clientId, calls - 3);
  }

  lemma ClientlessGoesOn(s: State, w: Worker, r: Record, at: At, token: Token, clientId: string, n: nat)
    requires n >= 1 && at in {Searching(token), Probing(token)}
    ensures Carried(Move(s, w, Running("", r, at)), w, token, clientId, n)
         == Carried(Move(s, w, Running("", r, Reporting(r.status))), w, token, clientId, n - 1)
  {
    hide Carried, QuietAnswer;
    var m := Move(s, w, Running("", r, at));
    OneCarried(m, w, token, clientId, n);
    MovedTwice(s, w, Running("", r, at), Running("", r, Reporting(r.status)));
  }

  lemma UntoldGoesOn(s: State, w: Worker, r: Record, here: string, token: Token, clientId: string, n: nat)
    requires n >= 1 && (TrimSpace(token.issuer) == "" || token.audience == "") && !r.deleting
    ensures Carried(Move(s, w, Running(here, r, Preparing)), w, token, clientId, n)
         == Carried(Move(s, w, Running(here, r, Reporting(r.status))), w, token, clientId, n - 1)
  {
    hide Carried, StateOf, TrimSpace;
    OneCarriedLook(s, w, Running(here, r, Preparing), token, clientId, n);
  }

  /** A record that nothing holds yet is held first. */
  lemma UnheldIsHeld(s: State, w: Worker, key: Key, here: string, token: Token, clientId: string, calls: nat)
    returns (t: State)
    requires calls >= 9 && Ready(s, w, key)
    requires !s.store[key].finalizer && !s.store[key].deleting
    ensures t == Undisturbed(s, w, key, here, token, clientId, calls)
    ensures Becomes(s, t, w, key, s.store[key].(finalizer := true)) && LeftAlone(s, t)
  {
    HeldFirst(s, w, key, here);
    hide Inv, Carried, Next, Advance;
    var m := Move(s, w, Running(here, s.store[key], AddingFinalizer));
    OneCarried(m, w, token, clientId, calls);
    t := FinalizerAdded(m, w);
    CarriedEnds(t, w, token, clientId, calls - 1);
  }

  /**
   A held record is deleted by a pass exactly where nobody asks for it any more, or where the declared
   account does not name its namespace and that is this operator's to destroy in, or not there. Where
   neither is so and it is not served either, it stays as it is.
   */
  lemma DeletedExactly(s: State, w: Worker, key: Key, here: string, token: Token, clientId: string, calls: nat)
    returns (t: State)
    requires calls >= 9 && Starts(s, w, key, here, token) && s.store[key].finalizer && !s.store[key].deleting
    ensures t == Undisturbed(s, w, key, here, token, clientId, calls) && key in t.store
    ensures t.store[key].deleting <==>
      Unasked(s, s.store[key]) || (Unserved(s, s.store[key]) && Claimed(s, s.store[key]))
    ensures t.store[key].deleting ==> Becomes(s, t, w, key, s.store[key].(deleting := true)) && LeftAlone(s, t)
    ensures Unserved(s, s.store[key]) && !t.store[key].deleting ==>
      Becomes(s, t, w, key, s.store[key]) && LeftAlone(s, t)
  {
    hide Inv, InOrder, StateOf, Carried, Undisturbed, Unasked, Unserved, Claimed, Shows, TrimSpace;
    StartsOver(s, w, key);
    var r := s.store[key];
    if Unasked(s, r) || Unserved(s, r) {
      AsksFirst(s, w, key, here, token, clientId, calls);
      if Unasked(s, r) {
        t := DeletedEnds(Move(s, w, Running(here, r, Deleting(Unwanted(s.cluster)))), w, token, clientId, calls - 1);
      } else {
        t := UnservedEnds(s, w, key, here, token, clientId, calls);
      }
    } else if r.status.removedAt.Some? {
      t := GoneIsLeft(s, w, key, here, token, clientId, calls);
    } else if r.status.servicePrincipalId.Some? {
      t := KnownStays(s, w, key, here, token, clientId, calls);
    } else if r.status.createSentAt.Some? {
      t := SentStays(s, w, key, here, token, clientId, calls);
    } else {
      var id, now;
      t, id, now := UnsentIsMade(s, w, key, here, token, clientId, calls);
    }
  }

  lemma UnservedEnds(s: State, w: Worker, key: Key, here: string, token: Token, clientId: string, calls: nat)
    returns (t: State)
    requires calls >= 9 && Starts(s, w, key, here, token) && s.store[key].finalizer && !s.store[key].deleting
    requires !Unasked(s, s.store[key]) && Unserved(s, s.store[key])
    ensures t == Carried(Move(s, w, Running(here, s.store[key], Locating)), w, token, clientId, calls - 1)
    ensures Becomes(s, t, w, key, s.store[key].(deleting := Claimed(s, s.store[key]))) && LeftAlone(s, t)
  {
    hide Inv, InOrder, Carried, Unasked, Unserved, Claimed, StateOf, TrimSpace;
    StartsOver(s, w, key);
    var r := s.store[key];
    LocatedGoesOn(s, w, r, here, token, clientId, calls - 1);
    CheckedGoesOn(s, w, r, here, token, clientId, calls - 2);
    if Claimed(s, r) {
      var at := Deleting(NotServed(s.cluster, s.cluster));
      t := DeletedEnds(Move(s, w, Running(here, r, at)), w, token, clientId, calls - 3);
    } else {
      t := FromReporting(Move(s, w, Running(here, r, Reporting(r.status))), w, token, clientId, calls - 3);
    }
  }

  lemma KnownStays(s: State, w: Worker, key: Key, here: string, token: Token, clientId: string, calls: nat)
    returns (t: State)
    requires calls >= 9 && Starts(s, w, key, here, token) && s.store[key].finalizer && !s.store[key].deleting
    requires !Unasked(s, s.store[key]) && !Unserved(s, s.store[key])
    requires s.store[key].status.servicePrincipalId.Some? && s.store[key].status.removedAt.None?
    ensures t == Undisturbed(s, w, key, here, token, clientId, calls) && key in t.store && !t.store[key].deleting
  {
    hide Inv, Undisturbed, Unasked, Unserved, TrimSpace;
    var id := s.store[key].status.servicePrincipalId.value;
    if id in s.principals {
      t := KnownIsTended(s, w, key, here, token, clientId, calls, id);
    } else {
      var now;
      t, now := MissingIsLatched(s, w, key, here, token, clientId, calls, id);
    }
  }

  lemma SentStays(s: State, w: Worker, key: Key, here: string, token: Token, clientId: string, calls: nat)
    returns (t: State)
    requires calls >= 9 && Starts(s, w, key, here, token) && s.store[key].finalizer && !s.store[key].deleting
    requires !Unasked(s, s.store[key]) && !Unserved(s, s.store[key])
    requires s.store[key].status.createSentAt.Some? && s.store[key].status.servicePrincipalId.None?
    ensures t == Undisturbed(s, w, key, here, token, clientId, calls) && key in t.store && !t.store[key].deleting
  {
    hide Inv, Undisturbed, Unasked, Unserved, TrimSpace;
    if Shows(s, Marker(token.issuer, s.operator, key)) {
      var id;
      t, id := SentIsFound(s, w, key, here, token, clientId, calls);
    } else {
      t := SentIsAwaited(s, w, key, here, token, clientId, calls);
    }
  }
}

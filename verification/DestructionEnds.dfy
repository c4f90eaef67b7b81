/**
 Destruction comes to an end when nothing stands in its way: Databricks answers, the operator's token
 can be read, what was created shows in the listing, and no other operator holds the namespaces
 (internal/controller/issueddatabricksserviceprincipal_controller.go:196-338, 554-587).
 */
module DestructionEnds {
  import opened Names
  import opened Options
  import opened Records
  import opened RecordProtocol
  import opened RecordRuns
  import RecordSafety
  import RecordTheorems
  import Destruction
  import DestructionClaim

  /** One pass taken to its end, or through n of its calls. */
  ghost function Finish(s: State, w: Worker, token: Token, n: nat): State
    decreases n
  {
    var p := PassOf(s, w);
    if n == 0 || p.Idle? then s
    else Finish(Next(s, Call(w, QuietAnswer(s, p, token))), w, token, n - 1)
  }

  /** A pass makes no more than five calls on its way to destroying a record. */
  ghost function QuietPass(s: State, w: Worker, key: Key, here: string, token: Token): State {
    if key in s.store then Finish(Next(s, Begin(w, s.store[key], here)), w, token, 5) else s
  }

  ghost function Round(s: State, w: Worker, keys: seq<Key>, here: string, token: Token): State {
    if keys == [] then s
    else QuietPass(Round(s, w, keys[..|keys| - 1], here, token), w, keys[|keys| - 1], here, token)
  }

  predicate Doomed(s: State, key: Key) {
    key in s.store && OutOfScope(s.cluster, s.store[key].owner.namespace)
  }

  /** Deleted already, wanted by nobody, or where the claim is this operator's or there is nothing to claim. */
  predicate MayGo(s: State, key: Key)
    requires key in s.store
  {
    || s.store[key].deleting || !StillWanted(s.cluster, s.operator, s.store[key])
    || MayDestroyIn(s.cluster, s.operator, s.store[key].owner.namespace)
  }

  /** What destroying one record needs of the world: that it may go, and that what was made for it shows. */
  ghost predicate Unhindered(s: State, key: Key, token: Token) {
    key in s.store ==>
      && MayGo(s, key)
      && (StateOf(s.store[key].status) == Sent ==> Shows(s, Marker(token.issuer, s.operator, key)))
  }

  /** What a pass needs, whatever the record: clients, and a token that can be read. */
  ghost predicate Quiet(s: State, w: Worker, here: string, token: Token) {
    Inv(s) && PassOf(s, w).Idle? && here != "" && TrimSpace(token.issuer) != ""
  }

  /** How far a record is from gone. */
  function Distance(s: State, key: Key): nat {
    if key !in s.store then 0
    else if !s.store[key].finalizer then 3
    else if !s.store[key].deleting then 2
    else 1
  }

  predicate IsOf(principal: Principal, operator: NamespacedName, key: Key) {
    principal.marker.operator == operator && principal.marker.key == key
  }

  /** Nothing is added, and what is not the record's own stays. */
  ghost predicate OnlyItsOwnGoes(s: State, t: State, key: Key) {
    && (forall id | id in t.principals :: id in s.principals && t.principals[id] == s.principals[id])
    && (forall id | id in s.principals && !IsOf(s.principals[id], s.operator, key) ::
         id in t.principals && t.principals[id] == s.principals[id])
  }

  /** What a quiet pass over a doomed record leaves as it was. */
  ghost predicate Steady(s: State, t: State, w: Worker, key: Key) {
    && t.operator == s.operator && t.cluster == s.cluster && PassOf(t, w).Idle?
    && Distance(t, key) <= Distance(s, key)
    && (key in t.store ==>
         key in s.store && t.principals == s.principals && MetaOnly(s.store[key], t.store[key])
         && (t.store[key].deleting ==> MayGo(s, key)))
    && (forall k | k != key :: (k in t.store <==> k in s.store) && (k in s.store ==> t.store[k] == s.store[k]))
    && OnlyItsOwnGoes(s, t, key)
  }

  /** One version is the other but for the finalizer, the deletion and the version. */
  predicate MetaOnly(r: Record, q: Record) {
    && q == r.(version := q.version, finalizer := q.finalizer, deleting := q.deleting)
    && (r.finalizer ==> q.finalizer) && (r.deleting ==> q.deleting)
  }

  /** What it comes to where nothing hinders it. */
  ghost predicate Advanced(s: State, t: State, w: Worker, key: Key) {
    Steady(s, t, w, key) && Distance(t, key) + 1 <= Distance(s, key)
  }

  /** What it comes to where something does. */
  ghost predicate Kept(s: State, t: State, w: Worker, key: Key) {
    Steady(s, t, w, key) && key in t.store
  }

  /** Only the pass has moved, and what it removed was the record's own. */
  ghost predicate OnItsWay(s: State, m: State, key: Key) {
    && m.operator == s.operator && m.cluster == s.cluster && m.store == s.store && m.seen == s.seen
    && OnlyItsOwnGoes(s, m, key)
  }

  lemma OneCall(s: State, w: Worker, token: Token, n: nat)
    requires n > 0 && PassOf(s, w).Running?
    ensures Finish(s, w, token, n)
      == Finish(Advance(s, w, PassOf(s, w), QuietAnswer(s, PassOf(s, w), token)), w, token, n - 1)
  {
  }

  lemma Ended(s: State, w: Worker, token: Token, n: nat)
    requires PassOf(s, w).Idle?
    ensures Finish(s, w, token, n) == s
  {
  }

  lemma ReleasingEnds(s: State, m: State, w: Worker, token: Token, here: string, key: Key, n: nat) returns (t: State)
    requires key in s.store && s.store[key].key == key && s.store[key].deleting && s.store[key].finalizer
    requires OnItsWay(s, m, key) && PassOf(m, w) == Running(here, s.store[key], Releasing) && n >= 1
    ensures t == Finish(m, w, token, n) && Advanced(s, t, w, key)
  {
    OneCall(m, w, token, n);
    t := Advance(m, w, PassOf(m, w), Done);
    Ended(t, w, token, n - 1);
  }

  lemma RemovingEnds(s: State, m: State, w: Worker, token: Token, here: string, key: Key, id: nat, n: nat)
    returns (t: State)
    requires key in s.store && s.store[key].key == key && s.store[key].deleting && s.store[key].finalizer
    requires m == Move(s, w, Running(here, s.store[key], Removing(id))) && n >= 2 && here != ""
    requires id in s.principals ==> s.principals[id].marker.operator == s.operator && s.principals[id].marker.key == key
    ensures t == Finish(m, w, token, n) && Advanced(s, t, w, key)
  {
    OneCall(m, w, token, n);
    t := ReleasingEnds(s, Advance(m, w, PassOf(m, w), Done), w, token, here, key, n - 1);
  }

  /** A call that only looks leaves everything but the pass as it was. */
  lemma OneLook(s: State, w: Worker, p: Pass, token: Token, n: nat)
    requires n > 0 && p.Running? && Looks(p.at)
    ensures var m := Move(s, w, p);
      Finish(m, w, token, n) == Finish(Move(s, w, Look(m, p, QuietAnswer(m, p, token))), w, token, n - 1)
  {
    var m := Move(s, w, p);
    OneCall(m, w, token, n);
    MovedTwice(s, w, p, Look(m, p, QuietAnswer(m, p, token)));
  }

  lemma SearchingEnds(s: State, w: Worker, token: Token, here: string, key: Key, n: nat) returns (t: State)
    requires key in s.store && s.store[key].key == key && s.store[key].deleting && s.store[key].finalizer
    requires Shows(s, Marker(token.issuer, s.operator, key)) && here != "" && n >= 3
    ensures t == Finish(Move(s, w, Running(here, s.store[key], Searching(token))), w, token, n)
      && Advanced(s, t, w, key)
  {
    var m := Move(s, w, Running(here, s.store[key], Searching(token)));
    assert Shows(m, MarkerOf(m, s.store[key], token));
    var a := QuietAnswer(m, PassOf(m, w), token);
    OneCall(m, w, token, n);
    MovedTwice(s, w, PassOf(m, w), Running(here, s.store[key], Removing(a.id)));
    t := RemovingEnds(s, Move(s, w, Running(here, s.store[key], Removing(a.id))), w, token, here, key, a.id, n - 1);
  }

  lemma PreparingEnds(s: State, w: Worker, token: Token, here: string, key: Key, n: nat) returns (t: State)
    requires key in s.store && s.store[key].key == key && s.store[key].deleting && s.store[key].finalizer
    requires Shows(s, Marker(token.issuer, s.operator, key))
    requires here != "" && TrimSpace(token.issuer) != "" && n >= 4
    ensures t == Finish(Move(s, w, Running(here, s.store[key], Preparing)), w, token, n) && Advanced(s, t, w, key)
  {
    OneLook(s, w, Running(here, s.store[key], Preparing), token, n);
    hide Advanced, Shows;
    t := SearchingEnds(s, w, token, here, key, n - 1);
  }

  lemma DeletingEnds(s: State, w: Worker, token: Token, here: string, key: Key, why: Why, n: nat) returns (t: State)
    requires key in s.store && s.store[key].key == key && !s.store[key].deleting && s.store[key].finalizer && n >= 1
    requires MayGo(s, key)
    ensures t == Finish(Move(s, w, Running(here, s.store[key], Deleting(why))), w, token, n)
    ensures Advanced(s, t, w, key) && Kept(s, t, w, key)
  {
    var m := Move(s, w, Running(here, s.store[key], Deleting(why)));
    OneCall(m, w, token, n);
    t := Advance(m, w, PassOf(m, w), Done);
    Ended(t, w, token, n - 1);
  }

  lemma CheckingEnds(s: State, w: Worker, token: Token, here: string, key: Key, n: nat) returns (t: State)
    requires Doomed(s, key) && s.store[key].key == key && !s.store[key].deleting && s.store[key].finalizer && n >= 2
    requires MayDestroyIn(s.cluster, s.operator, s.store[key].owner.namespace) && s.cluster in s.seen
    ensures t == Finish(Move(s, w, Running(here, s.store[key], CheckingClaim(s.cluster))), w, token, n)
    ensures Advanced(s, t, w, key) && Kept(s, t, w, key)
  {
    OneLook(s, w, Running(here, s.store[key], CheckingClaim(s.cluster)), token, n);
    t := DeletingEnds(s, w, token, here, key, NotServed(s.cluster, s.cluster), n - 1);
  }

  lemma LocatingEnds(s: State, w: Worker, token: Token, here: string, key: Key, n: nat) returns (t: State)
    requires Doomed(s, key) && s.store[key].key == key && !s.store[key].deleting && s.store[key].finalizer && n >= 3
    requires MayDestroyIn(s.cluster, s.operator, s.store[key].owner.namespace) && s.cluster in s.seen
    ensures t == Finish(Move(s, w, Running(here, s.store[key], Locating)), w, token, n)
    ensures Advanced(s, t, w, key) && Kept(s, t, w, key)
  {
    OneLook(s, w, Running(here, s.store[key], Locating), token, n);
    t := CheckingEnds(s, w, token, here, key, n - 1);
  }

  lemma AskingEnds(s: State, w: Worker, token: Token, here: string, key: Key, n: nat) returns (t: State)
    requires Doomed(s, key) && s.store[key].key == key && !s.store[key].deleting && s.store[key].finalizer && n >= 4
    requires MayGo(s, key) && s.cluster in s.seen
    ensures t == Finish(Move(s, w, Running(here, s.store[key], Asking)), w, token, n)
    ensures Advanced(s, t, w, key) && Kept(s, t, w, key)
  {
    OneLook(s, w, Running(here, s.store[key], Asking), token, n);
    if StillWanted(s.cluster, s.operator, s.store[key]) {
      t := LocatingEnds(s, w, token, here, key, n - 1);
    } else {
      t := DeletingEnds(s, w, token, here, key, Unwanted(s.cluster), n - 1);
    }
  }

  lemma AddingEnds(s: State, w: Worker, token: Token, here: string, key: Key, n: nat) returns (t: State)
    requires key in s.store && s.store[key].key == key && !s.store[key].finalizer && !s.store[key].deleting && n >= 1
    ensures t == Finish(Move(s, w, Running(here, s.store[key], AddingFinalizer)), w, token, n)
    ensures Advanced(s, t, w, key) && Kept(s, t, w, key)
  {
    var m := Move(s, w, Running(here, s.store[key], AddingFinalizer));
    OneCall(m, w, token, n);
    t := Advance(m, w, PassOf(m, w), Done);
    Ended(t, w, token, n - 1);
  }

  /** One pass over a doomed record nothing hinders brings it nearer to gone, from whatever state it is in. */
  lemma PassAdvances(s: State, w: Worker, key: Key, here: string, token: Token) returns (t: State)
    requires Quiet(s, w, here, token) && Doomed(s, key) && Unhindered(s, key, token)
    ensures t == QuietPass(s, w, key, here, token) && Advanced(s, t, w, key)
  {
    var r := s.store[key];
    assert r in s.past && s.cluster in s.seen;
    assert Next(s, Begin(w, r, here)) == Move(s, w, AfterFetch(here, r));
    if r.deleting {
      match StateOf(r.status)
      case Unsent => t := ReleasingEnds(s, Move(s, w, AfterFetch(here, r)), w, token, here, key, 5);
      case Gone => t := ReleasingEnds(s, Move(s, w, AfterFetch(here, r)), w, token, here, key, 5);
      case Sent => t := PreparingEnds(s, w, token, here, key, 5);
      case Known =>
        KnownIsItsOwn(s, key);
        t := RemovingEnds(s, Move(s, w, AfterFetch(here, r)), w, token, here, key, r.status.servicePrincipalId.value,
                          5);
    } else if !r.finalizer {
      t := AddingEnds(s, w, token, here, key, 5);
    } else {
      t := AskingEnds(s, w, token, here, key, 5);
    }
  }

  lemma ReportingEnds(s: State, w: Worker, token: Token, here: string, key: Key, n: nat) returns (t: State)
    requires key in s.store && s.store[key].key == key && n >= 1 && (s.store[key].deleting ==> MayGo(s, key))
    ensures t == Finish(Move(s, w, Running(here, s.store[key], Reporting(s.store[key].status))), w, token, n)
      && Kept(s, t, w, key)
  {
    var m := Move(s, w, Running(here, s.store[key], Reporting(s.store[key].status)));
    OneCall(m, w, token, n);
    t := Advance(m, w, PassOf(m, w), Done);
    Ended(t, w, token, n - 1);
  }

  lemma CheckingReports(s: State, w: Worker, token: Token, here: string, key: Key, n: nat) returns (t: State)
    requires key in s.store && s.store[key].key == key && n >= 2 && !MayGo(s, key) && s.cluster in s.seen
    ensures t == Finish(Move(s, w, Running(here, s.store[key], CheckingClaim(s.cluster))), w, token, n)
      && Kept(s, t, w, key)
  {
    OneLook(s, w, Running(here, s.store[key], CheckingClaim(s.cluster)), token, n);
    t := ReportingEnds(s, w, token, here, key, n - 1);
  }

  lemma LocatingReports(s: State, w: Worker, token: Token, here: string, key: Key, n: nat) returns (t: State)
    requires Doomed(s, key) && s.store[key].key == key && n >= 3 && !MayGo(s, key) && s.cluster in s.seen
    ensures t == Finish(Move(s, w, Running(here, s.store[key], Locating)), w, token, n) && Kept(s, t, w, key)
  {
    OneLook(s, w, Running(here, s.store[key], Locating), token, n);
    hide MayGo, Kept;
    t := CheckingReports(s, w, token, here, key, n - 1);
  }

  /** Somebody else holds the namespace: the pass asks as far as the claim, and reports. */
  lemma AskingReports(s: State, w: Worker, token: Token, here: string, key: Key, n: nat) returns (t: State)
    requires Doomed(s, key) && s.store[key].key == key && n >= 4 && !MayGo(s, key) && s.cluster in s.seen
    ensures t == Finish(Move(s, w, Running(here, s.store[key], Asking)), w, token, n) && Kept(s, t, w, key)
  {
    OneLook(s, w, Running(here, s.store[key], Asking), token, n);
    hide Kept;
    t := LocatingReports(s, w, token, here, key, n - 1);
  }

  /** What was made does not show: the pass searches, and reports. */
  lemma PreparingReports(s: State, w: Worker, token: Token, here: string, key: Key, n: nat) returns (t: State)
    requires key in s.store && s.store[key].key == key && s.store[key].deleting && n >= 3
      && TrimSpace(token.issuer) != ""
    requires !Shows(s, Marker(token.issuer, s.operator, key))
    ensures t == Finish(Move(s, w, Running(here, s.store[key], Preparing)), w, token, n) && Kept(s, t, w, key)
  {
    OneLook(s, w, Running(here, s.store[key], Preparing), token, n);
    SearchingReports(s, w, token, here, key, n - 1);
    hide Finish;
    t := ReportingEnds(s, w, token, here, key, n - 2);
  }

  lemma SearchingReports(s: State, w: Worker, token: Token, here: string, key: Key, n: nat)
    requires key in s.store && s.store[key].key == key && n >= 2 && !Shows(s, Marker(token.issuer, s.operator, key))
    ensures Finish(Move(s, w, Running(here, s.store[key], Searching(token))), w, token, n)
         == Finish(Move(s, w, Running(here, s.store[key], Reporting(s.store[key].status))), w, token, n - 1)
  {
    var m := Move(s, w, Running(here, s.store[key], Searching(token)));
    ShowsAlike(s, m, Marker(token.issuer, s.operator, key));
    OneCall(m, w, token, n);
    MovedTwice(s, w, PassOf(m, w), Running(here, s.store[key], Reporting(s.store[key].status)));
  }

  /** One pass over a doomed record that something hinders leaves it there. */
  lemma PassKeeps(s: State, w: Worker, key: Key, here: string, token: Token) returns (t: State)
    requires Quiet(s, w, here, token) && Doomed(s, key) && !Unhindered(s, key, token)
    ensures t == QuietPass(s, w, key, here, token) && Kept(s, t, w, key)
  {
    var r := s.store[key];
    HeldWhereSent(s, key);
    assert Next(s, Begin(w, r, here)) == Move(s, w, AfterFetch(here, r));
    hide Inv;
    if r.deleting {
      t := PreparingReports(s, w, token, here, key, 5);
    } else if !r.finalizer {
      t := AddingEnds(s, w, token, here, key, 5);
    } else if MayGo(s, key) {
      t := AskingEnds(s, w, token, here, key, 5);
    } else {
      t := AskingReports(s, w, token, here, key, 5);
    }
  }

  lemma HeldWhereSent(s: State, key: Key)
    requires Inv(s) && key in s.store
    ensures s.store[key] in s.past && s.cluster in s.seen && s.store[key].key == key
    ensures StateOf(s.store[key].status) == Sent || s.store[key].deleting ==> s.store[key].finalizer
  {
  }

  lemma KnownIsItsOwn(s: State, key: Key)
    requires Inv(s) && key in s.store && s.store[key].status.servicePrincipalId.Some?
    ensures var id := s.store[key].status.servicePrincipalId.value;
      id in s.principals ==> s.principals[id].marker.operator == s.operator && s.principals[id].marker.key == key
  {
    assert s.store[key] in s.past;
  }

  lemma FirstOfFinish(s: State, w: Worker, token: Token, n: nat) returns (first: Step, m: State)
    requires n > 0 && PassOf(s, w).Running?
    ensures Finish(s, w, token, n) == Finish(m, w, token, n - 1)
    ensures m == Next(s, first)
  {
    first := Call(w, QuietAnswer(s, PassOf(s, w), token));
    m := Next(s, first);
    OneCall(s, w, token, n);
  }

  /** A quiet pass is a run of the protocol like any other. */
  lemma {:induction false} FinishIsRun(s: State, w: Worker, token: Token, n: nat) returns (steps: seq<Step>)
    ensures Finish(s, w, token, n) == Run(s, steps)
    decreases n
  {
    hide Next, QuietAnswer;
    if n == 0 || PassOf(s, w).Idle? {
      steps := [];
    } else {
      var first, m := FirstOfFinish(s, w, token, n);
      var rest := FinishIsRun(m, w, token, n - 1);
      steps := [first] + rest;
      RunFrom(s, first, rest);
    }
  }

  lemma RunFrom(s: State, first: Step, rest: seq<Step>)
    ensures Run(s, [first] + rest) == Run(Next(s, first), rest)
  {
    OneStep(s, first);
    RunJoins(s, [first], rest);
  }

  lemma PassKeepsInv(s: State, w: Worker, key: Key, here: string, token: Token)
    requires Inv(s)
    ensures Inv(QuietPass(s, w, key, here, token))
  {
    if key in s.store {
      var begin := Begin(w, s.store[key], here);
      var rest := FinishIsRun(Next(s, begin), w, token, 5);
      RunFrom(s, begin, rest);
      RecordTheorems.RunKeeps(s, [begin] + rest);
    }
  }

  /** A pass changes for no record whether anything hinders it. */
  lemma SteadyHindrance(s: State, t: State, w: Worker, key: Key, k: Key, token: Token)
    requires Steady(s, t, w, key) && k in t.store
    ensures k in s.store && (Unhindered(t, k, token) <==> Unhindered(s, k, token))
  {
    var marker := Marker(token.issuer, s.operator, k);
    if id :| id in s.principals && s.principals[id].marker == marker {
      assert id in t.principals && t.principals[id].marker == marker;
    }
    if id :| id in t.principals && t.principals[id].marker == marker {
      assert id in s.principals && s.principals[id].marker == marker;
    }
    assert Shows(s, marker) <==> Shows(t, marker);
  }

  /** What a pass comes to, as far as a round depends on it. */
  ghost predicate Visited(s: State, t: State, w: Worker, key: Key, token: Token) {
    if key !in s.store then t == s
    else Steady(s, t, w, key) && if Unhindered(s, key, token) then Advanced(s, t, w, key) else key in t.store
  }

  lemma PassVisits(s: State, w: Worker, key: Key, here: string, token: Token)
    requires Quiet(s, w, here, token) && (key in s.store ==> Doomed(s, key))
    ensures Visited(s, QuietPass(s, w, key, here, token), w, key, token)
    ensures Quiet(QuietPass(s, w, key, here, token), w, here, token)
  {
    hide Inv, Advanced, Steady, Unhindered;
    if key in s.store {
      PassKeepsInv(s, w, key, here, token);
      var t: State;
      if Unhindered(s, key, token) {
        t := PassAdvances(s, w, key, here, token);
        assert Steady(s, t, w, key) by { AdvancedIsSteady(s, t, w, key); }
      } else {
        t := PassKeeps(s, w, key, here, token);
      }
      SteadyIsIdle(s, t, w, key);
    }
  }

  lemma AdvancedIsSteady(s: State, t: State, w: Worker, key: Key)
    requires Advanced(s, t, w, key)
    ensures Steady(s, t, w, key)
  {
  }

  lemma SteadyIsIdle(s: State, t: State, w: Worker, key: Key)
    requires Steady(s, t, w, key)
    ensures PassOf(t, w).Idle?
  {
  }

  /** No record of keys is set back, and no other is touched. */
  ghost predicate NearerTo(s: State, t: State, keys: seq<Key>) {
    && t.operator == s.operator && t.cluster.declared == s.cluster.declared
    && (forall k | k in t.store :: k in s.store && t.store[k].owner == s.store[k].owner)
    && (forall k :: Distance(t, k) <= Distance(s, k))
    && (forall k | k in s.store && k !in keys :: k in t.store && t.store[k] == s.store[k])
  }

  /** What a round comes to: what nothing hinders is nearer to gone, what something does is there, and stays so. */
  ghost predicate Nearer(s: State, t: State, keys: seq<Key>, token: Token) {
    && t.cluster == s.cluster && NearerTo(s, t, keys)
    && (forall k | k in t.store :: Unhindered(t, k, token) <==> Unhindered(s, k, token))
    && (forall k | k in keys && k in s.store ::
         if Unhindered(s, k, token) then Distance(t, k) + 1 <= Distance(s, k) else k in t.store)
  }

  lemma VisitedIsNearerTo(s: State, m: State, t: State, w: Worker, keys: seq<Key>, last: Key, token: Token)
    requires NearerTo(s, m, keys) && m.cluster == s.cluster && Visited(m, t, w, last, token)
    ensures NearerTo(s, t, keys + [last]) && t.cluster == s.cluster
  {
    hide Unhindered, OnlyItsOwnGoes, MayGo;
    forall k
      ensures Distance(t, k) <= Distance(s, k)
      ensures k in keys + [last] <==> k in keys || k == last
    {
      assert Distance(m, k) <= Distance(s, k);
    }
  }

  lemma VisitedIsNearer(s: State, m: State, t: State, w: Worker, keys: seq<Key>, last: Key, token: Token)
    requires Nearer(s, m, keys, token) && Visited(m, t, w, last, token)
    ensures Nearer(s, t, keys + [last], token)
  {
    VisitedIsNearerTo(s, m, t, w, keys, last, token);
    forall k | k in t.store
      ensures Unhindered(t, k, token) <==> Unhindered(s, k, token)
    {
      if last in m.store {
        SteadyHindrance(m, t, w, last, k, token);
      }
      assert Unhindered(m, k, token) <==> Unhindered(s, k, token);
    }
    forall k | k in keys + [last] && k in s.store
      ensures if Unhindered(s, k, token) then Distance(t, k) + 1 <= Distance(s, k) else k in t.store
    {
      VisitedKeyIsNearer(s, m, t, w, keys, last, token, k);
    }
  }

  lemma VisitedKeyIsNearer(s: State, m: State, t: State, w: Worker, keys: seq<Key>, last: Key, token: Token, k: Key)
    requires Nearer(s, m, keys, token) && Visited(m, t, w, last, token)
    requires k in keys + [last] && k in s.store
    ensures if Unhindered(s, k, token) then Distance(t, k) + 1 <= Distance(s, k) else k in t.store
  {
    hide Unhindered, OnlyItsOwnGoes, MayGo, MetaOnly;
    assert Distance(m, k) <= Distance(s, k);
    assert k in keys || k == last;
    if k in m.store {
      assert Unhindered(m, k, token) <==> Unhindered(s, k, token);
    }
  }

  lemma {:induction false} RoundNears(s: State, w: Worker, keys: seq<Key>, here: string, token: Token)
    requires Quiet(s, w, here, token) && forall k | k in keys && k in s.store :: Doomed(s, k)
    ensures Quiet(Round(s, w, keys, here, token), w, here, token)
    ensures Nearer(s, Round(s, w, keys, here, token), keys, token)
  {
    hide Quiet, QuietPass, Unhindered, Visited;
    if keys != [] {
      var before, last := keys[..|keys| - 1], keys[|keys| - 1];
      assert keys == before + [last];
      RoundNears(s, w, before, here, token);
      var m := Round(s, w, before, here, token);
      PassVisits(m, w, last, here, token);
      VisitedIsNearer(s, m, QuietPass(m, w, last, here, token), w, before, last, token);
    }
  }

  /** keys are the records to visit: every doomed one, and no other that is there. */
  ghost predicate Visits(s: State, keys: seq<Key>) {
    (forall k | Doomed(s, k) :: k in keys) && (forall k | k in keys && k in s.store :: Doomed(s, k))
  }

  lemma NearerThrice(s: State, a: State, b: State, t: State, keys: seq<Key>, token: Token, k: Key)
    requires Nearer(s, a, keys, token) && Nearer(a, b, keys, token) && Nearer(b, t, keys, token) && Visits(s, keys)
    requires k in s.store
    ensures k in t.store <==> !Doomed(s, k) || !Unhindered(s, k, token)
    ensures !Doomed(s, k) ==> t.store[k] == s.store[k]
  {
    hide Unhindered;
    assert Distance(s, k) <= 3;
    if Doomed(s, k) {
      assert k in keys;
      assert k in a.store ==> (Unhindered(a, k, token) <==> Unhindered(s, k, token));
      assert k in b.store ==> (Unhindered(b, k, token) <==> Unhindered(a, k, token));
      assert Distance(a, k) <= 2 || !Unhindered(s, k, token);
    }
  }

  lemma LiveHasRecord(s: State)
    requires Inv(s)
    ensures forall id | id in s.principals && s.principals[id].marker.operator == s.operator ::
      s.principals[id].marker.key in s.store
  {
    forall id | id in s.principals && s.principals[id].marker.operator == s.operator
      ensures s.principals[id].marker.key in s.store
    {
      assert Outstanding(s.flights, s.principals, s.origins[id]);
    }
  }

  /**
   What three rounds leave. Whatever state each doomed record starts in, it is gone exactly where nothing
   hinders it: it may go, and what was made for it shows. Every other record is as it was, and a service
   principal of this operator's that is left is out of scope only where something hinders its record.
   */
  lemma ThreeRoundsEndIt(s: State, w: Worker, keys: seq<Key>, here: string, token: Token)
    requires Quiet(s, w, here, token) && Visits(s, keys)
    ensures var t := Round(Round(Round(s, w, keys, here, token), w, keys, here, token), w, keys, here, token);
      && (forall k | Doomed(s, k) :: k in t.store <==> !Unhindered(s, k, token))
      && (forall k | k in s.store && !Doomed(s, k) :: k in t.store && t.store[k] == s.store[k])
      && (forall k | k in t.store :: k in s.store)
      && (forall id | id in t.principals && t.principals[id].marker.operator == t.operator ::
           var key := t.principals[id].marker.key;
           key in t.store
           && (Doomed(t, key) ==> Doomed(s, key) && !Unhindered(s, key, token)))
  {
    hide Inv, Unhindered;
    var a := Round(s, w, keys, here, token);
    RoundNears(s, w, keys, here, token);
    StillVisits(s, a, keys);
    var b := Round(a, w, keys, here, token);
    RoundNears(a, w, keys, here, token);
    StillVisits(a, b, keys);
    var t := Round(b, w, keys, here, token);
    RoundNears(b, w, keys, here, token);
    forall k | k in s.store
      ensures k in t.store <==> !Doomed(s, k) || !Unhindered(s, k, token)
      ensures !Doomed(s, k) ==> t.store[k] == s.store[k]
    {
      NearerThrice(s, a, b, t, keys, token, k);
    }
    LiveHasRecord(t);
  }

  lemma StillVisits(s: State, t: State, keys: seq<Key>)
    requires NearerTo(s, t, keys) && Visits(s, keys)
    ensures Visits(t, keys)
  {
    assert forall k | Doomed(t, k) :: Doomed(s, k);
  }

  /******* The account's passes and the records' *******/

  /** The records' controller sees the Namespaces as the account's pass left them. */
  function Noticed(s: State, namespaces: Destruction.Namespaces): State {
    Next(s, ClusterChanges(s.cluster.(holders := Destruction.HoldersOf(namespaces))))
  }

  /** What a whole round needs: a pass that can act, an account that was read, and an operator with a name. */
  ghost predicate Ready(s: State, w: Worker, here: string, token: Token) {
    Quiet(s, w, here, token) && s.cluster.declared.Some? && s.operator.namespace != ""
  }

  /** One account pass on the records and the Namespaces as they are, with every call answered. */
  ghost predicate AccountPasses(s: State, before: Destruction.Namespaces, after: Destruction.Namespaces,
                                records: seq<string>, since: nat, destroyed: bool)
    requires s.cluster.declared.Some?
  {
    && Destruction.ListsRecords(s.store, records)
    && Destruction.PassedOver(before, after, s.operator, records, s.cluster.declared.value, since, destroyed)
  }

  /** A doomed record whose namespace is free to this operator, and which shows what was made for it. */
  ghost predicate IsClear(s: State, namespaces: Destruction.Namespaces, token: Token, key: Key) {
    && Doomed(s, key)
    && (s.store[key].owner.namespace in namespaces ==>
         DestructionClaim.IsFree(namespaces[s.store[key].owner.namespace], s.operator))
    && (StateOf(s.store[key].status) == Sent ==> Shows(s, Marker(token.issuer, s.operator, key)))
  }

  /** What the account's pass leaves of a free namespace that still holds records may be destroyed in. */
  lemma PassedMayBeDestroyed(s: State, before: Destruction.Namespaces, after: Destruction.Namespaces,
                             records: seq<string>, since: nat, destroyed: bool, token: Token, key: Key)
    requires IsClear(s, before, token, key) && s.cluster.declared.Some? && s.operator.namespace != ""
    requires AccountPasses(s, before, after, records, since, destroyed)
    ensures MayDestroyIn(Noticed(s, after).cluster, s.operator, s.store[key].owner.namespace)
    ensures var n := s.store[key].owner.namespace;
      n in after ==> DestructionClaim.IsFree(after[n], s.operator)
  {
    hide DestructionClaim.Acquired, DestructionClaim.IsFree, DestructionClaim.Released, Shows, Inv;
    var n := s.store[key].owner.namespace;
    Destruction.LeftIsDoomed(s.store, records, s.cluster.declared.value, n);
    if n in after {
      Destruction.PassLeavesFree(before, after, s.operator, records, s.cluster.declared.value, since, destroyed, n);
    }
  }

  lemma NoticedShows(s: State, namespaces: Destruction.Namespaces, marker: Marker)
    requires Shows(s, marker)
    ensures Shows(Noticed(s, namespaces), marker)
  {
    var id :| id in s.principals && s.principals[id].marker == marker;
    assert id in Noticed(s, namespaces).principals;
  }

  lemma NoticedIs(s: State, namespaces: Destruction.Namespaces)
    ensures var t := Noticed(s, namespaces);
      t.store == s.store && t.operator == s.operator && t.cluster.declared == s.cluster.declared
      && t.passes == s.passes && t.principals == s.principals
  {
  }

  lemma NoticedIsReady(s: State, w: Worker, here: string, token: Token, namespaces: Destruction.Namespaces)
    requires Ready(s, w, here, token)
    ensures Ready(Noticed(s, namespaces), w, here, token)
  {
    hide Inv;
    RecordSafety.ClusterChangesKeeps(s, Noticed(s, namespaces).cluster);
  }

  /** One account pass, and one pass over each record it is destroying. */
  ghost function WholeRound(s: State, after: Destruction.Namespaces, w: Worker, keys: seq<Key>, here: string,
                            token: Token): State {
    Round(Noticed(s, after), w, keys, here, token)
  }

  /** A whole round leaves what the next one needs, sets nothing back, and touches nothing that is not doomed. */
  lemma WholeRoundNears(s: State, after: Destruction.Namespaces, w: Worker, keys: seq<Key>, here: string, token: Token)
    requires Ready(s, w, here, token) && Visits(s, keys)
    ensures var t := WholeRound(s, after, w, keys, here, token);
      && Ready(t, w, here, token) && Visits(t, keys) && NearerTo(s, t, keys)
      && Nearer(Noticed(s, after), t, keys, token)
  {
    hide Quiet, Round, Noticed, Unhindered;
    NoticedIs(s, after);
    NoticedIsReady(s, w, here, token, after);
    NoticedVisits(s, Noticed(s, after), keys);
    RoundNears(Noticed(s, after), w, keys, here, token);
    NearerFrom(s, Noticed(s, after), WholeRound(s, after, w, keys, here, token), keys, token);
    StillVisits(s, WholeRound(s, after, w, keys, here, token), keys);
  }

  lemma NoticedVisits(s: State, t: State, keys: seq<Key>)
    requires t.store == s.store && t.cluster.declared == s.cluster.declared && Visits(s, keys)
    ensures Visits(t, keys)
  {
    assert forall k :: Doomed(t, k) <==> Doomed(s, k);
  }

  lemma NearerFrom(s: State, m: State, t: State, keys: seq<Key>, token: Token)
    requires m.store == s.store && m.operator == s.operator && m.cluster.declared == s.cluster.declared
    requires Nearer(m, t, keys, token)
    ensures NearerTo(s, t, keys)
  {
    hide Unhindered;
    assert forall k :: Distance(m, k) == Distance(s, k);
  }

  /** And a clear record is nearer to gone, and clear for the next one. */
  lemma WholeRoundClears(s: State, w: Worker, keys: seq<Key>, here: string, token: Token,
                         before: Destruction.Namespaces, after: Destruction.Namespaces, records: seq<string>,
                         since: nat, destroyed: bool, key: Key)
    requires Ready(s, w, here, token) && Visits(s, keys)
    requires AccountPasses(s, before, after, records, since, destroyed) && IsClear(s, before, token, key)
    ensures var t := WholeRound(s, after, w, keys, here, token);
      && Distance(t, key) + 1 <= Distance(s, key)
      && (key in t.store ==> IsClear(t, after, token, key))
  {
    hide Ready, AccountPasses, Round, MayDestroyIn, Shows, DestructionClaim.IsFree;
    assert s.cluster.declared.Some? && s.operator.namespace != "" by { IsDeclared(s, w, here, token); }
    var m, t := Noticed(s, after), WholeRound(s, after, w, keys, here, token);
    WholeRoundNears(s, after, w, keys, here, token);
    NoticedIs(s, after);
    PassedMayBeDestroyed(s, before, after, records, since, destroyed, token, key);
    if StateOf(s.store[key].status) == Sent {
      NoticedShows(s, after, Marker(token.issuer, s.operator, key));
    }
    assert Unhindered(m, key, token) && key in keys;
    assert key in t.store ==> Unhindered(t, key, token);
    assert Distance(t, key) + 1 <= Distance(m, key) == Distance(s, key);
  }

  lemma IsDeclared(s: State, w: Worker, here: string, token: Token)
    requires Ready(s, w, here, token)
    ensures s.cluster.declared.Some? && s.operator.namespace != ""
  {
  }

  /** A pass says that all is destroyed exactly when nothing doomed is left, and lifts its label where nothing is. */
  lemma SaysDestroyedIffNoneLeft(s: State, before: Destruction.Namespaces, after: Destruction.Namespaces,
                                 records: seq<string>, since: nat, destroyed: bool)
    requires s.cluster.declared.Some? && s.operator.namespace != ""
    requires AccountPasses(s, before, after, records, since, destroyed)
    ensures destroyed <==> forall k :: !Doomed(s, k)
    ensures forall n | n in before && DestructionClaim.IsFree(before[n], s.operator)
        && forall k | Doomed(s, k) :: s.store[k].owner.namespace != n ::
      n in after && DestructionClaim.DESTROYING_IDENTITIES !in after[n]
  {
    hide DestructionClaim.IsFree;
    var served := s.cluster.declared.value;
    forall n
      ensures Destruction.Left(records, served, n) > 0 <==> exists k :: Doomed(s, k) && s.store[k].owner.namespace == n
    {
      Destruction.LeftIsDoomed(s.store, records, served, n);
      if k :| k in s.store && s.store[k].owner.namespace == n {
        assert Doomed(s, k) <==> n !in served;
      }
    }
    if k :| Doomed(s, k) {
      assert Destruction.Left(records, served, s.store[k].owner.namespace) > 0;
    }
    forall n | n in before && DestructionClaim.IsFree(before[n], s.operator)
        && forall k | Doomed(s, k) :: s.store[k].owner.namespace != n
      ensures n in after && DestructionClaim.DESTROYING_IDENTITIES !in after[n]
    {
      Destruction.PassLeavesFree(before, after, s.operator, records, served, since, destroyed, n);
    }
  }

  lemma FreeStaysFree(s: State, before: Destruction.Namespaces, after: Destruction.Namespaces, records: seq<string>,
                      since: nat, destroyed: bool)
    requires s.cluster.declared.Some? && s.operator.namespace != ""
    requires AccountPasses(s, before, after, records, since, destroyed)
    ensures after.Keys == before.Keys
    ensures forall n | n in before && DestructionClaim.IsFree(before[n], s.operator) ::
      DestructionClaim.IsFree(after[n], s.operator)
  {
    hide DestructionClaim.IsFree;
    forall n | n in before && DestructionClaim.IsFree(before[n], s.operator)
      ensures DestructionClaim.IsFree(after[n], s.operator)
    {
      Destruction.PassLeavesFree(before, after, s.operator, records, s.cluster.declared.value, since, destroyed, n);
    }
  }

  /** Four passes of the account, with everything answered, and the three rounds between them. */
  ghost predicate FourPasses(s: State, a: State, b: State, t: State, w: Worker, keys: seq<Key>, here: string,
                             token: Token, namespaces: seq<Destruction.Namespaces>, records: seq<seq<string>>,
                             times: seq<nat>, said: seq<bool>) {
    && |namespaces| == 5 && |records| == 4 && |times| == 4 && |said| == 4
    && a == WholeRound(s, namespaces[1], w, keys, here, token)
    && b == WholeRound(a, namespaces[2], w, keys, here, token)
    && t == WholeRound(b, namespaces[3], w, keys, here, token)
    && s.cluster.declared.Some? && AccountPasses(s, namespaces[0], namespaces[1], records[0], times[0], said[0])
    && a.cluster.declared.Some? && AccountPasses(a, namespaces[1], namespaces[2], records[1], times[1], said[1])
    && b.cluster.declared.Some? && AccountPasses(b, namespaces[2], namespaces[3], records[2], times[2], said[2])
    && t.cluster.declared.Some? && AccountPasses(t, namespaces[3], namespaces[4], records[3], times[3], said[3])
  }

  /**
   Three rounds of one account pass and one pass per record, from any state: every record whose namespace is
   free to this operator and whose service principal shows is gone, whatever hinders the others, and every
   record the account names is as it was. The account pass after them says that all is destroyed exactly when
   nothing doomed is left, and a namespace that was free and holds nothing doomed carries no label.
   */
  lemma DestructionClears(s: State, a: State, b: State, t: State, w: Worker, keys: seq<Key>, here: string, token: Token,
                          namespaces: seq<Destruction.Namespaces>, records: seq<seq<string>>, times: seq<nat>,
                          said: seq<bool>)
    requires Ready(s, w, here, token) && Visits(s, keys)
    requires FourPasses(s, a, b, t, w, keys, here, token, namespaces, records, times, said)
    ensures forall k | IsClear(s, namespaces[0], token, k) :: k !in t.store
    ensures forall k | k in s.store && !Doomed(s, k) :: k in t.store && t.store[k] == s.store[k]
    ensures forall k | Doomed(t, k) :: Doomed(s, k)
    ensures said[3] <==> forall k :: !Doomed(t, k)
    ensures forall n | n in namespaces[0] && DestructionClaim.IsFree(namespaces[0][n], s.operator)
        && forall k | Doomed(t, k) :: t.store[k].owner.namespace != n ::
      n in namespaces[4] && DestructionClaim.DESTROYING_IDENTITIES !in namespaces[4][n]
  {
    hide WholeRound, AccountPasses, Quiet, IsClear, Nearer, DestructionClaim.IsFree;
    WholeRoundNears(s, namespaces[1], w, keys, here, token);
    WholeRoundNears(a, namespaces[2], w, keys, here, token);
    WholeRoundNears(b, namespaces[3], w, keys, here, token);
    forall k | IsClear(s, namespaces[0], token, k)
      ensures k !in t.store
    {
      ClearIsGone(s, a, b, t, w, keys, here, token, namespaces, records, times, said, k);
    }
    FreeStaysFree(s, namespaces[0], namespaces[1], records[0], times[0], said[0]);
    FreeStaysFree(a, namespaces[1], namespaces[2], records[1], times[1], said[1]);
    FreeStaysFree(b, namespaces[2], namespaces[3], records[2], times[2], said[2]);
    SaysDestroyedIffNoneLeft(t, namespaces[3], namespaces[4], records[3], times[3], said[3]);
  }

  lemma ClearIsGone(s: State, a: State, b: State, t: State, w: Worker, keys: seq<Key>, here: string, token: Token,
                    namespaces: seq<Destruction.Namespaces>, records: seq<seq<string>>, times: seq<nat>,
                    said: seq<bool>, k: Key)
    requires Ready(s, w, here, token) && Visits(s, keys)
    requires FourPasses(s, a, b, t, w, keys, here, token, namespaces, records, times, said)
      && IsClear(s, namespaces[0], token, k)
    ensures k !in t.store
  {
    hide WholeRound, AccountPasses, Ready, IsClear, Nearer, Visits;
    assert Distance(s, k) <= 3;
    WholeRoundNears(s, namespaces[1], w, keys, here, token);
    WholeRoundClears(s, w, keys, here, token, namespaces[0], namespaces[1], records[0], times[0], said[0], k);
    WholeRoundNears(a, namespaces[2], w, keys, here, token);
    if k in a.store {
      WholeRoundClears(a, w, keys, here, token, namespaces[1], namespaces[2], records[1], times[1], said[1], k);
      WholeRoundNears(b, namespaces[3], w, keys, here, token);
      if k in b.store {
        WholeRoundClears(b, w, keys, here, token, namespaces[2], namespaces[3], records[2], times[2], said[2], k);
      }
    } else {
      WholeRoundNears(b, namespaces[3], w, keys, here, token);
    }
  }

  /** Every namespace this operator holds or destroys in is free to it. */
  ghost predicate HoldsOnlyFree(s: State, namespaces: Destruction.Namespaces) {
    forall n | n in namespaces && (DestructionClaim.HolderOf(namespaces[n]) == Some(s.operator)
                                   || exists k :: Doomed(s, k) && s.store[k].owner.namespace == n) ::
      DestructionClaim.IsFree(namespaces[n], s.operator)
  }

  lemma StillHoldsOnlyFree(s: State, t: State, keys: seq<Key>, before: Destruction.Namespaces,
                           after: Destruction.Namespaces, records: seq<string>, since: nat, destroyed: bool)
    requires NearerTo(s, t, keys) && s.cluster.declared.Some? && s.operator.namespace != ""
    requires HoldsOnlyFree(s, before) && AccountPasses(s, before, after, records, since, destroyed)
    ensures HoldsOnlyFree(t, after)
  {
    hide DestructionClaim.IsFree, DestructionClaim.HolderOf;
    FreeStaysFree(s, before, after, records, since, destroyed);
    var served := s.cluster.declared.value;
    forall n | n in after && (DestructionClaim.HolderOf(after[n]) == Some(s.operator)
                              || exists k :: Doomed(t, k) && t.store[k].owner.namespace == n)
      ensures DestructionClaim.IsFree(after[n], s.operator)
    {
      Destruction.LeftIsDoomed(s.store, records, served, n);
      if k :| Doomed(t, k) && t.store[k].owner.namespace == n {
        assert Doomed(s, k) && s.store[k].owner.namespace == n;
      } else if Destruction.Left(records, served, n) > 0 {
        var k :| k in s.store && s.store[k].owner.namespace == n;
        assert Doomed(s, k);
      }
      assert DestructionClaim.IsFree(before[n], s.operator);
    }
  }

  /** With nothing doomed left, the last pass gives back whatever this operator holds. */
  lemma LastPassGivesBack(s: State, before: Destruction.Namespaces, after: Destruction.Namespaces, records: seq<string>,
                          since: nat, destroyed: bool)
    requires s.cluster.declared.Some? && s.operator.namespace != "" && forall k :: !Doomed(s, k)
    requires HoldsOnlyFree(s, before) && AccountPasses(s, before, after, records, since, destroyed)
    ensures destroyed
    ensures forall n | n in after :: DestructionClaim.HolderOf(after[n]) != Some(s.operator)
  {
    hide DestructionClaim.IsFree;
    SaysDestroyedIffNoneLeft(s, before, after, records, since, destroyed);
    forall n | n in after
      ensures DestructionClaim.HolderOf(after[n]) != Some(s.operator)
    {
      assert Destruction.Left(records, s.cluster.declared.value, n) == 0;
      if DestructionClaim.HolderOf(before[n]) == Some(s.operator) {
        assert DestructionClaim.IsFree(before[n], s.operator);
      }
    }
  }

  /** Where nothing stands in the way, then, nothing is left, the last pass says so, and no claim is. */
  lemma DestructionCompletes(s: State, a: State, b: State, t: State, w: Worker, keys: seq<Key>, here: string,
                             token: Token, namespaces: seq<Destruction.Namespaces>, records: seq<seq<string>>,
                             times: seq<nat>, said: seq<bool>)
    requires Ready(s, w, here, token) && Visits(s, keys)
    requires FourPasses(s, a, b, t, w, keys, here, token, namespaces, records, times, said)
    requires HoldsOnlyFree(s, namespaces[0]) && forall k | Doomed(s, k) :: IsClear(s, namespaces[0], token, k)
    ensures forall k :: !Doomed(t, k)
    ensures forall k | k in s.store && !Doomed(s, k) :: k in t.store && t.store[k] == s.store[k]
    ensures forall id | id in t.principals && t.principals[id].marker.operator == t.operator ::
      t.principals[id].marker.key in t.store && !Doomed(t, t.principals[id].marker.key)
    ensures said[3]
    ensures forall n | n in namespaces[4] :: DestructionClaim.HolderOf(namespaces[4][n]) != Some(s.operator)
  {
    hide WholeRound, AccountPasses, Quiet, IsClear, Nearer, HoldsOnlyFree, DestructionClaim.IsFree,
      DestructionClaim.HolderOf;
    hide OutOfScope;
    DestructionClears(s, a, b, t, w, keys, here, token, namespaces, records, times, said);
    WholeRoundNears(s, namespaces[1], w, keys, here, token);
    WholeRoundNears(a, namespaces[2], w, keys, here, token);
    WholeRoundNears(b, namespaces[3], w, keys, here, token);
    StillHoldsOnlyFree(s, a, keys, namespaces[0], namespaces[1], records[0], times[0], said[0]);
    StillHoldsOnlyFree(a, b, keys, namespaces[1], namespaces[2], records[1], times[1], said[1]);
    StillHoldsOnlyFree(b, t, keys, namespaces[2], namespaces[3], records[2], times[2], said[2]);
    LastPassGivesBack(t, namespaces[3], namespaces[4], records[3], times[3], said[3]);
    ReadyIsInv(t, w, here, token);
    LiveHasRecord(t);
  }

  lemma ReadyIsInv(s: State, w: Worker, here: string, token: Token)
    requires Ready(s, w, here, token)
    ensures Inv(s)
  {
  }
}

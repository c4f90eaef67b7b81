/** Putting runs of the record protocol together, one stretch of a pass at a time. */
module RecordRuns {
  import opened Names
  import opened Options
  import opened Records
  import opened RecordProtocol
  import Requests

  lemma {:induction false} RunJoins(s: State, first: seq<Step>, rest: seq<Step>)
    ensures Run(s, first + rest) == Run(Run(s, first), rest)
    decreases |rest|
  {
    hide Next;
    if rest == [] {
      assert first + rest == first;
    } else {
      assert (first + rest)[..|first + rest| - 1] == first + rest[..|rest| - 1];
      RunJoins(s, first, rest[..|rest| - 1]);
    }
  }

  lemma OneStep(s: State, step: Step)
    ensures Run(s, [step]) == Next(s, step)
  {
    hide Next;
    assert [step][..0] == [];
  }

  lemma AndThen(s: State, steps: seq<Step>, step: Step)
    ensures Run(s, steps + [step]) == Next(Run(s, steps), step)
  {
    hide Next;
    assert (steps + [step])[..|steps|] == steps;
  }

  lemma MovedTwice(s: State, w: Worker, p: Pass, q: Pass)
    ensures Move(Move(s, w, p), w, q) == Move(s, w, q)
  {
    assert s.passes[w := p][w := q] == s.passes[w := q];
  }

  /** The answer a call gets when everything that is asked answers, and reads are current. */
  ghost function QuietAnswer(s: State, p: Pass, token: Token): Answer
    requires p.Running?
  {
    match p.at
    case Locating => Saw(s.cluster)
    case CheckingClaim(_) => Saw(s.cluster)
    case Preparing => Reads(token)
    case Searching(t) =>
      if Shows(s, MarkerOf(s, p.issued, t)) then
        var id :| id in s.principals && s.principals[id].marker == MarkerOf(s, p.issued, t); Found(id)
      else Done
    case _ => Done
  }

  ghost predicate Shows(s: State, marker: Marker) {
    exists id :: id in s.principals && s.principals[id].marker == marker
  }

  lemma ShowsAlike(s: State, t: State, marker: Marker)
    requires t.principals == s.principals
    ensures Shows(t, marker) <==> Shows(s, marker)
  {
  }

  /** A call that only looks, made by a pass nobody has moved since. */
  lemma Looked(s: State, w: Worker, p: Pass, a: Answer)
    requires p.Running? && Looks(p.at)
    ensures Next(Move(s, w, p), Call(w, a)) == Move(s, w, Look(Move(s, w, p), p, a))
  {
    hide Look;
    MovedTwice(s, w, p, Look(Move(s, w, p), p, a));
  }

  /** A pass over a record that is wanted where it is, as far as the operator's token. */
  lemma ReachesToken(s: State, w: Worker, r: Record, here: string, token: Token) returns (steps: seq<Step>)
    requires PassOf(s, w).Idle? && r in s.past && r.finalizer && !r.deleting && StateOf(r.status) != Gone
    requires StillWanted(s.cluster, s.operator, r) && !OutOfScope(s.cluster, r.owner.namespace) && s.cluster in s.seen
    ensures Run(s, steps) == Move(s, w, AfterToken(Running(here, r, Preparing), token, s.clock))
  {
    hide StillWanted, OutOfScope, Run, AfterToken;
    var asking, locating, preparing :=
      Running(here, r, Asking), Running(here, r, Locating), Running(here, r, Preparing);
    steps := [Begin(w, r, here)];
    OneStep(s, Begin(w, r, here));
    AndThen(s, steps, Call(w, Done));
    Looked(s, w, asking, Done);
    steps := steps + [Call(w, Done)];
    AndThen(s, steps, Call(w, Saw(s.cluster)));
    Looked(s, w, locating, Saw(s.cluster));
    steps := steps + [Call(w, Saw(s.cluster))];
    AndThen(s, steps, Call(w, Reads(token)));
    Looked(s, w, preparing, Reads(token));
    steps := steps + [Call(w, Reads(token))];
  }

  /** A pass over a record on its way out whose create was sent, as far as its search. */
  lemma ReachesSearch(s: State, w: Worker, r: Record, here: string, token: Token) returns (steps: seq<Step>)
    requires PassOf(s, w).Idle? && r in s.past && r.finalizer && r.deleting && StateOf(r.status) == Sent
    requires TrimSpace(token.issuer) != ""
    ensures Run(s, steps) == Move(s, w, Running(here, r, Searching(token)))
  {
    hide Run;
    OneStep(s, Begin(w, r, here));
    steps := [Begin(w, r, here)];
    AndThen(s, steps, Call(w, Reads(token)));
    Looked(s, w, Running(here, r, Preparing), Reads(token));
    steps := steps + [Call(w, Reads(token))];
  }

  /** The ServiceAccount a record of this key and owner would be made for still asks, in a namespace still served. */
  predicate Invites(cluster: Cluster, operator: NamespacedName, key: Key, owner: NamespacedName) {
    && owner in cluster.serviceAccounts && cluster.serviceAccounts[owner].uid == key.uid
    && !Requests.LetsGo(cluster.serviceAccounts[owner].annotations, operator, key.identity)
    && !OutOfScope(cluster, owner.namespace)
  }

  /** What stays as it is while only this worker's pass, records and creates move. */
  ghost predicate Alone(s: State, t: State, w: Worker) {
    Frames(s, t) && MovesOnly(s, t, w)
  }

  /** A record is made and a pass over it gets to its mark and stores it. */
  lemma Marks(s: State, w: Worker, key: Key, owner: NamespacedName, here: string, token: Token)
    returns (t: State, steps: seq<Step>)
    requires key !in s.store && PassOf(s, w).Idle? && s.cluster in s.seen && Invites(s.cluster, s.operator, key, owner)
    requires TrimSpace(token.issuer) != "" && token.audience != ""
    ensures t == Run(s, steps) && Alone(s, t, w)
    ensures key in t.store && t.store[key] in t.past && StateOf(t.store[key].status) == Sent
    ensures var r := t.store[key];
      r.key == key && r.owner == owner && r.uid == s.clock && r.finalizer && !r.deleting && r.version < t.clock
    ensures PassOf(t, w) == Running(here, t.store[key], Creating(token))
    ensures t.principals == s.principals && t.flights == s.flights && t.origins == s.origins
  {
    hide Requests.LetsGo, Run;
    var create := CreateRecord(key, owner, true);
    var m := Next(s, create);
    var r := m.store[key];
    OneStep(s, create);
    var rest := ReachesToken(m, w, r, here, token);
    RunJoins(s, [create], rest);
    AndThen(s, [create] + rest, Call(w, Done));
    steps := [create] + rest + [Call(w, Done)];
    t := MarkStored(m, w, r, here, token, m.clock);
  }

  lemma MarkStored(m: State, w: Worker, r: Record, here: string, token: Token, now: nat) returns (t: State)
    requires r.key in m.store && m.store[r.key] == r
    ensures t == Next(Move(m, w, Running(here, r, Marking(token, now))), Call(w, Done)) && Alone(m, t, w)
    ensures var marked := r.(status := Marked(r.status, here, now), version := m.clock);
      && t.store == m.store[r.key := marked] && marked in t.past && m.clock < t.clock
      && PassOf(t, w) == Running(here, marked, Creating(token))
    ensures t.principals == m.principals && t.flights == m.flights && t.origins == m.origins
  {
    t := Next(Move(m, w, Running(here, r, Marking(token, now))), Call(w, Done));
  }

  /** The create is called and takes effect, and the pass stops before it has the answer. */
  lemma Sends(s: State, w: Worker, token: Token, clientId: string) returns (t: State, steps: seq<Step>, id: nat)
    requires PassOf(s, w).Running? && PassOf(s, w).at == Creating(token) && PassOf(s, w).here != ""
    ensures t == Run(s, steps) && Alone(s, t, w) && PassOf(t, w).Idle?
    ensures t.store == s.store && t.past == s.past && s.clock < id < t.clock
    ensures var issued := PassOf(s, w).issued;
      && Made(t.flights, t.origins, issued.key, issued.uid, id)
      && id in t.principals && t.principals[id].marker == MarkerOf(s, issued, token)
  {
    hide Run;
    var m := Next(s, Call(w, Done));
    OneStep(s, Call(w, Done));
    AndThen(s, [Call(w, Done)], Crash(w));
    AndThen(s, [Call(w, Done)] + [Crash(w)], Land(s.clock, clientId));
    steps := [Call(w, Done)] + [Crash(w)] + [Land(s.clock, clientId)];
    t := Next(Next(m, Crash(w)), Land(s.clock, clientId));
    id := m.clock;
  }

  /** A pass over a record on its way out finds what it made, removes it, and lets the record go. */
  lemma Destroys(s: State, w: Worker, key: Key, here: string, token: Token, id: nat)
    returns (t: State, steps: seq<Step>)
    requires PassOf(s, w).Idle? && key in s.store && s.store[key] in s.past && s.store[key].key == key
    requires s.store[key].finalizer && s.store[key].deleting && StateOf(s.store[key].status) == Sent
    requires TrimSpace(token.issuer) != "" && here != ""
    requires id in s.principals && s.principals[id].marker == Marker(token.issuer, s.operator, key)
    ensures t == Run(s, steps) && Alone(s, t, w) && PassOf(t, w).Idle?
    ensures t.store == s.store - {key} && t.principals == s.principals - {id}
  {
    hide Run, StateOf, TrimSpace;
    var r := s.store[key];
    var search := ReachesSearch(s, w, r, here, token);
    AndThen(s, search, Call(w, Found(id)));
    MovedTwice(s, w, Running(here, r, Searching(token)), Running(here, r, Removing(id)));
    AndThen(s, search + [Call(w, Found(id))], Call(w, Done));
    AndThen(s, search + [Call(w, Found(id))] + [Call(w, Done)], Call(w, Done));
    steps := search + [Call(w, Found(id))] + [Call(w, Done)] + [Call(w, Done)];
    t := RemovesAndReleases(s, w, r, here, id);
  }

  lemma RemovesAndReleases(s: State, w: Worker, r: Record, here: string, id: nat) returns (t: State)
    requires r.key in s.store && s.store[r.key] == r && r.deleting && here != ""
    ensures t == Next(Next(Move(s, w, Running(here, r, Removing(id))), Call(w, Done)), Call(w, Done))
    ensures Alone(s, t, w) && PassOf(t, w).Idle? && t.store == s.store - {r.key} && t.principals == s.principals - {id}
  {
    t := Next(Next(Move(s, w, Running(here, r, Removing(id))), Call(w, Done)), Call(w, Done));
  }

  /** A pass over a record whose create was sent finds what it made and writes it down. */
  lemma Adopts(s: State, w: Worker, key: Key, here: string, token: Token, id: nat) returns (t: State, steps: seq<Step>)
    requires PassOf(s, w).Idle? && key in s.store && s.store[key] in s.past && s.store[key].key == key
    requires s.store[key].finalizer && !s.store[key].deleting && StateOf(s.store[key].status) == Sent
    requires StillWanted(s.cluster, s.operator, s.store[key]) && !OutOfScope(s.cluster, s.store[key].owner.namespace)
    requires s.cluster in s.seen && TrimSpace(token.issuer) != "" && token.audience != "" && here != ""
    requires id in s.principals && s.principals[id].marker == Marker(token.issuer, s.operator, key)
    ensures t == Run(s, steps) && key in t.store && t.store[key].status.servicePrincipalId == Some(id)
  {
    hide Run, StateOf, StillWanted, OutOfScope;
    var r := s.store[key];
    var search := ReachesToken(s, w, r, here, token);
    AndThen(s, search, Call(w, Found(id)));
    MovedTwice(s, w, Running(here, r, Searching(token)),
               Running(here, r, Adopting(token, id, s.principals[id].clientId)));
    AndThen(s, search + [Call(w, Found(id))], Call(w, Done));
    steps := search + [Call(w, Found(id))] + [Call(w, Done)];
    t := AdoptedIs(s, w, r, here, token, id, s.principals[id].clientId);
  }

  lemma AdoptedIs(s: State, w: Worker, r: Record, here: string, token: Token, id: nat, clientId: string)
    returns (t: State)
    requires r.key in s.store && s.store[r.key] == r
    ensures t == Next(Move(s, w, Running(here, r, Adopting(token, id, clientId))), Call(w, Done))
    ensures r.key in t.store && t.store[r.key].status.servicePrincipalId == Some(id)
  {
    t := Next(Move(s, w, Running(here, r, Adopting(token, id, clientId))), Call(w, Done));
  }
}

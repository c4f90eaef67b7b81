/**
 How records and service principals move, one call at a time
 (internal/controller/issueddatabricksserviceprincipal_controller.go).

 The API server, the Databricks account and every pass that is under way make one state. A step is
 one call of one pass, with the answer it got, or one thing somebody else did. Passes read any
 version the cache ever held, may be run by any number of workers, and may stop anywhere.

 Three things are assumed. A get by id answers for what is there. A listing may miss a live service
 principal and never shows a dead one. Nobody else writes this operator's marker, takes a finalizer
 off, or gives a second ServiceAccount an old uid.
 */
module RecordProtocol {
  import opened Names
  import opened Options
  import opened Records
  import Requests

  type Worker = nat

  datatype ServiceAccount = ServiceAccount(uid: string, annotations: Requests.Annotations)

  /** What a pass reads in the cluster besides records: who asks, what is served, who is destroying. */
  datatype Cluster = Cluster(
    serviceAccounts: map<NamespacedName, ServiceAccount>,
    declared: Option<set<string>>,
    holders: map<string, Option<NamespacedName>>)

  /** The issuer and audience of the operator's own token. Empty is the claim not being there. */
  datatype Token = Token(issuer: string, audience: string)

  /** The three parts of an externalId, taken as what is hashed rather than as the hashes. */
  datatype Marker = Marker(issuer: string, operator: NamespacedName, key: Key)

  datatype Principal = Principal(marker: Marker, clientId: string)

  /** A create that was called: still to take effect, taken effect as this id, or never going to. */
  datatype Phase = InAir | Landed(id: nat, clientId: string) | Dropped

  datatype Flight = Flight(maker: nat, marker: Marker, phase: Phase)

  datatype Why = Unwanted(seen: Cluster) | NotServed(account: Cluster, namespace: Cluster)

  /** The call a pass makes next. */
  datatype At =
    | AddingFinalizer
    | Asking
    | Locating
    | CheckingClaim(account: Cluster)
    | Deleting(why: Why)
    | Preparing
    | Marking(token: Token, now: nat)
    | Creating(token: Token)
    | Awaiting(token: Token, flight: nat)
    | Searching(token: Token)
    | Adopting(token: Token, id: nat, clientId: string)
    | Probing(token: Token)
    | Latching(now: nat)
    | Ensuring(token: Token)
    | Removing(id: nat)
    | Releasing
    | Reporting(status: Status)

  /** here is the account of the clients the pass took at its start, empty when none were installed. */
  datatype Pass = Idle | Running(here: string, issued: Record, at: At)

  /** What a service principal's policy trusts: whose tokens, of whose issuing, made out to whom. */
  datatype Trust = Trust(issuer: string, subject: NamespacedName, audience: string)

  datatype State = State(
    operator: NamespacedName,
    store: map<Key, Record>,
    past: set<Record>,
    clock: nat,
    principals: map<nat, Principal>,
    policies: map<nat, Trust>,
    flights: map<nat, Flight>,
    origins: map<nat, nat>,
    passes: map<Worker, Pass>,
    cluster: Cluster,
    seen: set<Cluster>)

  /** Lost is a call that took effect and whose answer never came. */
  datatype Answer =
    | Done
    | Failed
    | Lost
    | Reads(token: Token)
    | Saw(cluster: Cluster)
    | Found(id: nat)

  datatype Step =
    | Begin(worker: Worker, version: Record, here: string)
    | Call(worker: Worker, answer: Answer)
    | Crash(worker: Worker)
    | CreateRecord(key: Key, owner: NamespacedName, finalizer: bool)
    | DeleteRecord(key: Key)
    | Land(flight: nat, clientId: string)
    | Drop(flight: nat)
    | PrincipalDeleted(id: nat)
    | ForeignPrincipal(principal: Principal)
    | ClusterChanges(cluster: Cluster)

  /******* The API server *******/

  /** No pass changes what others read of the cluster, and no version or number is used again. */
  ghost predicate Frames(s: State, t: State) {
    && t.operator == s.operator && t.cluster == s.cluster && t.seen == s.seen
    && s.past <= t.past && s.clock <= t.clock
  }

  /** A call of one pass moves no other. */
  ghost predicate MovesOnly(s: State, t: State, w: Worker) {
    forall v | v != w :: PassOf(t, v) == PassOf(s, v)
  }

  /** The version check of an update: what is stored is the very version the caller holds. */
  predicate Current(store: map<Key, Record>, issued: Record) {
    issued.key in store && store[issued.key].version == issued.version
  }

  function Put(s: State, r: Record): (t: State)
    ensures Frames(s, t) && t.flights == s.flights
  {
    var stored := r.(version := s.clock);
    s.(store := s.store[r.key := stored], past := s.past + {stored}, clock := s.clock + 1)
  }

  /** A delete names the object and checks no version. A finalizer holds what is deleted. */
  function DeleteByName(s: State, key: Key): (t: State)
    ensures Frames(s, t) && t.flights == s.flights
  {
    if key !in s.store || s.store[key].deleting then s
    else if s.store[key].finalizer then Put(s, s.store[key].(deleting := true))
    else s.(store := s.store - {key})
  }

  /******* What a pass decides *******/

  predicate StillWanted(cluster: Cluster, operator: NamespacedName, issued: Record) {
    && issued.owner in cluster.serviceAccounts
    && !Requests.LetsGo(cluster.serviceAccounts[issued.owner].annotations, operator, issued.key.identity)
    && cluster.serviceAccounts[issued.owner].uid == issued.key.uid
  }

  predicate Served(cluster: Cluster, namespace: string) {
    cluster.declared.Some? && namespace in cluster.declared.value
  }

  predicate OutOfScope(cluster: Cluster, namespace: string) {
    cluster.declared.Some? && namespace !in cluster.declared.value
  }

  /** Destroying may start: this operator holds the namespace, or there is none to hold. */
  predicate MayDestroyIn(cluster: Cluster, operator: NamespacedName, namespace: string) {
    namespace in cluster.holders ==> cluster.holders[namespace] == Some(operator)
  }

  function Go(p: Pass, at: At): Pass
    requires p.Running?
  {
    p.(at := at)
  }

  /** What a version that was just fetched calls for first. */
  function AfterFetch(here: string, issued: Record): Pass {
    if issued.deleting then
      if !issued.finalizer then Idle
      else match StateOf(issued.status)
        case Unsent => Running(here, issued, Releasing)
        case Gone => Running(here, issued, Releasing)
        case Sent => Running(here, issued, Preparing)
        case Known => Running(here, issued, Removing(issued.status.servicePrincipalId.value))
    else if !issued.finalizer then Running(here, issued, AddingFinalizer)
    else Running(here, issued, Asking)
  }

  /** The end of every pass that has nothing more to do: the status as it stands is written. */
  function Report(p: Pass): Pass
    requires p.Running?
  {
    Go(p, Reporting(p.issued.status))
  }

  function AfterScope(p: Pass, account: Cluster): Pass
    requires p.Running?
  {
    if OutOfScope(account, p.issued.owner.namespace) then Go(p, CheckingClaim(account))
    else if StateOf(p.issued.status) == Gone then Report(p)
    else Go(p, Preparing)
  }

  /** A deletion needs the issuer alone; converging needs the audience its policy names as well. */
  function AfterToken(p: Pass, token: Token, now: nat): Pass
    requires p.Running?
  {
    if TrimSpace(token.issuer) == "" then Report(p)
    else if p.issued.deleting then Go(p, Searching(token))
    else if token.audience == "" then Report(p)
    else match StateOf(p.issued.status)
      case Unsent => Go(p, Marking(token, now))
      case Sent => Go(p, Searching(token))
      case Known => Go(p, Probing(token))
      case Gone => Report(p)
  }

  function Marked(status: Status, here: string, now: nat): Status {
    status.(accountId := if here != "" && status.accountId == "" then here else status.accountId,
            createSentAt := Some(now))
  }

  function Adopted(status: Status, here: string, token: Token, id: nat, clientId: string): Status {
    status.(servicePrincipalId := Some(id), clientId := clientId,
            accountId := if here != "" then here else status.accountId,
            issuer := token.issuer, audience := token.audience)
  }

  function MarkerOf(s: State, issued: Record, token: Token): Marker {
    Marker(token.issuer, s.operator, issued.key)
  }

  /******* Steps *******/

  function Move(s: State, w: Worker, p: Pass): (t: State)
    ensures Frames(s, t) && MovesOnly(s, t, w)
  {
    s.(passes := s.passes[w := p])
  }

  /** A version-checked status write, after which the pass goes on at next, or ends when there is none. */
  function WriteStatus(s: State, w: Worker, p: Pass, status: Status, a: Answer, next: Option<At>): (t: State)
    requires p.Running?
    ensures Frames(s, t) && MovesOnly(s, t, w) && t.flights == s.flights
    ensures t.store == s.store
      || (Current(s.store, p.issued)
          && t.store == s.store[s.store[p.issued.key].key :=
               s.store[p.issued.key].(status := status, version := s.clock)])
  {
    if a.Failed? || !Current(s.store, p.issued) then Move(s, w, Idle)
    else
      var written := s.store[p.issued.key].(status := status);
      if a.Done? && next.Some? then
        Move(Put(s, written), w, Running(p.here, written.(version := s.clock), next.value))
      else
        Move(Put(s, written), w, Idle)
  }

  function AddFinalizer(s: State, issued: Record): State {
    if Current(s.store, issued) then Put(s, s.store[issued.key].(finalizer := true)) else s
  }

  function DropFinalizer(s: State, issued: Record): State {
    if !Current(s.store, issued) then s
    else if s.store[issued.key].deleting then s.(store := s.store - {issued.key})
    else Put(s, s.store[issued.key].(finalizer := false))
  }

  function SendCreate(s: State, w: Worker, p: Pass, token: Token, a: Answer): State
    requires p.Running?
  {
    var sent := a.Done? && p.here != "";
    var flight := Flight(p.issued.uid, MarkerOf(s, p.issued, token), if sent then InAir else Dropped);
    Move(s.(flights := s.flights[s.clock := flight], clock := s.clock + 1), w,
         if sent then Go(p, Awaiting(token, s.clock)) else Report(p))
  }

  /** The one read that destroys is taken live and not from the cache. */
  function Ask(s: State, p: Pass, a: Answer): Pass
    requires p.Running?
  {
    if a.Failed? then Idle
    else if StillWanted(s.cluster, s.operator, p.issued) then Go(p, Locating)
    else Go(p, Deleting(Unwanted(s.cluster)))
  }

  function CheckClaim(s: State, p: Pass, account: Cluster, a: Answer): Pass
    requires p.Running?
  {
    if !a.Saw? || a.cluster !in s.seen then Idle
    else if MayDestroyIn(a.cluster, s.operator, p.issued.owner.namespace) then
      Go(p, Deleting(NotServed(account, a.cluster)))
    else Report(p)
  }

  /** A get by id answers for certain, so an id that is not there is one that was removed. */
  function Probe(s: State, p: Pass, token: Token, a: Answer): Pass
    requires p.Running?
  {
    if p.here == "" || !a.Done? || p.issued.status.servicePrincipalId.None? then Report(p)
    else if p.issued.status.servicePrincipalId.value in s.principals then Go(p, Ensuring(token))
    else Go(p, Latching(s.clock))
  }

  function Search(s: State, p: Pass, token: Token, a: Answer): Pass
    requires p.Running?
  {
    if p.here != "" && a.Found? && a.id in s.principals
      && s.principals[a.id].marker == MarkerOf(s, p.issued, token) then
      Go(p, if p.issued.deleting then Removing(a.id) else Adopting(token, a.id, s.principals[a.id].clientId))
    else
      Report(p)
  }

  function Remove(s: State, w: Worker, p: Pass, id: nat, a: Answer): State
    requires p.Running?
  {
    if p.here == "" || !(a.Done? || a.Lost?) then Move(s, w, Report(p))
    else Move(s.(principals := s.principals - {id}), w, if a.Done? then Go(p, Releasing) else Report(p))
  }

  /** Calls that read, and change nothing anywhere. */
  predicate Looks(at: At) {
    at.Asking? || at.Locating? || at.CheckingClaim? || at.Preparing? || at.Probing?
  }

  /** Calls to Databricks that may change what is there or find what was made. */
  predicate Talks(at: At) {
    at.Creating? || at.Awaiting? || at.Searching? || at.Removing? || at.Ensuring?
  }

  function Look(s: State, p: Pass, a: Answer): (q: Pass)
    requires p.Running? && Looks(p.at)
    ensures q.Running? ==> q.issued == p.issued && q.here == p.here && !q.at.Creating?
  {
    match p.at
    case Asking => Ask(s, p, a)
    case Locating => if a.Saw? && a.cluster in s.seen then AfterScope(p, a.cluster) else Idle
    case CheckingClaim(account) => CheckClaim(s, p, account, a)
    case Preparing => if a.Reads? then AfterToken(p, a.token, s.clock) else Report(p)
    case Probing(token) => Probe(s, p, token, a)
  }

  function Await(s: State, w: Worker, p: Pass, token: Token, flight: nat, a: Answer): State
    requires p.Running?
  {
    if !a.Done? then Move(s, w, Report(p))
    else if flight in s.flights && s.flights[flight].phase.Landed? then
      Move(s, w, Go(p, Adopting(token, s.flights[flight].phase.id, s.flights[flight].phase.clientId)))
    else s
  }

  /** The policy is written on every pass. The status says what for, whether the call was answered or not. */
  function Ensure(s: State, w: Worker, p: Pass, token: Token, a: Answer): State
    requires p.Running?
  {
    var status, q := p.issued.status,
      Go(p, Reporting(p.issued.status.(issuer := token.issuer, audience := token.audience)));
    if p.here == "" || !(a.Done? || a.Lost?) || status.servicePrincipalId.None?
       || status.servicePrincipalId.value !in s.principals then Move(s, w, q)
    else
      var trust := Trust(token.issuer, p.issued.owner, token.audience);
      Move(s.(policies := s.policies[status.servicePrincipalId.value := trust]), w, q)
  }

  function Talk(s: State, w: Worker, p: Pass, a: Answer): (t: State)
    requires p.Running? && Talks(p.at)
    ensures Frames(s, t) && MovesOnly(s, t, w) && t.store == s.store
    ensures !p.at.Creating? ==> t.flights == s.flights
    ensures t == s || !MayCreate(t.passes, w)
  {
    match p.at
    case Creating(token) => SendCreate(s, w, p, token, a)
    case Awaiting(token, flight) => Await(s, w, p, token, flight, a)
    case Searching(token) => Move(s, w, Search(s, p, token, a))
    case Removing(id) => Remove(s, w, p, id, a)
    case Ensuring(token) => Ensure(s, w, p, token, a)
  }

  /** Calls that write the status, and what they write. */
  predicate Writes(at: At) {
    at.Marking? || at.Adopting? || at.Latching? || at.Reporting?
  }

  function Proposed(p: Pass): Status
    requires p.Running? && Writes(p.at)
  {
    match p.at
    case Marking(_, now) => Marked(p.issued.status, p.here, now)
    case Adopting(token, id, clientId) => Adopted(p.issued.status, p.here, token, id, clientId)
    case Latching(now) => p.issued.status.(removedAt := Some(now))
    case Reporting(status) => status
  }

  /** Where the pass goes on once its status is written, if it does. */
  function Onward(at: At): Option<At> {
    match at
    case Marking(token, _) => Some(Creating(token))
    case Adopting(token, _, _) => Some(Ensuring(token))
    case _ => None
  }

  function Write(s: State, w: Worker, p: Pass, a: Answer): (t: State)
    requires p.Running? && !Looks(p.at) && !Talks(p.at)
    ensures Frames(s, t) && MovesOnly(s, t, w) && t.flights == s.flights
    ensures MayCreate(t.passes, w) ==>
      p.at.Marking? && Current(s.store, p.issued) && t.passes[w].issued.uid == s.store[p.issued.key].uid
  {
    if Writes(p.at) then WriteStatus(s, w, p, Proposed(p), a, Onward(p.at))
    else if a.Failed? then Move(s, w, Idle)
    else if p.at.AddingFinalizer? then Move(AddFinalizer(s, p.issued), w, Idle)
    else if p.at.Deleting? then Move(DeleteByName(s, p.issued.key), w, Idle)
    else Move(DropFinalizer(s, p.issued), w, Idle)
  }

  function Advance(s: State, w: Worker, p: Pass, a: Answer): (t: State)
    requires p.Running?
    ensures Frames(s, t) && MovesOnly(s, t, w)
    ensures Looks(p.at) || Talks(p.at) ==> t.store == s.store
    ensures !p.at.Creating? ==> t.flights == s.flights
    ensures t == s || (MayCreate(t.passes, w) ==>
      p.at.Marking? && Current(s.store, p.issued) && t.passes[w].issued.uid == s.store[p.issued.key].uid)
  {
    if Looks(p.at) then Move(s, w, Look(s, p, a))
    else if Talks(p.at) then Talk(s, w, p, a)
    else Write(s, w, p, a)
  }

  function PassOf(s: State, w: Worker): Pass {
    if w in s.passes then s.passes[w] else Idle
  }

  /** Total: a step that cannot happen in s leaves it as it is. */
  function Next(s: State, step: Step): (t: State)
    ensures t.operator == s.operator
    ensures s.seen <= t.seen && s.past <= t.past && s.clock <= t.clock
  {
    match step
    case Begin(w, version, here) =>
      if PassOf(s, w).Idle? && version in s.past then Move(s, w, AfterFetch(here, version)) else s
    case Call(w, answer) =>
      if PassOf(s, w).Running? then Advance(s, w, PassOf(s, w), answer) else s
    case Crash(w) => Move(s, w, Idle)
    case CreateRecord(key, owner, finalizer) =>
      if key in s.store then s
      else Put(s.(clock := s.clock + 1), Record(key, owner, s.clock, 0, finalizer, false, NEW_STATUS))
    case DeleteRecord(key) => DeleteByName(s, key)
    case Land(flight, clientId) =>
      if flight in s.flights && s.flights[flight].phase.InAir? then
        s.(flights := s.flights[flight := s.flights[flight].(phase := Landed(s.clock, clientId))],
           principals := s.principals[s.clock := Principal(s.flights[flight].marker, clientId)],
           origins := s.origins[s.clock := flight],
           clock := s.clock + 1)
      else s
    case Drop(flight) =>
      if flight in s.flights && s.flights[flight].phase.InAir?
      then s.(flights := s.flights[flight := s.flights[flight].(phase := Dropped)]) else s
    case PrincipalDeleted(id) => s.(principals := s.principals - {id})
    case ForeignPrincipal(principal) =>
      if principal.marker.operator == s.operator then s
      else s.(principals := s.principals[s.clock := principal], clock := s.clock + 1)
    case ClusterChanges(cluster) => s.(cluster := cluster, seen := s.seen + {cluster})
  }

  function Run(s: State, steps: seq<Step>): State
    decreases |steps|
  {
    if steps == [] then s else Next(Run(s, steps[..|steps| - 1]), steps[|steps| - 1])
  }

  function Initial(operator: NamespacedName, cluster: Cluster): State {
    State(operator, map[], {}, 0, map[], map[], map[], map[], map[], cluster, {cluster})
  }

  /******* What every step keeps *******/

  type Store = map<Key, Record>
  type Flights = map<nat, Flight>
  type Live = map<nat, Principal>
  type Passes = map<Worker, Pass>

  /** A version number is one version, and an incarnation is one name and one owner. */
  ghost predicate Versioned(store: Store, past: set<Record>, clock: nat) {
    && (forall k | k in store :: store[k].key == k && store[k] in past)
    && (forall r | r in past :: r.version < clock && r.uid < clock)
    && (forall r, q | r in past && q in past && r.version == q.version :: r == q)
    && (forall r, q | r in past && q in past && r.uid == q.uid :: r.key == q.key && r.owner == q.owner)
  }

  ghost predicate Copies(passes: Passes, past: set<Record>) {
    forall w | w in passes && passes[w].Running? :: passes[w].issued in past
  }

  /** What is out there of a create: it may still appear, or it did and is live. */
  predicate Outstanding(flights: Flights, live: Live, f: nat) {
    && f in flights
    && (flights[f].phase.InAir? || (flights[f].phase.Landed? && flights[f].phase.id in live))
  }

  /** The pass that wrote the mark and has not sent its create yet. */
  predicate MayCreate(passes: Passes, w: Worker) {
    w in passes && passes[w].Running? && passes[w].at.Creating?
  }

  /** No pass may create for this incarnation. */
  ghost predicate Uncreating(passes: Passes, uid: nat) {
    forall w | MayCreate(passes, w) :: passes[w].issued.uid != uid
  }

  /** Nothing made for this incarnation is live or can still appear, but for the ids given. */
  ghost predicate OnlyThe(flights: Flights, live: Live, uid: nat, ids: set<nat>) {
    forall f | Outstanding(flights, live, f) && flights[f].maker == uid ::
      flights[f].phase.Landed? && flights[f].phase.id in ids
  }

  /** This id was made by this incarnation's create, under its own marker. */
  ghost predicate Made(flights: Flights, origins: map<nat, nat>, key: Key, uid: nat, id: nat) {
    && id in origins && origins[id] in flights
    && flights[origins[id]].maker == uid
    && flights[origins[id]].marker.key == key
    && flights[origins[id]].phase.Landed? && flights[origins[id]].phase.id == id
  }

  /** This client id is the one Databricks gave with this id. */
  ghost predicate Given(flights: Flights, origins: map<nat, nat>, id: nat, clientId: string) {
    id in origins && origins[id] in flights && flights[origins[id]].phase == Landed(id, clientId)
  }

  /** The record that stands for a flight: the incarnation that made it, still there and still held. */
  ghost predicate Covers(r: Record, flight: Flight) {
    && r.uid == flight.maker && r.key == flight.marker.key && r.finalizer
    && (StateOf(r.status) == Sent
        || (StateOf(r.status) == Known && flight.phase.Landed? && r.status.servicePrincipalId == Some(flight.phase.id)))
  }

  ghost predicate Covered(store: Store, flights: Flights, live: Live) {
    forall f | Outstanding(flights, live, f) ::
      flights[f].marker.key in store && Covers(store[flights[f].marker.key], flights[f])
  }

  /** One incarnation makes one create. */
  ghost predicate OneCreateEach(flights: Flights) {
    forall f, g | f in flights && g in flights && flights[f].maker == flights[g].maker :: f == g
  }

  ghost predicate Flown(store: Store, flights: Flights, operator: NamespacedName, clock: nat) {
    && (forall f | f in flights :: f < clock && flights[f].maker < clock && flights[f].marker.operator == operator)
    && (forall f, k | f in flights && k in store && store[k].uid == flights[f].maker ::
         StateOf(store[k].status) != Unsent && flights[f].marker.key == k)
  }

  /** A service principal carrying this operator's marker is where one of its creates landed. */
  ghost predicate Traced(live: Live, flights: Flights, origins: map<nat, nat>, operator: NamespacedName, clock: nat) {
    && (forall id | id in live || id in origins :: id < clock)
    && (forall id | id in live && (live[id].marker.operator == operator || id in origins) ::
         && id in origins && origins[id] in flights
         && flights[origins[id]].marker == live[id].marker
         && flights[origins[id]].phase == Landed(id, live[id].clientId))
    && (forall f | f in flights && flights[f].phase.Landed? ::
         flights[f].phase.id in origins && origins[flights[f].phase.id] == f)
  }

  /** A pass may create only for a stored incarnation that is marked, held, and has sent nothing. */
  ghost predicate Entitled(store: Store, flights: Flights, passes: Passes) {
    forall w | MayCreate(passes, w) ::
      var issued := passes[w].issued;
      && issued.key in store && store[issued.key].uid == issued.uid
      && store[issued.key].finalizer && StateOf(store[issued.key].status) == Sent
      && (forall f | f in flights :: flights[f].maker != issued.uid)
  }

  ghost predicate OneCreatorEach(passes: Passes) {
    forall w, v | MayCreate(passes, w) && MayCreate(passes, v) && passes[w].issued.uid == passes[v].issued.uid :: w == v
  }

  /** Every id ever recorded was made by that incarnation's own create. */
  ghost predicate Written(past: set<Record>, flights: Flights, origins: map<nat, nat>) {
    forall r | r in past ::
      && InOrder(r.status)
      && (StateOf(r.status) != Unsent || r.deleting ==> r.finalizer)
      && (r.status.servicePrincipalId.Some? ==>
           Made(flights, origins, r.key, r.uid, r.status.servicePrincipalId.value)
           && Given(flights, origins, r.status.servicePrincipalId.value, r.status.clientId))
  }

  /** A pass deletes a record because nobody wants it, or because it may be destroyed where it is. */
  ghost predicate Justified(seen: set<Cluster>, operator: NamespacedName, issued: Record, why: Why) {
    match why
    case Unwanted(cluster) => cluster in seen && !StillWanted(cluster, operator, issued)
    case NotServed(account, namespace) =>
      && account in seen && OutOfScope(account, issued.owner.namespace)
      && namespace in seen && MayDestroyIn(namespace, operator, issued.owner.namespace)
  }

  /** What a pass read about its copy. */
  ghost predicate Fits(p: Pass, operator: NamespacedName, seen: set<Cluster>)
    requires p.Running?
  {
    var issued := p.issued;
    match p.at
    case AddingFinalizer => !issued.deleting
    case Asking => issued.finalizer && !issued.deleting
    case Locating => issued.finalizer && !issued.deleting
    case CheckingClaim(account) => !issued.deleting && account in seen && OutOfScope(account, issued.owner.namespace)
    case Deleting(why) => !issued.deleting && Justified(seen, operator, issued, why)
    case Preparing => issued.finalizer && (issued.deleting ==> StateOf(issued.status) == Sent)
    case Marking(_, _) => !issued.deleting && issued.finalizer && StateOf(issued.status) == Unsent
    case Creating(_) => issued.finalizer && StateOf(issued.status) == Sent
    case Awaiting(_, _) => issued.finalizer && StateOf(issued.status) == Sent
    case Searching(_) => issued.finalizer && StateOf(issued.status) == Sent
    case Adopting(_, _, _) => issued.finalizer && StateOf(issued.status) == Sent
    case Probing(_) => issued.finalizer && StateOf(issued.status) == Known
    case Latching(_) => issued.finalizer && StateOf(issued.status) == Known
    case Removing(_) => issued.deleting
    case Releasing => issued.deleting
    case Reporting(status) => status == issued.status.(issuer := status.issuer, audience := status.audience)
    case _ => true
  }

  /** The ids a pass has accounted for: beyond them, it relies on nothing being out for its record. */
  function Accounted(p: Pass): Option<set<nat>>
    requires p.Running?
  {
    match p.at
    case Adopting(_, id, _) => Some({id})
    case Removing(id) => Some({id})
    case Latching(_) => Some({})
    case Releasing => Some({})
    case _ => None
  }

  ghost predicate Awaits(p: Pass, flights: Flights)
    requires p.Running?
  {
    p.at.Awaiting? ==>
      p.at.flight in flights && flights[p.at.flight].maker == p.issued.uid
        && flights[p.at.flight].marker.key == p.issued.key
  }

  /** What is deleted in Databricks, if it is there at all, is this operator's and this record's. */
  ghost predicate Targets(p: Pass, live: Live, operator: NamespacedName, clock: nat)
    requires p.Running?
  {
    p.at.Removing? ==>
      p.at.id < clock
      && (p.at.id in live ==> live[p.at.id].marker.operator == operator && live[p.at.id].marker.key == p.issued.key)
  }

  ghost predicate Accounts(p: Pass, flights: Flights, live: Live, passes: Passes)
    requires p.Running?
  {
    Accounted(p).Some? ==>
      OnlyThe(flights, live, p.issued.uid, Accounted(p).value) && Uncreating(passes, p.issued.uid)
  }

  ghost predicate Attributes(p: Pass, flights: Flights, origins: map<nat, nat>)
    requires p.Running?
  {
    && (p.at.Adopting? || p.at.Removing? ==> Made(flights, origins, p.issued.key, p.issued.uid, p.at.id))
    && (p.at.Adopting? ==> Given(flights, origins, p.at.id, p.at.clientId))
    && (p.at.Releasing? && StateOf(p.issued.status) == Sent ==> HasLanded(flights, p.issued.uid))
  }

  /** What a pass relies on, some of it for as long as the version it read is the one that is stored. */
  ghost predicate Relies(s: State, p: Pass)
    requires p.Running?
  {
    && Awaits(p, s.flights)
    && Targets(p, s.principals, s.operator, s.clock)
    && (Current(s.store, p.issued) ==>
         Accounts(p, s.flights, s.principals, s.passes) && Attributes(p, s.flights, s.origins))
  }

  ghost predicate HasLanded(flights: Flights, uid: nat) {
    exists f :: f in flights && flights[f].maker == uid && flights[f].phase.Landed?
  }

  ghost predicate Fitting(passes: Passes, operator: NamespacedName, seen: set<Cluster>) {
    forall w | w in passes && passes[w].Running? :: Fits(passes[w], operator, seen)
  }

  ghost predicate Relying(s: State) {
    forall w | w in s.passes && s.passes[w].Running? :: Relies(s, s.passes[w])
  }

  ghost predicate Inv(s: State) {
    && Versioned(s.store, s.past, s.clock)
    && Copies(s.passes, s.past)
    && Covered(s.store, s.flights, s.principals)
    && OneCreateEach(s.flights)
    && Flown(s.store, s.flights, s.operator, s.clock)
    && Traced(s.principals, s.flights, s.origins, s.operator, s.clock)
    && Entitled(s.store, s.flights, s.passes)
    && OneCreatorEach(s.passes)
    && Written(s.past, s.flights, s.origins)
    && Fitting(s.passes, s.operator, s.seen)
    && Relying(s)
    && s.cluster in s.seen
  }
}

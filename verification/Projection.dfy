/**
 What an operator shows of its records in the tenant's namespace
 (internal/controller/databricksserviceaccount_controller.go:103-274, 317-470, 798-834).

 The object is one list several operators write, keyed by profile and merged by server-side apply. A
 pass sends every entry it wants in one apply, and is modelled with nobody else writing between its
 reads and that apply.
 */
module Projection {
  import opened Names
  import opened Options
  import opened Requests
  import opened ServerSideApply
  import Sorting

  /** What is copied from a record. */
  datatype Facts = Facts(issued: string, servicePrincipalId: string, clientId: string, accountId: string,
                         subject: string, audience: string, removed: bool)

  datatype Entry = Entry(profile: string, operator: string, facts: Facts) {
    predicate AskedOf(o: NamespacedName) {
      operator == o.ToString()
    }
  }

  type Live = map<string, Field<Entry>>

  type Records = map<string, Facts>

  function EntryOf(request: Request, facts: Facts): Entry {
    Entry(request.ToString(), request.operator.ToString(), facts)
  }

  /** What an entry has to say for a request and its record, field by field. */
  predicate Displays(e: Entry, request: Request, facts: Facts) {
    var operator := request.operator.namespace + "/" + request.operator.name;
    && e.profile == (if request.name == "" then operator else request.name)
    && e.operator == operator
    && e.facts.issued == facts.issued
    && e.facts.servicePrincipalId == facts.servicePrincipalId
    && e.facts.clientId == facts.clientId
    && e.facts.accountId == facts.accountId
    && e.facts.subject == facts.subject
    && e.facts.audience == facts.audience
    && e.facts.removed == facts.removed
  }

  lemma EntryDisplays(e: Entry, request: Request, facts: Facts)
    ensures Displays(e, request, facts) <==> e == EntryOf(request, facts)
  {
    assert request.operator.ToString() == request.operator.namespace + "/" + request.operator.name;
  }

  /** After a pass that ends well, every record that is asked for stands under its profile as it is. */
  lemma ShownAsRecorded(operators: set<NamespacedName>, before: Live, after: Live, requested: Requested,
                        operator: NamespacedName, records: Records, r: Request)
    requires Apart(operators) && operator in operators && Shows(operators, before, after, requested, operator, records)
    requires Sound(requested, operator) && r in requested.understood && r.name in records
    ensures var profile := if r.name == "" then operator.namespace + "/" + operator.name else r.name;
      && profile in after && after[profile].owners == {operator}
      && Displays(after[profile].value, r, records[r.name])
  {
    var e := EntryOf(r, records[r.name]);
    EntryDisplays(e, r, records[r.name]);
    assert IsAsked(requested, records, e) && IsWanted(requested, operator, records, before, e);
    MineAreOwned(operators, after, operator);
  }

  /** An entry whose key is there and cannot be read: nothing says that nobody asks for it any more. */
  predicate KeyIsRefused(requested: Requested, operator: NamespacedName, p: string) {
    var bare := "databricks.workload-identity.io/service-principal";
    (if p == operator.namespace + "/" + operator.name then bare else bare + "." + p) in requested.refused
  }

  /** A pass that ends well leaves such an entry of its own exactly as it was. */
  lemma UnreadableIsKept(operators: set<NamespacedName>, before: Live, after: Live, requested: Requested,
                         operator: NamespacedName, records: Records)
    requires Apart(operators) && operator in operators && Faithful(operators, before)
    requires Shows(operators, before, after, requested, operator, records)
    ensures forall p | Owns(before, operator, p) && KeyIsRefused(requested, operator, p) ::
      p in after && after[p] == before[p]
  {
    MineAreOwned(operators, before, operator);
    MineAreOwned(operators, after, operator);
    forall p | Owns(before, operator, p) && KeyIsRefused(requested, operator, p)
      ensures p in after && after[p] == before[p]
    {
      KeyOfEntry(operator, p);
      assert before[p].value.profile == p && IsResent(requested, operator, before, before[p].value);
      assert IsWanted(requested, operator, records, before, before[p].value);
    }
  }

  lemma KeyOfEntry(operator: NamespacedName, p: string)
    requires p != ""
    ensures var bare := "databricks.workload-identity.io/service-principal";
      AnnotationFor(IdentityNameOf(operator, p))
        == if p == operator.namespace + "/" + operator.name then bare else bare + "." + p
  {
    KeysAreLegal(p);
    var bare := "databricks.workload-identity.io/service-principal";
    assert "databricks.workload-identity.io/" + ("service-principal." + p) == bare + "." + p;
    assert operator.ToString() == operator.namespace + "/" + operator.name;
  }

  lemma EndsWell(operators: set<NamespacedName>, before: Live, after: Live, requested: Requested,
                 operator: NamespacedName, records: Records)
    requires Apart(operators) && operator in operators && Faithful(operators, before)
    requires Shows(operators, before, after, requested, operator, records) && Sound(requested, operator)
    ensures forall r | r in requested.understood && r.name in records ::
      var profile := if r.name == "" then operator.namespace + "/" + operator.name else r.name;
      && profile in after && after[profile].owners == {operator}
      && Displays(after[profile].value, r, records[r.name])
    ensures forall p | Owns(before, operator, p) && KeyIsRefused(requested, operator, p) ::
      p in after && after[p] == before[p]
  {
    forall r | r in requested.understood && r.name in records
      ensures var profile := if r.name == "" then operator.namespace + "/" + operator.name else r.name;
        && profile in after && after[profile].owners == {operator}
        && Displays(after[profile].value, r, records[r.name])
    {
      ShownAsRecorded(operators, before, after, requested, operator, records, r);
    }
    UnreadableIsKept(operators, before, after, requested, operator, records);
  }

  /** The name the asker gave the identity. The unnamed one is keyed by the operator's own reference. */
  function IdentityNameOf(operator: NamespacedName, profile: string): string {
    if profile == operator.ToString() then "" else profile
  }

  /** Operators whose references tell them apart, which is so for all whose names Kubernetes accepts. */
  ghost predicate Apart(operators: set<NamespacedName>) {
    forall o, p | o in operators && p in operators && o.ToString() == p.ToString() :: o == p
  }

  lemma LegalOperatorsAreApart(operators: set<NamespacedName>)
    requires forall o | o in operators :: IsOperator(o)
    ensures Apart(operators)
  {
    forall o, p | o in operators && p in operators && o.ToString() == p.ToString()
      ensures o == p
    {
      ParseOperatorRoundTrip(o);
      ParseOperatorRoundTrip(p);
    }
  }

  /** The key of an entry is its operator's reference, or a name, and no name holds a slash. */
  predicate Legible(e: Entry) {
    e.profile != "" && (e.profile == e.operator || '/' !in e.profile)
  }

  /** Every entry is owned by the one operator it names. */
  ghost predicate Faithful(operators: set<NamespacedName>, live: Live) {
    forall p | p in live ::
      live[p].value.profile == p && Legible(live[p].value)
      && exists o :: o in operators && live[p].owners == {o} && live[p].value.operator == o.ToString()
  }

  /** Reading, as far as showing depends on it. */
  ghost predicate Sound(requested: Requested, operator: NamespacedName) {
    && (forall i, j | 0 <= i < j < |requested.understood| ::
         requested.understood[i].name != requested.understood[j].name)
    && (forall r | r in requested.understood ::
         && r.operator == operator && IdentityNameOf(operator, r.ToString()) == r.name
         && r.ToString() != "" && (r.ToString() == operator.ToString() || '/' !in r.ToString())
         && AnnotationFor(r.name) !in requested.refused)
  }

  lemma ReadingIsSound(annotations: Annotations, operator: NamespacedName, requested: Requested)
    requires Reads(annotations, operator, requested)
    ensures Sound(requested, operator)
  {
    forall i, j | 0 <= i < j < |requested.understood|
      ensures requested.understood[i].name != requested.understood[j].name
    {
      BeforeIsStrict(requested.understood[i].name, requested.understood[j].name);
    }
    forall r | r in requested.understood
      ensures r.operator == operator && IdentityNameOf(operator, r.ToString()) == r.name
      ensures r.ToString() != "" && (r.ToString() == operator.ToString() || '/' !in r.ToString())
      ensures AnnotationFor(r.name) !in requested.refused
    {
      NamedHoldsNoSlash(annotations, r);
      assert operator.ToString()[|operator.namespace|] == '/';
    }
  }

  /** Asked for, and there is a record to show; or shown already, and its key is there and cannot be read. */
  ghost predicate IsWanted(requested: Requested, operator: NamespacedName, records: Records, live: Live, e: Entry) {
    IsAsked(requested, records, e) || IsResent(requested, operator, live, e)
  }

  ghost predicate IsAsked(requested: Requested, records: Records, e: Entry) {
    exists r :: r in requested.understood && r.name in records && e == EntryOf(r, records[r.name])
  }

  predicate IsResent(requested: Requested, operator: NamespacedName, live: Live, e: Entry) {
    && e.profile in live && live[e.profile].value == e && e.AskedOf(operator)
    && AnnotationFor(IdentityNameOf(operator, e.profile)) in requested.refused
  }

  function ConfigOf(entries: seq<Entry>): map<string, Entry> {
    if entries == [] then map[]
    else ConfigOf(entries[..|entries| - 1])[entries[|entries| - 1].profile := entries[|entries| - 1]]
  }

  lemma {:induction false} ConfigHolds(entries: seq<Entry>)
    requires forall i, j | 0 <= i < j < |entries| :: entries[i].profile != entries[j].profile
    ensures forall p :: p in ConfigOf(entries) <==> exists i :: 0 <= i < |entries| && entries[i].profile == p
    ensures forall e | e in entries :: ConfigOf(entries)[e.profile] == e
    ensures forall p | p in ConfigOf(entries) :: ConfigOf(entries)[p] in entries && ConfigOf(entries)[p].profile == p
  {
    if entries != [] {
      var before, last := entries[..|entries| - 1], entries[|entries| - 1];
      ConfigHolds(before);
      assert entries == before + [last];
    }
  }

  /** One ServiceAccount: the object shown beside it, and one operator's records of its identities. */
  class Tenant {
    var live: Option<Live>
    var records: Records

    constructor (live: Option<Live>, records: Records)
      ensures this.live == live && this.records == records
    {
      this.live, this.records := live, records;
    }
  }

  function LiveOf(live: Option<Live>): Live {
    if live.Some? then live.value else map[]
  }

  lemma MineAreOwned(operators: set<NamespacedName>, live: Live, operator: NamespacedName)
    requires Apart(operators) && operator in operators && Faithful(operators, live)
    ensures forall p | p in live :: live[p].value.AskedOf(operator) <==> Owns(live, operator, p)
    ensures forall p | Owns(live, operator, p) :: live[p].owners == {operator}
  {
  }

  /** An apply of nothing takes this operator's entries and leaves the rest. */
  lemma NothingSent(live: Live, operator: NamespacedName)
    requires forall p | Owns(live, operator, p) :: live[p].owners == {operator}
    ensures !Refuses(live, operator, ConfigOf([]))
    ensures Merged(live, operator, ConfigOf([])) == map p | p in live && !Owns(live, operator, p) :: live[p]
  {
    var none: map<string, Entry> := map[];
    var merged := Merged(live, operator, none);
    assert forall p :: p in merged <==> p in live && live[p].owners != {operator};
    forall p | p in merged
      ensures merged[p] == live[p]
    {
      assert live[p].owners - {operator} == live[p].owners;
    }
  }

  /** No entry of anybody else's is added, changed or taken away. */
  predicate Untouched(before: Live, after: Live, operator: NamespacedName) {
    && (forall p | p in before && operator !in before[p].owners :: p in after && after[p] == before[p])
    && (forall p | p in after && operator !in after[p].owners :: p in before && before[p] == after[p])
  }

  /** What a pass that ends well makes of the object: its own entries are the wanted ones, and the rest is as it was. */
  ghost predicate Shows(operators: set<NamespacedName>, before: Live, after: Live, requested: Requested,
                        operator: NamespacedName, records: Records) {
    && Faithful(operators, after)
    && (forall e :: IsWanted(requested, operator, records, before, e) <==>
         Owns(after, operator, e.profile) && after[e.profile].value == e)
    && Untouched(before, after, operator)
  }

  /** Some wanted entry's profile is one another operator's entry has. */
  ghost predicate Contested(before: Live, requested: Requested, operator: NamespacedName, records: Records) {
    exists e :: IsWanted(requested, operator, records, before, e) && e.profile in before
      && !Owns(before, operator, e.profile)
  }

  ghost predicate AreTheWanted(entries: seq<Entry>, requested: Requested, operator: NamespacedName, records: Records,
                               before: Live) {
    && (forall e :: e in entries <==> IsWanted(requested, operator, records, before, e))
    && (forall i, j | 0 <= i < j < |entries| :: entries[i].profile != entries[j].profile)
  }

  lemma WantedAreOurs(requested: Requested, operator: NamespacedName, records: Records, before: Live,
                      operators: set<NamespacedName>, e: Entry)
    requires Sound(requested, operator) && Faithful(operators, before)
      && IsWanted(requested, operator, records, before, e)
    ensures e.AskedOf(operator) && Legible(e)
  {
  }

  lemma NothingWanted(operators: set<NamespacedName>, before: Live, requested: Requested, operator: NamespacedName,
                      records: Records)
    requires Apart(operators) && operator in operators && Faithful(operators, before)
    requires forall e :: !IsWanted(requested, operator, records, before, e)
    ensures !Contested(before, requested, operator, records)
    ensures var after := map p | p in before && !Owns(before, operator, p) :: before[p];
      Shows(operators, before, after, requested, operator, records)
  {
  }

  /** An apply of the wanted entries is refused exactly when one of them is contested. */
  lemma RefusedIffContested(operators: set<NamespacedName>, before: Live, requested: Requested,
                            operator: NamespacedName, records: Records, entries: seq<Entry>)
    requires Apart(operators) && operator in operators && Faithful(operators, before) && Sound(requested, operator)
    requires AreTheWanted(entries, requested, operator, records, before)
    ensures Refuses(before, operator, ConfigOf(entries)) <==> Contested(before, requested, operator, records)
  {
    ConfigHolds(entries);
    if Contested(before, requested, operator, records) {
      var e :| IsWanted(requested, operator, records, before, e) && e.profile in before
        && !Owns(before, operator, e.profile);
      ContestedIsRefused(operators, before, requested, operator, records, entries, e);
    }
    if !Contested(before, requested, operator, records) {
      ConfigIsOurs(operators, before, requested, operator, records, entries);
      MineAreOwned(operators, before, operator);
    }
  }

  lemma ContestedIsRefused(operators: set<NamespacedName>, before: Live, requested: Requested, operator: NamespacedName,
                           records: Records, entries: seq<Entry>, e: Entry)
    requires Apart(operators) && operator in operators && Faithful(operators, before) && Sound(requested, operator)
    requires e in entries && IsWanted(requested, operator, records, before, e)
    requires forall i, j | 0 <= i < j < |entries| :: entries[i].profile != entries[j].profile
    requires e.profile in before && !Owns(before, operator, e.profile)
    ensures Refuses(before, operator, ConfigOf(entries))
  {
    hide IsWanted, Faithful, Apart, Sound, Legible, ConfigOf, NamespacedName.ToString;
    ConfigHolds(entries);
    WantedAreOurs(requested, operator, records, before, operators, e);
    AnothersDiffers(operators, before, operator, e);
    RefusesAt(before, operator, ConfigOf(entries), e.profile);
  }

  lemma AnothersDiffers(operators: set<NamespacedName>, before: Live, operator: NamespacedName, e: Entry)
    requires Apart(operators) && operator in operators && Faithful(operators, before)
    requires e.AskedOf(operator) && e.profile in before && !Owns(before, operator, e.profile)
    ensures before[e.profile].value != e && before[e.profile].owners - {operator} != {}
  {
    MineAreOwned(operators, before, operator);
    var o :| o in operators && before[e.profile].owners == {o};
    assert o in before[e.profile].owners - {operator};
  }

  lemma MergedShows(operators: set<NamespacedName>, before: Live, requested: Requested, operator: NamespacedName,
                    records: Records, entries: seq<Entry>)
    requires Apart(operators) && operator in operators && Faithful(operators, before) && Sound(requested, operator)
    requires AreTheWanted(entries, requested, operator, records, before)
    requires !Contested(before, requested, operator, records)
    ensures Shows(operators, before, Merged(before, operator, ConfigOf(entries)), requested, operator, records)
  {
    var config := ConfigOf(entries);
    ConfigIsOurs(operators, before, requested, operator, records, entries);
    MineAreOwned(operators, before, operator);
    MergedIs(before, operator, config);
    var after := Merged(before, operator, config);
    forall e
      ensures IsWanted(requested, operator, records, before, e) <==>
        Owns(after, operator, e.profile) && after[e.profile].value == e
    {
      assert IsWanted(requested, operator, records, before, e) <==> e.profile in config && config[e.profile] == e;
    }
  }

  /** The configuration has exactly the wanted entries, each this operator's, and contests no profile. */
  lemma ConfigIsOurs(operators: set<NamespacedName>, before: Live, requested: Requested, operator: NamespacedName,
                     records: Records, entries: seq<Entry>)
    requires Faithful(operators, before) && Sound(requested, operator)
    requires AreTheWanted(entries, requested, operator, records, before)
      && !Contested(before, requested, operator, records)
    ensures var config := ConfigOf(entries);
      && (forall e :: IsWanted(requested, operator, records, before, e) <==>
           e.profile in config && config[e.profile] == e)
      && (forall p | p in config ::
           Legible(config[p]) && config[p].profile == p && config[p].operator == operator.ToString())
      && (forall p | p in config && p in before :: Owns(before, operator, p))
  {
    ConfigHolds(entries);
    var config := ConfigOf(entries);
    forall p | p in config
      ensures Legible(config[p]) && config[p].profile == p && config[p].operator == operator.ToString()
      ensures p in before ==> Owns(before, operator, p)
    {
      assert config[p] in entries;
      WantedAreOurs(requested, operator, records, before, operators, config[p]);
    }
  }

  lemma MergedIs(before: Live, operator: NamespacedName, config: map<string, Entry>)
    requires forall p | Owns(before, operator, p) :: before[p].owners == {operator}
    requires forall p | p in config && p in before :: Owns(before, operator, p)
    ensures var after := Merged(before, operator, config);
      && (forall p :: p in after <==> p in config || (p in before && !Owns(before, operator, p)))
      && (forall p | p in config :: after[p] == Field(config[p], {operator}))
      && (forall p | p in after && p !in config :: after[p] == before[p])
  {
    var after := Merged(before, operator, config);
    forall p | p in after && p !in config
      ensures after[p] == before[p] && !Owns(before, operator, p)
    {
      assert before[p].owners - {operator} == before[p].owners;
    }
    forall p | p in config && p in before
      ensures before[p].owners + {operator} == {operator}
    {
    }
  }

  lemma {:induction false} EntriesHaveNames(understood: seq<Request>, records: Records)
    requires forall i, j | 0 <= i < j < |understood| :: understood[i].name != understood[j].name
    requires forall r, q | r in understood && q in understood && r.ToString() == q.ToString() :: r.name == q.name
    ensures forall i, j | 0 <= i < j < |EntriesOf(understood, records)| ::
      EntriesOf(understood, records)[i].profile != EntriesOf(understood, records)[j].profile
  {
    if understood != [] {
      var before, last := understood[..|understood| - 1], understood[|understood| - 1];
      EntriesHaveNames(before, records);
      forall e | e in EntriesOf(before, records)
        ensures e.profile != last.ToString()
      {
        EntriesExactly(before, records, e);
        var i :| 0 <= i < |before| && before[i].name in records && e == EntryOf(before[i], records[before[i].name]);
        assert before[i] == understood[i] && understood[i] in understood && last in understood;
      }
    }
  }

  /** What was asked for and what is sent again, together, are the wanted entries and no profile is there twice. */
  lemma TogetherTheWanted(operators: set<NamespacedName>, requested: Requested, operator: NamespacedName,
                          records: Records, before: Live, resent: seq<Entry>)
    requires Faithful(operators, before) && Sound(requested, operator)
    requires forall e :: e in resent <==> IsResent(requested, operator, before, e)
    requires forall i, j | 0 <= i < j < |resent| :: resent[i] != resent[j]
    ensures AreTheWanted(EntriesOf(requested.understood, records) + resent, requested, operator, records, before)
  {
    var asked := EntriesOf(requested.understood, records);
    EntriesHaveNames(requested.understood, records);
    forall e
      ensures e in asked <==> IsAsked(requested, records, e)
    {
      EntriesExactly(requested.understood, records, e);
    }
    forall e, f | e in asked && f in resent
      ensures e.profile != f.profile
    {
      assert IsAsked(requested, records, e);
    }
    forall i, j | 0 <= i < j < |resent|
      ensures resent[i].profile != resent[j].profile
    {
      assert resent[i] in resent && resent[j] in resent;
    }
  }

  /** Sorting them by name changes neither which there are nor that they are apart. */
  lemma SortedTheWanted(entries: seq<Entry>, operators: set<NamespacedName>, requested: Requested,
                        operator: NamespacedName, records: Records, before: Live)
    requires Faithful(operators, before) && Sound(requested, operator)
    requires AreTheWanted(entries, requested, operator, records, before)
    ensures var name := (e: Entry) => IdentityNameOf(operator, e.profile);
      AreTheWanted(Sorting.SortBy(entries, name), requested, operator, records, before)
      && Sorting.KeysOrdered(Sorting.SortBy(entries, name), name)
  {
    var name := (e: Entry) => IdentityNameOf(operator, e.profile);
    forall i, j | 0 <= i < j < |entries|
      ensures name(entries[i]) != name(entries[j])
    {
      assert entries[i] in entries && entries[j] in entries;
      WantedAreOurs(requested, operator, records, before, operators, entries[i]);
      WantedAreOurs(requested, operator, records, before, operators, entries[j]);
    }
    Sorting.SortKeeps(entries, name);
    var sorted := Sorting.SortBy(entries, name);
    forall i, j | 0 <= i < j < |sorted|
      ensures sorted[i].profile != sorted[j].profile
    {
      BeforeIsStrict(name(sorted[i]), name(sorted[j]));
    }
  }

  class Reconciler {
    const operator: NamespacedName
    const tenant: Tenant

    constructor (operator: NamespacedName, tenant: Tenant)
      ensures this.operator == operator && this.tenant == tenant
    {
      this.operator, this.tenant := operator, tenant;
    }

    /** The record if there is one, and one made now if minting is open. */
    method EntryFor(request: Request, minting: bool, made: string -> Facts) returns (entry: Option<Entry>)
      modifies tenant`records
      ensures tenant.records == Recorded(old(tenant.records), [request], minting, made)
      ensures entry.Some? <==> request.name in tenant.records
      ensures entry.Some? ==> Displays(entry.value, request, tenant.records[request.name])
    {
      if request.name !in tenant.records {
        if !minting {
          return None;
        }
        tenant.records := tenant.records[request.name := made(request.name)];
      }
      entry := Some(EntryOf(request, tenant.records[request.name]));
    }

    method EntriesFor(understood: seq<Request>, minting: bool, made: string -> Facts) returns (entries: seq<Entry>)
      modifies tenant`records
      ensures tenant.records == Recorded(old(tenant.records), understood, minting, made)
      ensures forall e :: e in entries <==>
        exists i :: 0 <= i < |understood| && understood[i].name in tenant.records
          && Displays(e, understood[i], tenant.records[understood[i].name])
      ensures entries == EntriesOf(understood, tenant.records)
    {
      entries := [];
      ghost var all := Recorded(tenant.records, understood, minting, made);
      for i := 0 to |understood|
        invariant tenant.records == Recorded(old(tenant.records), understood[..i], minting, made)
        invariant entries == EntriesOf(understood[..i], all)
      {
        var request := understood[i];
        assert understood[..i + 1][..i] == understood[..i];
        var entry := EntryFor(request, minting, made);
        assert [request][..0] == [];
        assert understood[..i + 1][|understood[..i + 1]| - 1] == request;
        RecordedGrows(old(tenant.records), understood, i + 1, minting, made);
        if !minting {
          RecordedWithoutMinting(old(tenant.records), understood[..i + 1], made);
        }
        if entry.Some? {
          EntryDisplays(entry.value, request, tenant.records[request.name]);
          entries := entries + [entry.value];
        }
      }
      assert understood[..|understood|] == understood;
      EntriesDisplay(understood, tenant.records);
    }

    /** Last pass's entry for every identity whose key is there and cannot be read. */
    method ResentIdentities(ghost operators: set<NamespacedName>, requested: Requested) returns (resent: seq<Entry>)
      requires Faithful(operators, LiveOf(tenant.live))
      ensures forall e :: e in resent <==> IsResent(requested, operator, LiveOf(tenant.live), e)
      ensures forall i, j | 0 <= i < j < |resent| :: resent[i] != resent[j]
    {
      resent := [];
      if requested.refused == [] || tenant.live.None? {
        return;
      }
      var live := tenant.live.value;
      var todo := live.Keys;
      while todo != {}
        invariant todo <= live.Keys
        invariant forall e :: e in resent <==> e.profile !in todo && IsResent(requested, operator, live, e)
        invariant forall i, j | 0 <= i < j < |resent| :: resent[i] != resent[j]
        decreases |todo|
      {
        var p :| p in todo;
        var entry := live[p].value;
        assert entry.profile == p;
        todo := todo - {p};
        var unreadable := Unreadable(requested, IdentityNameOf(operator, p));
        if entry.AskedOf(operator) && unreadable {
          resent := resent + [entry];
        }
      }
    }

    /** Takes this operator's entries off, and the object with them when they were the last. */
    method RemoveIdentities(ghost operators: set<NamespacedName>)
      requires Apart(operators) && operator in operators && Faithful(operators, LiveOf(tenant.live))
      modifies tenant`live
      ensures var before := LiveOf(old(tenant.live));
        LiveOf(tenant.live) == map p | p in before && !Owns(before, operator, p) :: before[p]
      ensures tenant.live.Some? ==> tenant.live.value != map[]
    {
      hide Legible;
      if tenant.live.None? {
        return;
      }
      var live := tenant.live.value;
      MineAreOwned(operators, live, operator);
      var mine := set p | p in live && live[p].value.AskedOf(operator);
      var others := live.Keys - mine;
      if others == {} {
        forall p | p in live
          ensures p in mine
        {
          assert p !in others;
        }
        tenant.live := None;
        return;
      }
      var kept := map p | p in live && !Owns(live, operator, p) :: live[p];
      assert kept.Keys == others;
      if mine == {} {
        assert kept == live;
        return;
      }
      NothingSent(live, operator);
      var err := Apply([]);
    }

    /** Brings the object in step with the records, and makes the records that are asked for and may be made. */
    method Reconcile(ghost operators: set<NamespacedName>, annotations: Annotations, mints: bool, declared: bool,
                     served: bool, made: string -> Facts)
      returns (err: bool, requested: Requested, sent: seq<Entry>)
      requires Apart(operators) && operator in operators && Faithful(operators, LiveOf(tenant.live))
      modifies tenant
      ensures Reads(annotations, operator, requested)
      ensures tenant.records == Recorded(old(tenant.records), requested.understood, mints && declared && served, made)
      ensures err <==> Contested(LiveOf(old(tenant.live)), requested, operator, tenant.records)
      ensures if err then LiveOf(tenant.live) == LiveOf(old(tenant.live))
              else Shows(operators, LiveOf(old(tenant.live)), LiveOf(tenant.live), requested, operator, tenant.records)
      ensures !err ==> forall p | Owns(LiveOf(old(tenant.live)), operator, p) && KeyIsRefused(requested, operator, p) ::
        p in LiveOf(tenant.live) && LiveOf(tenant.live)[p] == LiveOf(old(tenant.live))[p]
      ensures !err ==> forall r | r in requested.understood && r.name in tenant.records ::
        var profile := if r.name == "" then operator.namespace + "/" + operator.name else r.name;
        && profile in LiveOf(tenant.live) && LiveOf(tenant.live)[profile].owners == {operator}
        && Displays(LiveOf(tenant.live)[profile].value, r, tenant.records[r.name])
      ensures Sorting.KeysOrdered(sent, (e: Entry) => IdentityNameOf(operator, e.profile))
    {
      hide Displays, KeyIsRefused, Legible, Shows, Faithful, Apart, Sound;
      sent, err := [], false;
      requested := RequestsFor(annotations, operator);
      ReadingIsSound(annotations, operator, requested);
      ghost var before := LiveOf(tenant.live);
      var resent := ResentIdentities(operators, requested);
      if requested.understood == [] && resent == [] {
        RemoveIdentities(operators);
        NothingWanted(operators, before, requested, operator, tenant.records);
        EndsWell(operators, before, LiveOf(tenant.live), requested, operator, tenant.records);
        return;
      }
      var minting := mints && declared && served;
      var entries := EntriesFor(requested.understood, minting, made);
      TogetherTheWanted(operators, requested, operator, tenant.records, before, resent);
      SortedTheWanted(entries + resent, operators, requested, operator, tenant.records, before);
      entries := Sorting.SortBy(entries + resent, (e: Entry) => IdentityNameOf(operator, e.profile));
      if entries == [] {
        RemoveIdentities(operators);
        NothingWanted(operators, before, requested, operator, tenant.records);
        EndsWell(operators, before, LiveOf(tenant.live), requested, operator, tenant.records);
        return;
      }
      sent := entries;
      RefusedIffContested(operators, before, requested, operator, tenant.records, entries);
      if !Contested(before, requested, operator, tenant.records) {
        MergedShows(operators, before, requested, operator, tenant.records, entries);
      }
      err := Apply(entries);
      if !err {
        EndsWell(operators, before, LiveOf(tenant.live), requested, operator, tenant.records);
      }
    }

    /** One apply for all of them: what is sent is what is kept. */
    method Apply(entries: seq<Entry>) returns (err: bool)
      modifies tenant`live
      ensures err <==> Refuses(LiveOf(old(tenant.live)), operator, ConfigOf(entries))
      ensures tenant.live ==
        Some(if err then LiveOf(old(tenant.live)) else Merged(LiveOf(old(tenant.live)), operator, ConfigOf(entries)))
    {
      if tenant.live.None? {
        tenant.live := Some(map[]);
      }
      match ServerSideApply.Apply(tenant.live.value, operator, ConfigOf(entries), false) {
        case None => err := true;
        case Some(merged) =>
          err := false;
          tenant.live := Some(merged);
      }
    }
  }

  /** The records once each of these requests has been seen to. */
  function Recorded(records: Records, understood: seq<Request>, minting: bool, made: string -> Facts): Records {
    if understood == [] then records
    else
      var before, last := Recorded(records, understood[..|understood| - 1], minting, made),
        understood[|understood| - 1];
      if minting && last.name !in before then before[last.name := made(last.name)] else before
  }

  function EntriesOf(understood: seq<Request>, records: Records): seq<Entry> {
    if understood == [] then []
    else
      var before, last := EntriesOf(understood[..|understood| - 1], records), understood[|understood| - 1];
      if last.name in records then before + [EntryOf(last, records[last.name])] else before
  }

  /** A record that is there is neither made again nor changed, and without minting none is made. */
  lemma {:induction false} RecordedGrows(records: Records, understood: seq<Request>, n: nat, minting: bool,
                                         made: string -> Facts)
    requires n <= |understood|
    ensures var some, all :=
      Recorded(records, understood[..n], minting, made), Recorded(records, understood, minting, made);
      && (forall name | name in some :: name in all && all[name] == some[name])
      && (!minting ==> all == records)
    decreases |understood|
  {
    if n == |understood| {
      assert understood[..n] == understood;
    } else {
      assert understood[..|understood| - 1][..n] == understood[..n];
      RecordedGrows(records, understood[..|understood| - 1], n, minting, made);
    }
    if !minting {
      RecordedWithoutMinting(records, understood, made);
    }
  }

  lemma {:induction false} RecordedWithoutMinting(records: Records, understood: seq<Request>, made: string -> Facts)
    ensures Recorded(records, understood, false, made) == records
  {
    if understood != [] {
      RecordedWithoutMinting(records, understood[..|understood| - 1], made);
    }
  }

  /** Exactly what is asked for is recorded, where minting is open, and nothing without it. */
  lemma {:induction false} RecordedExactly(records: Records, understood: seq<Request>, minting: bool,
                                           made: string -> Facts)
    ensures var all := Recorded(records, understood, minting, made);
      && (forall name :: name in all <==>
           name in records || (minting && exists i :: 0 <= i < |understood| && understood[i].name == name))
      && (forall name | name in records :: all[name] == records[name])
  {
    if understood != [] {
      RecordedExactly(records, understood[..|understood| - 1], minting, made);
    }
  }

  /** An entry for each request that has a record, in the requests' order, and each as its record is. */
  lemma EntriesDisplay(understood: seq<Request>, records: Records)
    ensures forall e :: e in EntriesOf(understood, records) <==>
      exists i :: 0 <= i < |understood| && understood[i].name in records
        && Displays(e, understood[i], records[understood[i].name])
  {
    forall e
      ensures e in EntriesOf(understood, records) <==>
        exists i :: 0 <= i < |understood| && understood[i].name in records
          && Displays(e, understood[i], records[understood[i].name])
    {
      EntriesExactly(understood, records, e);
      forall i | 0 <= i < |understood| && understood[i].name in records
        ensures Displays(e, understood[i], records[understood[i].name])
          <==> e == EntryOf(understood[i], records[understood[i].name])
      {
        EntryDisplays(e, understood[i], records[understood[i].name]);
      }
    }
  }

  lemma {:induction false} EntriesExactly(understood: seq<Request>, records: Records, e: Entry)
    ensures e in EntriesOf(understood, records) <==>
      exists i :: 0 <= i < |understood| && understood[i].name in records
        && e == EntryOf(understood[i], records[understood[i].name])
  {
    if understood != [] {
      EntriesExactly(understood[..|understood| - 1], records, e);
    }
  }

  /******* Several operators on one object *******/

  /** Every entry of this operator's is one it was asked for, or whose key cannot be read. */
  ghost predicate InStep(annotations: Annotations, live: Live, operator: NamespacedName) {
    forall p | Owns(live, operator, p) ::
      || (exists name :: AsksFor(annotations, operator, name) && Request(operator, name).ToString() == p)
      || Holds(annotations, IdentityNameOf(operator, p))
  }

  /** A pass that ends well leaves its operator in step. */
  lemma PassIsInStep(operators: set<NamespacedName>, before: Live, after: Live, annotations: Annotations,
                     requested: Requested, operator: NamespacedName, records: Records)
    requires Reads(annotations, operator, requested) && Shows(operators, before, after, requested, operator, records)
    ensures InStep(annotations, after, operator)
  {
    forall p | Owns(after, operator, p)
      ensures (exists name :: AsksFor(annotations, operator, name) && Request(operator, name).ToString() == p)
              || Holds(annotations, IdentityNameOf(operator, p))
    {
      var e := after[p].value;
      assert e.profile == p && IsWanted(requested, operator, records, before, e);
      if IsAsked(requested, records, e) {
        var r :| r in requested.understood && r.name in records && e == EntryOf(r, records[r.name]);
        LettingGoIsExact(annotations, operator, requested, r.name);
        assert r == Request(operator, r.name);
      } else {
        LettingGoIsExact(annotations, operator, requested, IdentityNameOf(operator, p));
      }
    }
  }

  /** Two operators cannot both have a claim to one profile under one set of annotations. */
  lemma OneClaimant(annotations: Annotations, r: Request, other: NamespacedName, p: string)
    requires Asked(annotations, r) && r.ToString() == p && r.operator != other
    requires p == other.ToString() || '/' !in p
    ensures !(exists name :: AsksFor(annotations, other, name) && Request(other, name).ToString() == p)
    ensures !Holds(annotations, IdentityNameOf(other, p))
  {
    ReadKeyOf(r.name, annotations[AnnotationFor(r.name)]);
    NamedHoldsNoSlash(annotations, r);
    assert other.ToString()[|other.namespace|] == '/';
    if name :| AsksFor(annotations, other, name) && Request(other, name).ToString() == p {
      ReadKeyOf(name, annotations[AnnotationFor(name)]);
      ProfilesNeverCollide(annotations, r, Request(other, name));
    }
  }

  /**
   Once every other operator has passed over these annotations, nobody's entry is in anybody's way: the
   next pass of this one is not refused, whatever the object held before.
   */
  lemma NothingContestedInStep(operators: set<NamespacedName>, live: Live, annotations: Annotations,
                               requested: Requested, operator: NamespacedName, records: Records)
    requires Apart(operators) && operator in operators && Faithful(operators, live)
    requires Reads(annotations, operator, requested)
    requires forall o | o in operators && o != operator :: InStep(annotations, live, o)
    ensures !Contested(live, requested, operator, records)
  {
    if e :| IsWanted(requested, operator, records, live, e) && e.profile in live && !Owns(live, operator, e.profile) {
      MineAreOwned(operators, live, operator);
      var r :| r in requested.understood && r.name in records && e == EntryOf(r, records[r.name]);
      var other :| other in operators && live[e.profile].owners == {other}
        && live[e.profile].value.operator == other.ToString();
      assert Owns(live, other, e.profile) && InStep(annotations, live, other);
      OneClaimant(annotations, r, other, e.profile);
    }
  }
}

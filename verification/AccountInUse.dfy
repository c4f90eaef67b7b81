/**
 The one slot saying which Databricks account the operator acts in
 (internal/databricks/account_in_use.go:81-183; internal/controller/databricksaccount_controller.go:256-312).
 */
module AccountInUse {
  import opened Options

  /** A declaration, as clients are built from it. */
  datatype Config = Config(host: string, accountId: string, clientId: string)

  const NO_CONFIG := Config("", "", "")

  /** What a caller holds: clients that act in one account, or a stand-in that only says why there are none. */
  datatype Clients = Installed(config: Config) | Unconfigured(reason: string) {
    function AccountId(): string {
      if Installed? then config.accountId else ""
    }
  }

  datatype Slot = Slot(clients: Option<Clients>, builtFrom: Config, reason: string)

  /** What is installed was built from the declaration remembered beside it. */
  predicate Agrees(slot: Slot) {
    slot.clients.Some? ==> slot.clients.value == Installed(slot.builtFrom)
  }

  class AccountInUse {
    var clients: Option<Clients>
    var builtFrom: Config
    var reason: string

    constructor ()
      ensures Value() == Slot(None, NO_CONFIG, "")
    {
      clients, builtFrom, reason := None, NO_CONFIG, "";
    }

    function Value(): Slot
      reads this
    {
      Slot(clients, builtFrom, reason)
    }

    method Set(from: Config, clients: Clients)
      modifies this
      ensures Value() == Slot(Some(clients), from, "")
    {
      this.clients := Some(clients);
      this.builtFrom := from;
      this.reason := "";
    }

    method Clear(why: string)
      modifies this
      ensures Value() == Slot(None, NO_CONFIG, why)
    {
      clients := None;
      builtFrom := NO_CONFIG;
      reason := why;
    }

    method BuiltFrom() returns (from: Config, holding: bool)
      ensures from == builtFrom && (holding <==> clients.Some?)
    {
      return builtFrom, clients.Some?;
    }

    /** Total: with nothing installed there is still one thing to hold. */
    method Snapshot() returns (c: Clients)
      ensures c == if clients.Some? then clients.value else Unconfigured(reason)
    {
      if clients.None? {
        return Unconfigured(reason);
      }
      return clients.value;
    }
  }

  /** What a pass over one declaration makes of the slot, by whether it could build and verify the clients. */
  function Passed(slot: Slot, config: Config, works: bool, why: string): Slot {
    if works then Slot(Some(Installed(config)), config, "")
    else if slot.clients.Some? && slot.builtFrom != config then Slot(None, NO_CONFIG, why)
    else slot
  }

  /**
   Withdrawn before a changed declaration is tried, and installed only once it is verified. Nobody else
   writes the slot while this runs; anybody may read it.
   */
  method InstallClients(slot: AccountInUse, config: Config, builds: bool, verifies: bool, why: string)
    returns (err: bool)
    modifies slot
    ensures slot.Value() == Passed(old(slot.Value()), config, builds && verifies, why)
    ensures err <==> !(builds && verifies)
  {
    var installed, holding := slot.BuiltFrom();
    if holding && installed != config {
      slot.Clear(why);
    }
    if !builds {
      return true;
    }
    if !verifies {
      return true;
    }
    slot.Set(config, Installed(config));
    return false;
  }

  datatype Pass = Pass(config: Config, works: bool, why: string)

  function PassedAll(slot: Slot, passes: seq<Pass>): Slot {
    if passes == [] then slot
    else
      var last := passes[|passes| - 1];
      Passed(PassedAll(slot, passes[..|passes| - 1]), last.config, last.works, last.why)
  }

  /** Some pass installed this declaration's clients, and no pass since has read another declaration. */
  predicate StillDeclared(passes: seq<Pass>, config: Config) {
    exists i :: 0 <= i < |passes| && passes[i].works && forall j | i <= j < |passes| :: passes[j].config == config
  }

  /**
   After any passes, something is installed exactly when it was verified since the declaration last
   changed, and it was built from the declaration just read. One that fails and has not changed withdraws
   nothing.
   */
  lemma {:induction false} InstalledIsWhatWasJustRead(passes: seq<Pass>)
    requires passes != []
    ensures var slot, last := PassedAll(Slot(None, NO_CONFIG, ""), passes), passes[|passes| - 1];
      && Agrees(slot)
      && (slot.clients.Some? <==> StillDeclared(passes, last.config))
      && (slot.clients.Some? ==> slot.clients.value == Installed(last.config))
  {
    var before, last := passes[..|passes| - 1], passes[|passes| - 1];
    if before != [] {
      InstalledIsWhatWasJustRead(before);
      var slot := PassedAll(Slot(None, NO_CONFIG, ""), before);
      if !last.works && slot.clients.Some? && slot.builtFrom == last.config {
        var i :| 0 <= i < |before| && before[i].works && forall j | i <= j < |before| ::
          before[j].config == last.config;
        assert passes[i].works && forall j | i <= j < |passes| :: passes[j].config == last.config;
      }
      if !last.works && StillDeclared(passes, last.config) {
        var i :| 0 <= i < |passes| && passes[i].works && forall j | i <= j < |passes| ::
          passes[j].config == last.config;
        assert i < |before| && before[i].works && before[|before| - 1].config == last.config;
        assert forall j | i <= j < |before| :: before[j] == passes[j];
      }
    }
    if last.works {
      assert passes[|passes| - 1].works;
    }
  }

  /******* One account per pass *******/

  /** A service principal in one account: its marker, and the audience its policy trusts once there is one. */
  datatype Principal = Principal(marker: string, audience: Option<string>)

  type Cloud = map<string, map<nat, Principal>>

  function InAccount(cloud: Cloud, accountId: string): map<nat, Principal> {
    if accountId in cloud then cloud[accountId] else map[]
  }

  predicate HasMarked(principals: map<nat, Principal>, marker: string) {
    exists k | k in principals :: principals[k].marker == marker
  }

  /** Nothing anywhere but in this account is other than it was, and without an account nothing is. */
  ghost predicate OnlyIn(before: Cloud, after: Cloud, accountId: string) {
    && (forall a | a != accountId :: (a in after <==> a in before) && (a in before ==> after[a] == before[a]))
    && (accountId == "" ==> after == before)
  }

  /** Databricks as its clients reach it: whichever account they were built for, and no other. */
  class Databricks {
    var cloud: Cloud
    var next: nat

    constructor (cloud: Cloud, next: nat)
      ensures this.cloud == cloud && this.next == next
    {
      this.cloud, this.next := cloud, next;
    }

    method Create(clients: Clients, marker: string) returns (id: Option<nat>)
      modifies this
      ensures OnlyIn(old(cloud), cloud, clients.AccountId())
      ensures id.Some? ==>
        id.value == old(next) && clients.AccountId() != ""
        && InAccount(cloud, clients.AccountId())
             == InAccount(old(cloud), clients.AccountId())[id.value := Principal(marker, None)]
      ensures id.None? <==> clients.AccountId() == ""
      ensures id.None? ==> cloud == old(cloud)
      ensures next >= old(next)
    {
      if clients.AccountId() == "" {
        return None;
      }
      id := Some(next);
      cloud := cloud[clients.AccountId() := InAccount(cloud, clients.AccountId())[next := Principal(marker, None)]];
      next := next + 1;
    }

    method Find(clients: Clients, marker: string) returns (id: Option<nat>)
      ensures id.Some? ==>
        clients.AccountId() != "" && id.value in InAccount(cloud, clients.AccountId())
        && InAccount(cloud, clients.AccountId())[id.value].marker == marker
      ensures id.None? <==> clients.AccountId() == "" || !HasMarked(InAccount(cloud, clients.AccountId()), marker)
    {
      if clients.AccountId() == "" {
        return None;
      }
      var here := InAccount(cloud, clients.AccountId());
      id := None;
      var todo := here.Keys;
      while todo != {}
        invariant id.Some? ==> id.value in here && here[id.value].marker == marker
        invariant id.None? ==> forall k | k in here && here[k].marker == marker :: k in todo
        decreases |todo|
      {
        var candidate :| candidate in todo;
        todo := todo - {candidate};
        if candidate in here && here[candidate].marker == marker {
          id := Some(candidate);
        }
      }
    }

    /** None is an error, and a stand-in answers nothing else. */
    method Exists(clients: Clients, id: nat) returns (there: Option<bool>)
      ensures there == if clients.AccountId() == "" then None else Some(id in InAccount(cloud, clients.AccountId()))
    {
      if clients.AccountId() == "" {
        return None;
      }
      return Some(id in InAccount(cloud, clients.AccountId()));
    }

    method EnsurePolicy(clients: Clients, id: nat, audience: string) returns (err: bool)
      modifies this`cloud
      ensures OnlyIn(old(cloud), cloud, clients.AccountId())
      ensures InAccount(cloud, clients.AccountId()).Keys == InAccount(old(cloud), clients.AccountId()).Keys
      ensures forall k | k in InAccount(cloud, clients.AccountId()) ::
        InAccount(cloud, clients.AccountId())[k].marker == InAccount(old(cloud), clients.AccountId())[k].marker
      ensures !err ==>
        id in InAccount(cloud, clients.AccountId())
        && InAccount(cloud, clients.AccountId())[id].audience == Some(audience)
      ensures err ==> clients.AccountId() == "" || id !in InAccount(old(cloud), clients.AccountId())
    {
      var here := InAccount(cloud, clients.AccountId());
      if clients.AccountId() == "" || id !in here {
        return true;
      }
      cloud := cloud[clients.AccountId() := here[id := here[id].(audience := Some(audience))]];
      return false;
    }

    method Delete(clients: Clients, id: nat) returns (err: bool)
      modifies this`cloud
      ensures OnlyIn(old(cloud), cloud, clients.AccountId())
      ensures !err ==> InAccount(cloud, clients.AccountId()) == InAccount(old(cloud), clients.AccountId()) - {id}
      ensures err <==> clients.AccountId() == ""
      ensures err ==> cloud == old(cloud)
    {
      if clients.AccountId() == "" {
        return true;
      }
      cloud := cloud[clients.AccountId() := InAccount(cloud, clients.AccountId()) - {id}];
      return false;
    }
  }

  /** What a pass writes of where its service principal is. */
  class RecordObject {
    var accountId: string
    var sent: bool
    var id: Option<nat>
    var removed: bool

    constructor (accountId: string, sent: bool, id: Option<nat>, removed: bool)
      ensures this.accountId == accountId && this.sent == sent && this.id == id && this.removed == removed
    {
      this.accountId, this.sent, this.id, this.removed := accountId, sent, id, removed;
    }

    /** The id is one that was made in the account the record names, under its marker. */
    predicate IsPlaced(cloud: Cloud, marker: string)
      reads this
    {
      id.Some? && !removed ==>
        accountId != "" && id.value in InAccount(cloud, accountId)
          && InAccount(cloud, accountId)[id.value].marker == marker
    }
  }

  /** Somebody sets and clears the slot, any number of times. */
  method Interfere(slot: AccountInUse)
    modifies slot
  {
    var changes: nat :| 0 <= changes;
    for i := 0 to changes {
      var sets: bool, config: Config := *, *;
      if sets {
        slot.Set(config, Installed(config));
      } else {
        slot.Clear("");
      }
    }
  }

  /** The account a pass that starts now acts in. */
  function AccountOf(slot: Slot): string {
    if slot.clients.Some? then slot.clients.value.AccountId() else ""
  }

  /**
   Building, with the slot set and cleared before every call. Whatever it is set to meanwhile, nothing
   changes but in the account it held at the start, and an id the pass writes down is one that is in the
   account the pass writes beside it. A record placed where this pass acts stays placed.
   */
  method ConvergePass(slot: AccountInUse, databricks: Databricks, record: RecordObject, marker: string,
                      audience: string)
    returns (err: bool)
    modifies slot, databricks, record
    ensures var here := AccountOf(old(slot.Value()));
      && OnlyIn(old(databricks.cloud), databricks.cloud, here)
      && (record.id != old(record.id) ==> old(record.id).None? && record.accountId == here)
      && (record.removed != old(record.removed) ==>
           record.id.Some? && record.id.value !in InAccount(databricks.cloud, here))
      && (old(record.IsPlaced(databricks.cloud, marker)) && (old(record.accountId) == here || old(record.id).None?) ==>
           record.IsPlaced(databricks.cloud, marker))
      && (err <==>
           !old(record.removed)
           && (here == "" || (old(record.id).None? && old(record.sent)
                              && !HasMarked(InAccount(old(databricks.cloud), here), marker))))
      && (!err && !record.removed ==>
           record.id.Some? && record.id.value in InAccount(databricks.cloud, here)
           && InAccount(databricks.cloud, here)[record.id.value].audience == Some(audience))
  {
    var clients := slot.Snapshot();
    if record.removed {
      return false;
    }
    Interfere(slot);
    if record.id.Some? {
      var there := databricks.Exists(clients, record.id.value);
      if there.None? {
        return true;
      }
      if !there.value {
        record.removed := true;
        return false;
      }
    } else {
      var made: Option<nat>;
      if record.sent {
        made := databricks.Find(clients, marker);
      } else {
        if clients.AccountId() != "" && record.accountId == "" {
          record.accountId := clients.AccountId();
        }
        record.sent := true;
        Interfere(slot);
        made := databricks.Create(clients, marker);
      }
      if made.None? {
        return true;
      }
      record.id := made;
      if clients.AccountId() != "" {
        record.accountId := clients.AccountId();
      }
    }
    Interfere(slot);
    err := databricks.EnsurePolicy(clients, record.id.value, audience);
  }

  /** Destroying likewise: what is deleted is deleted in the account the slot held at the start. */
  method DestroyPass(slot: AccountInUse, databricks: Databricks, record: RecordObject, marker: string)
    returns (err: bool)
    modifies slot, databricks
    ensures var here := AccountOf(old(slot.Value()));
      && OnlyIn(old(databricks.cloud), databricks.cloud, here)
      && (!err && !record.removed && record.id.Some? ==> record.id.value !in InAccount(databricks.cloud, here))
      && (forall k | k in InAccount(old(databricks.cloud), here) && k !in InAccount(databricks.cloud, here) ::
           record.id == Some(k) || (record.id.None? && InAccount(old(databricks.cloud), here)[k].marker == marker))
      && (err <==>
           !record.removed && (record.id.Some? || record.sent)
           && (here == "" || (record.id.None? && !HasMarked(InAccount(old(databricks.cloud), here), marker))))
      && (err || record.removed || (record.id.None? && !record.sent) ==> databricks.cloud == old(databricks.cloud))
      && (!err && !record.removed && record.id.None? && record.sent ==>
           exists k | k in InAccount(old(databricks.cloud), here) :: k !in InAccount(databricks.cloud, here))
  {
    var clients := slot.Snapshot();
    Interfere(slot);
    var id := record.id;
    if record.removed {
      return false;
    }
    if id.None? && record.sent {
      id := databricks.Find(clients, marker);
      if id.None? {
        return true;
      }
    }
    if id.None? {
      return false;
    }
    Interfere(slot);
    err := databricks.Delete(clients, id.value);
  }
}

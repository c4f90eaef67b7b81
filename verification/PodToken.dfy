/**
 Giving a pod its tokens, and the configuration that names them
 (internal/webhook/podtoken.go:153-359).
 */
module PodToken {
  import opened Names
  import opened Options
  import opened Pods
  import opened Profiles
  import opened PodEquipment

  const ENV_CONFIG_FILE := "WORKLOAD_IDENTITY_DATABRICKS_CONFIG_FILE"
  const ENV_CONFIG_PROFILE := "WORKLOAD_IDENTITY_DATABRICKS_CONFIG_PROFILE"
  const CONFIG_PATH := "/var/run/secrets/databricks/config"
  const TOKEN_EXPIRATION_SECONDS := 3600

  /** The downwardAPI projection of the annotation the configuration is in. */
  const CONFIG_FIELD_PATH := "metadata.annotations['" + CONFIG_ANNOTATION + "']"

  const CONFIG_SOURCE := DownwardAPI([Item(CONFIG_FILE, CONFIG_FIELD_PATH)])

  class ContainerObject {
    var mounts: seq<Mount>
    var env: seq<Variable>

    constructor (c: Container)
      ensures Value() == c
    {
      mounts, env := c.mounts, c.env;
    }

    function Value(): Container
      reads this
    {
      Container(mounts, env)
    }
  }

  class PodObject {
    const meta: Pod
    const initContainers: seq<ContainerObject>
    const containers: seq<ContainerObject>
    var annotations: map<string, string>
    var volumes: seq<Volume>

    constructor (meta: Pod, initContainers: seq<ContainerObject>, containers: seq<ContainerObject>)
      ensures this.meta == meta && this.initContainers == initContainers && this.containers == containers
      ensures annotations == meta.annotations && volumes == meta.volumes
    {
      this.meta, this.initContainers, this.containers := meta, initContainers, containers;
      annotations, volumes := meta.annotations, meta.volumes;
    }

    function All(): seq<ContainerObject> {
      initContainers + containers
    }

    /** Two containers of a pod are two objects. */
    ghost predicate Valid() {
      forall i, j | 0 <= i < j < |All()| :: All()[i] != All()[j]
    }

    /** The pod as a value, but for its containers. */
    function Value(): Pod
      reads this
    {
      meta.(annotations := annotations, volumes := volumes, initContainers := [], containers := [])
    }
  }

  /******* One container *******/

  predicate Sets(env: seq<Variable>, name: string) {
    exists i :: 0 <= i < |env| && env[i].name == name
  }

  function WithVariable(env: seq<Variable>, name: string, value: string): seq<Variable> {
    if Sets(env, name) then env else env + [Variable(name, value)]
  }

  predicate MountsAt(mounts: seq<Mount>, path: string) {
    exists i :: 0 <= i < |mounts| && mounts[i].path == path
  }

  function Equipped(c: Container, profile: string): Container {
    if MountsAt(c.mounts, TOKEN_MOUNT_PATH) then c
    else Container(c.mounts + [Mount(TOKEN_VOLUME, TOKEN_MOUNT_PATH, true)],
                   WithVariable(WithVariable(c.env, ENV_CONFIG_FILE, CONFIG_PATH), ENV_CONFIG_PROFILE, profile))
  }

  method SetEnv(container: ContainerObject, name: string, value: string)
    modifies container`env
    ensures container.env == WithVariable(old(container.env), name, value)
  {
    for i := 0 to |container.env|
      invariant container.env == old(container.env)
      invariant forall j | 0 <= j < i :: container.env[j].name != name
    {
      if container.env[i].name == name {
        return;
      }
    }
    container.env := container.env + [Variable(name, value)];
  }

  method HasMountPath(mounts: seq<Mount>, at: string) returns (has: bool)
    ensures has <==> MountsAt(mounts, at)
  {
    for i := 0 to |mounts|
      invariant forall j | 0 <= j < i :: mounts[j].path != at
    {
      if mounts[i].path == at {
        return true;
      }
    }
    has := false;
  }

  /** Left alone entirely when something else is already at this path. */
  method Equip(container: ContainerObject, defaultProfile: string)
    modifies container
    ensures container.Value() == Equipped(old(container.Value()), defaultProfile)
  {
    var taken := HasMountPath(container.mounts, TOKEN_MOUNT_PATH);
    if taken {
      return;
    }
    container.mounts := container.mounts + [Mount(TOKEN_VOLUME, TOKEN_MOUNT_PATH, true)];
    SetEnv(container, ENV_CONFIG_FILE, CONFIG_PATH);
    SetEnv(container, ENV_CONFIG_PROFILE, defaultProfile);
  }

  predicate PathsAreUnique(mounts: seq<Mount>) {
    forall i, j | 0 <= i < j < |mounts| :: mounts[i].path != mounts[j].path
  }

  /**
   What was in a container stays, first and in order; a pod the API server would take is still one it
   takes; and what is added is one mount and the variables that were not set.
   */
  lemma EquippedKeeps(c: Container, profile: string)
    ensures var e := Equipped(c, profile);
      && c.mounts <= e.mounts && c.env <= e.env
      && (PathsAreUnique(c.mounts) ==> PathsAreUnique(e.mounts))
      && MountsAt(e.mounts, TOKEN_MOUNT_PATH)
      && (forall v | v in e.env && v !in c.env :: !Sets(c.env, v.name)
           && (v == Variable(ENV_CONFIG_FILE, CONFIG_PATH) || v == Variable(ENV_CONFIG_PROFILE, profile)))
      && (MountsAt(c.mounts, TOKEN_MOUNT_PATH) ==> e == c)
      && (!MountsAt(c.mounts, TOKEN_MOUNT_PATH) ==> Sets(e.env, ENV_CONFIG_FILE) && Sets(e.env, ENV_CONFIG_PROFILE))
  {
    if !MountsAt(c.mounts, TOKEN_MOUNT_PATH) {
      var e := Equipped(c, profile);
      assert e.mounts[|c.mounts|].path == TOKEN_MOUNT_PATH;
      AddedVariable(c.env, ENV_CONFIG_FILE, CONFIG_PATH);
      AddedVariable(WithVariable(c.env, ENV_CONFIG_FILE, CONFIG_PATH), ENV_CONFIG_PROFILE, profile);
    }
  }

  lemma AddedVariable(env: seq<Variable>, name: string, value: string)
    ensures env <= WithVariable(env, name, value) && Sets(WithVariable(env, name, value), name)
    ensures forall v | v in WithVariable(env, name, value) && v !in env ::
      v == Variable(name, value) && !Sets(env, name)
    ensures forall n | Sets(env, n) :: Sets(WithVariable(env, name, value), n)
  {
    var more := WithVariable(env, name, value);
    assert more[|more| - 1] == more[|more| - 1];
    if !Sets(env, name) {
      assert more[|env|].name == name;
    }
    forall n | Sets(env, n)
      ensures Sets(more, n)
    {
      var i :| 0 <= i < |env| && env[i].name == n;
      assert more[i] == env[i];
    }
  }

  /******* The pod *******/

  predicate HasVolumeNamed(volumes: seq<Volume>, name: string) {
    exists i :: 0 <= i < |volumes| && volumes[i].name == name
  }

  function TokenSources(identities: seq<Identity>): seq<Source> {
    seq(|identities|, i requires 0 <= i < |identities| =>
      ServiceAccountToken(Token(TokenProjectionPathFor(identities[i].profile), identities[i].audience,
                                TOKEN_EXPIRATION_SECONDS)))
  }

  function TokenVolumeOf(identities: seq<Identity>): Volume {
    Volume(TOKEN_VOLUME, Some(TokenSources(identities) + [CONFIG_SOURCE]), "")
  }

  function WithConfig(annotations: map<string, string>, config: string): map<string, string> {
    if CONFIG_ANNOTATION in annotations then annotations else annotations[CONFIG_ANNOTATION := config]
  }

  /** The pod an injection makes of one without the volume, but for its containers. */
  function Injected(pod: Pod, identities: seq<Identity>): Pod {
    pod.(volumes := pod.volumes + [TokenVolumeOf(identities)],
         annotations := WithConfig(pod.annotations, Rendered(identities)))
  }

  /** Every annotation and volume that was there stays as it was, the configuration's own included. */
  lemma InjectedKeeps(pod: Pod, identities: seq<Identity>)
    ensures var injected := Injected(pod, identities);
      && (forall k | k in pod.annotations :: k in injected.annotations && injected.annotations[k] == pod.annotations[k])
      && injected.annotations.Keys == pod.annotations.Keys + {"databricks.workload-identity.io/config"}
      && |injected.volumes| == |pod.volumes| + 1 && pod.volumes <= injected.volumes
      && injected.(volumes := pod.volumes, annotations := pod.annotations) == pod
  {
    assert CONFIG_ANNOTATION == "databricks.workload-identity.io/config";
  }

  method HasVolume(volumes: seq<Volume>, name: string) returns (has: bool)
    ensures has <==> HasVolumeNamed(volumes, name)
  {
    for i := 0 to |volumes|
      invariant forall j | 0 <= j < i :: volumes[j].name != name
    {
      if volumes[i].name == name {
        return true;
      }
    }
    has := false;
  }

  method EquipAll(containers: seq<ContainerObject>, profile: string)
    requires forall i, j | 0 <= i < j < |containers| :: containers[i] != containers[j]
    modifies containers
    ensures forall i | 0 <= i < |containers| :: containers[i].Value() == Equipped(old(containers[i].Value()), profile)
  {
    for i := 0 to |containers|
      invariant forall j | 0 <= j < i :: containers[j].Value() == Equipped(old(containers[j].Value()), profile)
      invariant forall j | i <= j < |containers| :: containers[j].Value() == old(containers[j].Value())
    {
      Equip(containers[i], profile);
    }
  }

  /** Adds what is missing and changes nothing that is already there. */
  method Inject(pod: PodObject, identities: seq<Identity>)
    requires pod.Valid() && identities != []
    modifies pod, pod.All()
    ensures HasVolumeNamed(old(pod.volumes), TOKEN_VOLUME) ==>
      pod.Value() == old(pod.Value()) && forall c | c in pod.All() :: c.Value() == old(c.Value())
    ensures !HasVolumeNamed(old(pod.volumes), TOKEN_VOLUME) ==>
      && pod.Value() == Injected(old(pod.Value()), identities)
      && forall c | c in pod.All() :: c.Value() == Equipped(old(c.Value()), identities[0].profile)
  {
    var taken := HasVolume(pod.volumes, TOKEN_VOLUME);
    if taken {
      return;
    }
    var sources: seq<Source> := [];
    for i := 0 to |identities|
      invariant sources == TokenSources(identities[..i])
    {
      var identity := identities[i];
      sources := sources + [ServiceAccountToken(Token(TokenProjectionPathFor(identity.profile), identity.audience,
                                                      TOKEN_EXPIRATION_SECONDS))];
    }
    assert identities[..|identities|] == identities;
    var config := Profiles.Profiles(identities);
    if CONFIG_ANNOTATION !in pod.annotations {
      pod.annotations := pod.annotations[CONFIG_ANNOTATION := config];
    }
    sources := sources + [CONFIG_SOURCE];
    pod.volumes := pod.volumes + [Volume(TOKEN_VOLUME, Some(sources), "")];
    assert forall i | 0 <= i < |pod.initContainers| :: pod.All()[i] == pod.initContainers[i];
    assert forall i | 0 <= i < |pod.containers| :: pod.All()[|pod.initContainers| + i] == pod.containers[i];
    EquipAll(pod.initContainers, identities[0].profile);
    EquipAll(pod.containers, identities[0].profile);
  }

  function IssuedTo(found: Option<seq<Identity>>): seq<Identity> {
    if found.None? then [] else Usables(found.value)
  }

  /** An error is a request that is not a pod, or a pod that could not be written out again. */
  datatype Response = BadRequest | Admitted | Patched | ServerError

  /** The pod is admitted whatever was found. A get answers nothing where there is no object, or it was not read. */
  method Handle(pod: PodObject, decodes: bool, namespace: string, get: NamespacedName -> Option<seq<Identity>>,
                encodes: bool)
    returns (response: Response)
    requires pod.Valid()
    modifies pod, pod.All()
    ensures var subject := NamespacedName(if namespace != "" then namespace else pod.meta.namespace,
                                          if pod.meta.serviceAccountName == "" then "default"
                                          else pod.meta.serviceAccountName);
      var usable := IssuedTo(get(subject));
      && (response == BadRequest <==> !decodes)
      && (response == Admitted <==> decodes && usable == [])
      && (response == Patched <==> decodes && usable != [] && encodes)
      && (response == BadRequest || response == Admitted || HasVolumeNamed(old(pod.volumes), TOKEN_VOLUME) ==>
           pod.Value() == old(pod.Value()) && forall c | c in pod.All() :: c.Value() == old(c.Value()))
      && (response == Patched && !HasVolumeNamed(old(pod.volumes), TOKEN_VOLUME) ==>
           && pod.Value() == Injected(old(pod.Value()), usable)
           && forall c | c in pod.All() :: c.Value() == Equipped(old(c.Value()), usable[0].profile))
  {
    if !decodes {
      return BadRequest;
    }
    var found := get(NamespacedName(if namespace != ""
      then namespace else pod.meta.namespace, ServiceAccountOf(pod.meta)));
    if found.None? {
      return Admitted;
    }
    var ready: seq<Identity> := [];
    for i := 0 to |found.value|
      invariant ready == Usables(found.value[..i])
    {
      assert found.value[..i + 1][..i] == found.value[..i];
      if found.value[i].Usable() {
        ready := ready + [found.value[i]];
      }
    }
    assert found.value[..|found.value|] == found.value;
    if ready == [] {
      return Admitted;
    }
    Inject(pod, ready);
    return if encodes then Patched else ServerError;
  }

  /******* The injector and the checker agree *******/

  ghost predicate ProfilesAreLegal(identities: seq<Identity>) {
    && (forall i | 0 <= i < |identities| :: IsProfile(identities[i].profile) && identities[i].Usable())
    && (forall i, j | 0 <= i < j < |identities| :: identities[i].profile != identities[j].profile)
  }


  lemma {:induction false} NoTokenVolume(volumes: seq<Volume>, last: Volume, path: string)
    requires !HasVolumeNamed(volumes, TOKEN_VOLUME) && last.name == TOKEN_VOLUME && last.projected.Some?
    ensures AudienceAmong(volumes + [last], path) == AudienceIn(last.projected.value, path)
  {
    if volumes == [] {
      assert volumes + [last] == [last] && [last][1..] == [];
    } else {
      assert (volumes + [last])[1..] == volumes[1..] + [last];
      assert volumes[0].name != TOKEN_VOLUME;
      forall i | 0 <= i < |volumes[1..]|
        ensures volumes[1..][i].name != TOKEN_VOLUME
      {
        assert volumes[1..][i] == volumes[i + 1];
      }
      NoTokenVolume(volumes[1..], last, path);
    }
  }

  /** Each path has its own identity's audience, and a path nobody was given has none. */
  lemma {:induction false} SourcesAnswer(identities: seq<Identity>, profile: string)
    requires ProfilesAreLegal(identities) && IsProfile(profile)
    ensures forall i | 0 <= i < |identities| && identities[i].profile == profile ::
      AudienceIn(TokenSources(identities) + [CONFIG_SOURCE], TokenProjectionPathFor(profile))
        == Some(identities[i].audience)
    ensures (forall i | 0 <= i < |identities| :: identities[i].profile != profile) ==>
      AudienceIn(TokenSources(identities) + [CONFIG_SOURCE], TokenProjectionPathFor(profile)) == None
  {
    var sources := TokenSources(identities) + [CONFIG_SOURCE];
    if identities == [] {
      assert sources == [CONFIG_SOURCE] && sources[1..] == [];
    } else {
      TokenPaths(profile, identities[0].profile);
      assert sources[1..] == TokenSources(identities[1..]) + [CONFIG_SOURCE];
      SourcesAnswer(identities[1..], profile);
      forall i | 0 < i < |identities| && identities[i].profile == profile
        ensures identities[1..][i - 1] == identities[i]
      {
      }
    }
  }

  lemma {:induction false} ListedIsRendered(identities: seq<Identity>, entry: Identity)
    requires entry in identities && entry.Usable()
    ensures Contains(Rendered(identities), Block(entry))
  {
    var before, last := identities[..|identities| - 1], identities[|identities| - 1];
    assert identities == before + [last];
    if last.Usable() {
      OneMoreBlock(Blocks(before), Block(last));
      var head := if Rendered(before) != "" then Rendered(before) + "\n" else Rendered(before);
      assert Rendered(identities) == head + Block(last);
      if entry in before {
        ListedIsRendered(before, entry);
        if Rendered(before) != "" {
          ContainsMore(Rendered(before), "\n", Block(entry));
        }
        ContainsMore(head, Block(last), Block(entry));
      } else {
        BeginsTheLast(head, Block(last), Block(entry));
      }
    } else {
      ListedIsRendered(before, entry);
    }
  }

  /**
   A pod equipped with these identities, and then cut down by the cache, carries each one's token with its
   own audience and describes it; so the check finds nothing wrong with it for any of them, and finds no
   token for any other.
   */
  lemma InjectorAndCheckerAgree(pod: Pod, identities: seq<Identity>, serviceAccount: string, entry: Identity)
    requires ProfilesAreLegal(identities) && IsProfile(entry.profile)
    requires !HasVolumeNamed(pod.volumes, TOKEN_VOLUME) && CONFIG_ANNOTATION !in pod.annotations
    ensures var kind := ClassOf(TrimmedOf(Injected(pod, identities)), serviceAccount, entry);
      && (kind == Skipped <==> ClassOf(pod, serviceAccount, entry) == Skipped)
      && (entry in identities ==> kind == Fine || kind == Skipped)
      && ((forall i | i in identities :: i.profile != entry.profile) ==> kind == NoToken || kind == Skipped)
  {
    hide TokenProjectionPathFor, TrimmedOf, Block, IsProfile;
    var path := TokenProjectionPathFor(entry.profile);
    TrimKeepsTheAnswer(Injected(pod, identities), serviceAccount, entry);
    NoTokenVolume(pod.volumes, TokenVolumeOf(identities), path);
    SourcesAnswer(identities, entry.profile);
    if entry in identities {
      var i :| 0 <= i < |identities| && identities[i] == entry;
      ListedIsRendered(identities, entry);
      AloneIsItsSection(entry);
    }
  }

  /**
   A pod equipped with an earlier list and asked about when the entry may say something else: no token where the
   list had none of this profile, the wrong audience where the list's differs, and stale where the entry
   cannot be used any more or its client id is another. There is nothing else to find.
   */
  lemma ClassedExactly(pod: Pod, earlier: seq<Identity>, serviceAccount: string, entry: Identity)
    requires ProfilesAreLegal(earlier) && IsProfile(entry.profile)
    requires IsClear(entry) && forall i | i in earlier :: IsClear(i)
    requires !HasVolumeNamed(pod.volumes, TOKEN_VOLUME) && CONFIG_ANNOTATION !in pod.annotations
    ensures var kind := ClassOf(Injected(pod, earlier), serviceAccount, entry);
      if (if pod.serviceAccountName == "" then "default" else pod.serviceAccountName) != serviceAccount
         || pod.deleting || pod.phase == Succeeded || pod.phase == Failed
      then kind == Skipped
      else if forall i | i in earlier :: i.profile != entry.profile then kind == NoToken
      else if exists i :: i in earlier && i.profile == entry.profile && i.audience != entry.audience
      then kind == WrongAudience
      else if !entry.Usable() || exists i :: i in earlier && i.profile == entry.profile && i.clientId != entry.clientId
      then kind == Stale
      else kind == Fine
  {
    hide TokenProjectionPathFor, Block, IsProfile, Contains, Rendered, IsClear;
    NoTokenVolume(pod.volumes, TokenVolumeOf(earlier), TokenProjectionPathFor(entry.profile));
    SourcesAnswer(earlier, entry.profile);
    StalenessIsExact(earlier, entry);
    AloneIsItsSection(entry);
    if i :| i in earlier && i.profile == entry.profile {
      var k :| 0 <= k < |earlier| && earlier[k] == i;
      assert forall j | j in earlier && j.profile == entry.profile :: j == i;
    }
  }
}

/**
 What a container of an injected pod finds at the paths it is told: through its mount, in the volume of the
 mount's name, at the rest of the path (internal/webhook/podtoken.go:235-311). A projected volume whose
 files get in each other's way cannot be set up, and nothing is found in it.
 */
module PodReads {
  import opened Options
  import opened Pods
  import opened Profiles
  import opened ProfilesRead
  import opened PodEquipment
  import opened PodToken
  import Paths

  datatype Content = TokenFor(audience: string, expirationSeconds: int) | Text(text: string)

  datatype File = File(path: string, content: Content)

  /******* A projected volume *******/

  /** The annotation a downwardAPI field path names, if that is what it names. */
  function AnnotationIn(fieldPath: string): Option<string> {
    var opening, closing := "metadata.annotations['", "']";
    if opening <= fieldPath && |opening| + |closing| <= |fieldPath| && fieldPath[|fieldPath| - |closing|..] == closing
    then Some(fieldPath[|opening|..|fieldPath| - |closing|]) else None
  }

  function FieldOf(annotations: map<string, string>, fieldPath: string): string {
    match AnnotationIn(fieldPath)
    case Some(key) => if key in annotations then annotations[key] else ""
    case None => ""
  }

  function FilesOf(annotations: map<string, string>, source: Source): seq<File> {
    match source
    case ServiceAccountToken(token) => [File(token.path, TokenFor(token.audience, token.expirationSeconds))]
    case DownwardAPI(items) =>
      seq(|items|, i requires 0 <= i < |items| => File(items[i].path, Text(FieldOf(annotations, items[i].fieldPath))))
    case Other(_) => []
  }

  function AllFiles(annotations: map<string, string>, sources: seq<Source>): seq<File> {
    if sources == [] then [] else FilesOf(annotations, sources[0]) + AllFiles(annotations, sources[1..])
  }

  /** Two files in one place, or one where the other needs a directory. */
  ghost predicate Clash(files: seq<File>) {
    exists i, j :: 0 <= i < |files| && 0 <= j < |files| && i != j
      && (files[i].path == files[j].path || LiesUnder(files[i].path, files[j].path))
  }

  /******* A container *******/

  predicate Covers(mount: Mount, path: string) {
    var at := Paths.Clean(mount.path);
    at == "/" || at == path || LiesUnder(path, at)
  }

  /** The mount a path is read through: the one lying deepest on the way to it. */
  function MountFor(mounts: seq<Mount>, path: string): Option<Mount> {
    if mounts == [] then None
    else
      var before, last := MountFor(mounts[..|mounts| - 1], path), mounts[|mounts| - 1];
      if Covers(last, path) && (before.Some? ==> |Paths.Clean(before.value.path)| <= |Paths.Clean(last.path)|)
      then Some(last) else before
  }

  function VolumeNamed(volumes: seq<Volume>, name: string): Option<Volume> {
    if volumes == [] then None
    else if volumes[0].name == name then Some(volumes[0])
    else VolumeNamed(volumes[1..], name)
  }

  ghost predicate HasFile(files: seq<File>, directory: string, path: string, content: Content) {
    exists f :: f in files && directory + "/" + f.path == path && f.content == content
  }

  /** This is what a container of the pod finds at this path. */
  ghost predicate Finds(pod: Pod, c: Container, path: string, content: Content) {
    && MountFor(c.mounts, path).Some?
    && var mount := MountFor(c.mounts, path).value;
    && VolumeNamed(pod.volumes, mount.volume).Some?
    && var volume := VolumeNamed(pod.volumes, mount.volume).value;
    && volume.projected.Some?
    && var files := AllFiles(pod.annotations, volume.projected.value);
    && !Clash(files) && HasFile(files, Paths.Clean(mount.path), path, content)
  }

  /** At most one thing is found at a path. */
  lemma FindsOneThing(pod: Pod, c: Container, path: string, content: Content, other: Content)
    requires Finds(pod, c, path, content) && Finds(pod, c, path, other)
    ensures content == other
  {
    var mount := MountFor(c.mounts, path).value;
    var files := AllFiles(pod.annotations, VolumeNamed(pod.volumes, mount.volume).value.projected.value);
    var directory := Paths.Clean(mount.path);
    var f :| f in files && directory + "/" + f.path == path && f.content == content;
    var g :| g in files && directory + "/" + g.path == path && g.content == other;
    Cancels(directory + "/", f.path, g.path);
    var i :| 0 <= i < |files| && files[i] == f;
    var j :| 0 <= j < |files| && files[j] == g;
  }

  /** A mount of the container's own, where the tokens are to be or below it, lies over this path. */
  ghost predicate InTheWay(c: Container, path: string) {
    exists m :: m in c.mounts && Covers(m, path)
      && (Paths.Clean(m.path) == "/var/run/secrets/databricks"
          || LiesUnder(Paths.Clean(m.path), "/var/run/secrets/databricks"))
  }

  /******* The mount *******/

  lemma {:induction false} MountCovers(mounts: seq<Mount>, path: string)
    ensures MountFor(mounts, path).Some? ==>
      MountFor(mounts, path).value in mounts && Covers(MountFor(mounts, path).value, path)
  {
    if mounts != [] {
      MountCovers(mounts[..|mounts| - 1], path);
    }
  }

  lemma MountIsClean()
    ensures Paths.Clean(TOKEN_MOUNT_PATH) == TOKEN_MOUNT_PATH
  {
    MountParts();
    Paths.PlainIsClean(MOUNT_PARTS);
  }

  /** Of two directories on the way to a file, one that is not in the other's way is the shorter. */
  lemma ShorterIsAbove(a: string, b: string, path: string)
    requires (a == "/" || a == path || LiesUnder(path, a)) && LiesUnder(path, b) && b != ""
    requires a != b && !LiesUnder(a, b)
    ensures |a| <= |b|
  {
    var directory := b + "/";
    assert forall k | 0 <= k < |directory| :: path[k] == directory[k];
    assert a != "/" ==> forall k | 0 <= k < |a| :: path[k] == a[k];
  }

  lemma MountIsTaken(c: Container, profile: string, path: string)
    requires !MountsAt(c.mounts, TOKEN_MOUNT_PATH) && LiesUnder(path, TOKEN_MOUNT_PATH) && !InTheWay(c, path)
    ensures MountFor(Equipped(c, profile).mounts, path) == Some(Mount(TOKEN_VOLUME, TOKEN_MOUNT_PATH, true))
  {
    hide Paths.Clean;
    MountIsClean();
    MountCovers(c.mounts, path);
    var mounts := Equipped(c, profile).mounts;
    assert mounts[..|mounts| - 1] == c.mounts;
    var before := MountFor(c.mounts, path);
    if before.Some? {
      assert before.value in c.mounts && Covers(before.value, path);
      ShorterIsAbove(Paths.Clean(before.value.path), TOKEN_MOUNT_PATH, path);
    }
  }

  /******* The volume *******/

  lemma {:induction false} AddedIsFound(volumes: seq<Volume>, added: Volume)
    requires !HasVolumeNamed(volumes, added.name)
    ensures VolumeNamed(volumes + [added], added.name) == Some(added)
  {
    if volumes != [] {
      assert (volumes + [added])[1..] == volumes[1..] + [added] && volumes[0].name != added.name;
      assert forall i | 0 <= i < |volumes[1..]| :: volumes[1..][i] == volumes[i + 1];
      AddedIsFound(volumes[1..], added);
    }
  }

  lemma ConfigFieldIsTheAnnotation(annotations: map<string, string>)
    requires "databricks.workload-identity.io/config" in annotations
    ensures FieldOf(annotations, CONFIG_FIELD_PATH) == annotations["databricks.workload-identity.io/config"]
  {
    var opening, key, closing := "metadata.annotations['", "databricks.workload-identity.io/config", "']";
    var path := opening + key + closing;
    assert path == CONFIG_FIELD_PATH;
    assert path[..|opening|] == opening && path[|path| - |closing|..] == closing;
    assert path[|opening|..|path| - |closing|] == key;
  }

  /** The volume's files, token after token, and the configuration last. */
  lemma {:induction false} VolumeFiles(annotations: map<string, string>, identities: seq<Identity>)
    requires "databricks.workload-identity.io/config" in annotations
    requires forall i | i in identities :: IsProfile(i.profile)
    ensures var files := AllFiles(annotations, TokenSources(identities) + [CONFIG_SOURCE]);
      && |files| == |identities| + 1
      && files[|identities|] == File("config", Text(annotations["databricks.workload-identity.io/config"]))
      && forall k | 0 <= k < |identities| ::
           files[k] == File(identities[k].profile + "/token", TokenFor(identities[k].audience, 3600))
  {
    hide TokenProjectionPathFor, FieldOf, IsProfile, AllFiles, FilesOf;
    var sources := TokenSources(identities) + [CONFIG_SOURCE];
    if identities == [] {
      ConfigIsLast(annotations, sources);
    } else {
      assert identities[0] in identities && forall i | i in identities[1..] :: i in identities;
      VolumeFiles(annotations, identities[1..]);
      FirstFile(annotations, identities);
      var rest := AllFiles(annotations, TokenSources(identities[1..]) + [CONFIG_SOURCE]);
      var files := AllFiles(annotations, sources);
      forall k | 0 < k < |identities|
        ensures files[k] == rest[k - 1] && identities[k] == identities[1..][k - 1]
      {
      }
    }
  }

  lemma ConfigIsLast(annotations: map<string, string>, sources: seq<Source>)
    requires sources == [CONFIG_SOURCE] && "databricks.workload-identity.io/config" in annotations
    ensures AllFiles(annotations, sources) ==
      [File("config", Text(annotations["databricks.workload-identity.io/config"]))]
  {
    hide FieldOf;
    ConfigFieldIsTheAnnotation(annotations);
    assert sources[1..] == [];
  }

  lemma FirstFile(annotations: map<string, string>, identities: seq<Identity>)
    requires identities != [] && IsProfile(identities[0].profile)
    ensures AllFiles(annotations, TokenSources(identities) + [CONFIG_SOURCE]) ==
      [File(identities[0].profile + "/token", TokenFor(identities[0].audience, 3600))]
      + AllFiles(annotations, TokenSources(identities[1..]) + [CONFIG_SOURCE])
  {
    hide TokenProjectionPathFor, FieldOf, IsProfile;
    var sources := TokenSources(identities) + [CONFIG_SOURCE];
    assert sources[1..] == TokenSources(identities[1..]) + [CONFIG_SOURCE];
    TokenFileOf(identities[0].profile);
  }

  lemma TokenFileOf(profile: string)
    requires IsProfile(profile)
    ensures TokenProjectionPathFor(profile) == profile + "/token"
    ensures TokenPathFor(profile) == TOKEN_MOUNT_PATH + "/" + (profile + "/token")
  {
    hide TokenProjectionPathFor, TokenPathFor, IsProfile;
    TokenPaths(profile, profile);
    assert profile + "/" + TOKEN_FILE == profile + "/token";
  }

  /** Which of two profiles' files lie under one another, and under the configuration. */
  lemma FilesLie(profile: string, other: string)
    requires IsProfile(profile) && IsProfile(other)
    ensures LiesUnder(other + "/token", profile + "/token") <==> other == profile + "/token"
    ensures LiesUnder(profile + "/token", "config") <==> profile == "config" || "config/" <= profile
    ensures !LiesUnder("config", profile + "/token") && profile + "/token" != "config"
    ensures profile + "/token" == other + "/token" ==> profile == other
  {
    hide TokenProjectionPathFor, IsProfile, LiesUnder;
    TokenFileOf(profile);
    TokenFileOf(other);
    FilesNest(profile, other);
    TokenPaths(profile, other);
    assert profile + "/" + TOKEN_FILE == profile + "/token" && CONFIG_FILE + "/" == "config/";
  }

  /** Profiles whose files get in each other's way, or in the configuration's. */
  ghost predicate ProfilesClash(identities: seq<Identity>) {
    || (exists i :: i in identities && (i.profile == "config" || "config/" <= i.profile))
    || (exists i, j :: i in identities && j in identities && j.profile == i.profile + "/token")
  }

  lemma FilesClashIff(files: seq<File>, identities: seq<Identity>)
    requires ProfilesAreLegal(identities) && |files| == |identities| + 1 && files[|identities|].path == "config"
    requires forall k | 0 <= k < |identities| :: files[k].path == identities[k].profile + "/token"
    ensures Clash(files) <==> ProfilesClash(identities)
  {
    hide TokenProjectionPathFor, LiesUnder, IsProfile;
    var n := |identities|;
    forall i, j | 0 <= i < n && 0 <= j < n
      ensures LiesUnder(files[i].path, files[j].path) <==> identities[i].profile == identities[j].profile + "/token"
      ensures files[i].path == files[j].path ==> i == j
    {
      FilesLie(identities[j].profile, identities[i].profile);
    }
    forall i | 0 <= i < n
      ensures LiesUnder(files[i].path, "config") <==>
        identities[i].profile == "config" || "config/" <= identities[i].profile
      ensures !LiesUnder("config", files[i].path) && files[i].path != "config"
    {
      FilesLie(identities[i].profile, identities[i].profile);
    }
    if ProfilesClash(identities) {
      ClashOfFiles(files, identities);
    }
    if Clash(files) {
      ClashOfProfiles(files, identities);
    }
  }

  lemma ClashOfFiles(files: seq<File>, identities: seq<Identity>)
    requires ProfilesClash(identities) && |files| == |identities| + 1
    requires forall i, j | 0 <= i < |identities| && 0 <= j < |identities| ::
      LiesUnder(files[i].path, files[j].path) <==> identities[i].profile == identities[j].profile + "/token"
    requires files[|identities|].path == "config" && forall i | 0 <= i < |identities| ::
      LiesUnder(files[i].path, "config") <==> identities[i].profile == "config" || "config/" <= identities[i].profile
    ensures Clash(files)
  {
    hide LiesUnder;
    if i :| i in identities && (i.profile == "config" || "config/" <= i.profile) {
      var k :| 0 <= k < |identities| && identities[k] == i;
      assert LiesUnder(files[k].path, files[|identities|].path);
    } else {
      var i, j :| i in identities && j in identities && j.profile == i.profile + "/token";
      var k :| 0 <= k < |identities| && identities[k] == i;
      var l :| 0 <= l < |identities| && identities[l] == j;
      assert LiesUnder(files[l].path, files[k].path) && k != l;
    }
  }

  lemma ClashOfProfiles(files: seq<File>, identities: seq<Identity>)
    requires Clash(files) && |files| == |identities| + 1
    requires forall i, j | 0 <= i < |identities| && 0 <= j < |identities| ::
      && (LiesUnder(files[i].path, files[j].path) <==> identities[i].profile == identities[j].profile + "/token")
      && (files[i].path == files[j].path ==> i == j)
    requires files[|identities|].path == "config" && forall i | 0 <= i < |identities| ::
      && (LiesUnder(files[i].path, "config") <==>
           identities[i].profile == "config" || "config/" <= identities[i].profile)
      && !LiesUnder("config", files[i].path) && files[i].path != "config"
    ensures ProfilesClash(identities)
  {
    hide LiesUnder;
    var i, j :| 0 <= i < |files| && 0 <= j < |files| && i != j
      && (files[i].path == files[j].path || LiesUnder(files[i].path, files[j].path));
    if i < |identities| && j < |identities| {
      assert identities[i] in identities && identities[j] in identities;
    } else if i < |identities| {
      assert identities[i] in identities;
    }
  }

  /******* What is found *******/

  /** What an injected pod's container finds below the mount is what the volume has there, unless files clash. */
  lemma FoundInTheVolume(pod: Pod, c: Container, identities: seq<Identity>, rest: string, content: Content)
    requires ProfilesAreLegal(identities) && !HasVolumeNamed(pod.volumes, "databricks-token")
    requires "databricks.workload-identity.io/config" !in pod.annotations
    requires !MountsAt(c.mounts, TOKEN_MOUNT_PATH) && !InTheWay(c, TOKEN_MOUNT_PATH + "/" + rest) && identities != []
    requires
      || (rest == "config" && content == Text(Rendered(identities)))
      || (exists i :: i in identities && rest == i.profile + "/token" && content == TokenFor(i.audience, 3600))
    ensures Finds(Injected(pod, identities), Equipped(c, identities[0].profile), TOKEN_MOUNT_PATH + "/" + rest,
                  content) <==>
      !ProfilesClash(identities)
  {
    hide Paths.Clean, Clash, ProfilesClash, InTheWay, MountFor, VolumeNamed, AllFiles, IsProfile, Rendered;
    var injected := Injected(pod, identities);
    var path := TOKEN_MOUNT_PATH + "/" + rest;
    MountIsTaken(c, identities[0].profile, path);
    MountIsClean();
    AddedIsFound(pod.volumes, TokenVolumeOf(identities));
    VolumeFiles(injected.annotations, identities);
    var files := AllFiles(injected.annotations, TokenSources(identities) + [CONFIG_SOURCE]);
    FilesClashIff(files, identities);
    if rest == "config" && content == Text(Rendered(identities)) {
      assert files[|identities|] in files;
    } else {
      var i :| i in identities && rest == i.profile + "/token" && content == TokenFor(i.audience, 3600);
      var k :| 0 <= k < |identities| && identities[k] == i;
      assert files[k] in files;
    }
    assert HasFile(files, TOKEN_MOUNT_PATH, path, content);
  }

  /**
   A container that was told nothing itself is told one path for the configuration, and what it finds there
   is what was rendered, wherever none of its own mounts lies over it, exactly when no two of the pod's
   files get in each other's way.
   */
  lemma ConfigIsFound(pod: Pod, c: Container, identities: seq<Identity>) returns (path: string)
    requires ProfilesAreLegal(identities) && identities != [] && !HasVolumeNamed(pod.volumes, "databricks-token")
    requires "databricks.workload-identity.io/config" !in pod.annotations
    requires !MountsAt(c.mounts, "/var/run/secrets/databricks")
    requires !Sets(c.env, "WORKLOAD_IDENTITY_DATABRICKS_CONFIG_FILE")
    ensures var equipped := Equipped(c, identities[0].profile);
      && Variable("WORKLOAD_IDENTITY_DATABRICKS_CONFIG_FILE", path) in equipped.env
      && (forall v | v in equipped.env && v.name == "WORKLOAD_IDENTITY_DATABRICKS_CONFIG_FILE" :: v.value == path)
      && (!InTheWay(c, path) ==>
           (Finds(Injected(pod, identities), equipped, path, Text(Rendered(identities))) <==>
             !ProfilesClash(identities)))
  {
    hide Finds, InTheWay, ProfilesClash, Rendered, ProfilesAreLegal;
    path := CONFIG_PATH;
    VariablesAre(c, identities[0].profile);
    assert CONFIG_PATH == TOKEN_MOUNT_PATH + "/" + "config";
    if !InTheWay(c, path) {
      FoundInTheVolume(pod, c, identities, "config", Text(Rendered(identities)));
    }
  }

  /** Under each of its two names a container is told once: what it was told already, or what is added. */
  lemma VariablesAre(c: Container, profile: string)
    requires !MountsAt(c.mounts, TOKEN_MOUNT_PATH)
    ensures var env := Equipped(c, profile).env;
      && (!Sets(c.env, "WORKLOAD_IDENTITY_DATABRICKS_CONFIG_FILE") ==>
           Variable("WORKLOAD_IDENTITY_DATABRICKS_CONFIG_FILE", CONFIG_PATH) in env
           && forall v | v in env && v.name == "WORKLOAD_IDENTITY_DATABRICKS_CONFIG_FILE" :: v.value == CONFIG_PATH)
      && (!Sets(c.env, "WORKLOAD_IDENTITY_DATABRICKS_CONFIG_PROFILE") ==>
           Variable("WORKLOAD_IDENTITY_DATABRICKS_CONFIG_PROFILE", profile) in env
           && forall v | v in env && v.name == "WORKLOAD_IDENTITY_DATABRICKS_CONFIG_PROFILE" :: v.value == profile)
  {
    assert |ENV_CONFIG_FILE| != |ENV_CONFIG_PROFILE|;
    var once := WithVariable(c.env, ENV_CONFIG_FILE, CONFIG_PATH);
    WithVariableIs(c.env, ENV_CONFIG_FILE, CONFIG_PATH);
    WithVariableIs(once, ENV_CONFIG_PROFILE, profile);
  }

  lemma WithVariableIs(env: seq<Variable>, name: string, value: string)
    ensures var more := WithVariable(env, name, value);
      && (!Sets(env, name) ==>
           Variable(name, value) in more && forall v | v in more && v.name == name :: v.value == value)
      && (forall v: Variable | v.name != name :: v in more <==> v in env)
      && (forall n | n != name :: Sets(more, n) <==> Sets(env, n))
  {
    var more := WithVariable(env, name, value);
    forall n | n != name
      ensures Sets(more, n) <==> Sets(env, n)
    {
      if Sets(env, n) {
        var i :| 0 <= i < |env| && env[i].name == n;
        assert more[i] == env[i];
      }
    }
    if !Sets(env, name) {
      assert more[|env|] == Variable(name, value);
      forall v | v in more && v.name == name
        ensures v.value == value
      {
        var i :| 0 <= i < |more| && more[i] == v;
      }
    }
  }

  /**
   At the path the configuration names for an identity, under either name, a container finds a token of that
   identity's own audience, the one the configuration says, wherever none of its own mounts lies over it,
   exactly when no two of the pod's files get in each other's way.
   */
  lemma TokensAreFound(pod: Pod, c: Container, identities: seq<Identity>, i: Identity) returns (path: string)
    requires ProfilesAreLegal(identities) && i in identities && !HasVolumeNamed(pod.volumes, "databricks-token")
    requires "databricks.workload-identity.io/config" !in pod.annotations
    requires !MountsAt(c.mounts, "/var/run/secrets/databricks") && forall j | j in identities :: OnOneLine(j)
    ensures var config := Rendered(identities);
      && Read(config, i.profile, "databricks_id_token_filepath") == Some(path)
      && Read(config, i.profile, "oidc_token_filepath") == Some(path)
      && Read(config, i.profile, "audience") == Read(config, i.profile, "token_audience") == Some(i.audience)
    ensures !InTheWay(c, path) ==>
      (Finds(Injected(pod, identities), Equipped(c, identities[0].profile), path, TokenFor(i.audience, 3600)) <==>
        !ProfilesClash(identities))
  {
    hide Finds, InTheWay, ProfilesClash, Rendered, Read, IsProfile, TokenPathFor, TokenProjectionPathFor;
    assert forall k | 0 <= k < |identities| :: identities[k] in identities;
    var k :| 0 <= k < |identities| && identities[k] == i;
    TokenFileOf(i.profile);
    path := TokenPathFor(i.profile);
    RenderedReadsBack(identities, i);
    if !InTheWay(c, path) {
      FoundInTheVolume(pod, c, identities, i.profile + "/token", TokenFor(i.audience, 3600));
    }
  }

  /** The profile a container is told, where it was told none, is a section, and of the first identity. */
  lemma ProfileIsFound(c: Container, identities: seq<Identity>) returns (profile: string)
    requires ProfilesAreLegal(identities) && identities != [] && forall j | j in identities :: OnOneLine(j)
    requires !MountsAt(c.mounts, "/var/run/secrets/databricks")
    requires !Sets(c.env, "WORKLOAD_IDENTITY_DATABRICKS_CONFIG_PROFILE")
    ensures var env := Equipped(c, identities[0].profile).env;
      && Variable("WORKLOAD_IDENTITY_DATABRICKS_CONFIG_PROFILE", profile) in env
      && (forall v | v in env && v.name == "WORKLOAD_IDENTITY_DATABRICKS_CONFIG_PROFILE" :: v.value == profile)
      && Read(Rendered(identities), profile, "client_id") == Some(identities[0].clientId)
  {
    hide Rendered, Read, IsProfile;
    profile := identities[0].profile;
    VariablesAre(c, profile);
    assert identities[0] in identities;
    RenderedReadsBack(identities, identities[0]);
  }
}

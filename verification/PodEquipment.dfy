/**
 Whether the pods under a ServiceAccount carry what they need, asked of pods the cache has cut down to
 what is asked about
 (internal/controller/podcache.go:46-116;
 internal/controller/databricksserviceaccount_controller.go:613-646, 736-787).
 */
module PodEquipment {
  import opened Names
  import opened Options
  import opened Pods
  import opened Profiles
  import Sorting

  const TOKEN_VOLUME := "databricks-token"
  const CONFIG_ANNOTATION := "databricks.workload-identity.io/config"

  /******* Cutting down *******/

  /** The tokens a volume projects, by path and audience alone. */
  function TokensOf(sources: seq<Source>): seq<Source> {
    if sources == [] then []
    else
      var before, last := TokensOf(sources[..|sources| - 1]), sources[|sources| - 1];
      if !last.ServiceAccountToken? then before
      else before + [ServiceAccountToken(Token(last.token.path, last.token.audience, 0))]
  }

  function KeptOf(volume: Volume): Volume {
    Volume(volume.name,
           if volume.projected.Some? && TokensOf(volume.projected.value) != []
           then Some(TokensOf(volume.projected.value)) else None,
           "")
  }

  function TrimmedOf(pod: Pod): Pod {
    Pod(pod.name, pod.namespace, pod.uid, pod.resourceVersion, pod.deleting, pod.serviceAccountName, pod.phase,
        if CONFIG_ANNOTATION in pod.annotations
        then map[CONFIG_ANNOTATION := pod.annotations[CONFIG_ANNOTATION]] else map[],
        seq(|pod.volumes|, i requires 0 <= i < |pod.volumes| => KeptOf(pod.volumes[i])),
        [], [])
  }

  method KeepAudience(volume: Volume) returns (kept: Volume)
    ensures kept == KeptOf(volume)
  {
    kept := Volume(volume.name, None, "");
    if volume.projected.None? {
      return;
    }
    var all := volume.projected.value;
    var sources: seq<Source> := [];
    for i := 0 to |all|
      invariant sources == TokensOf(all[..i])
    {
      assert all[..i + 1][..i] == all[..i];
      var source := all[i];
      if !source.ServiceAccountToken? {
        continue;
      }
      sources := sources + [ServiceAccountToken(Token(source.token.path, source.token.audience, 0))];
    }
    assert all[..|all|] == all;
    if |sources| > 0 {
      kept := kept.(projected := Some(sources));
    }
  }

  method TrimPod(pod: Pod) returns (trimmed: Pod)
    ensures trimmed == TrimmedOf(pod)
  {
    trimmed := Pod(pod.name, pod.namespace, pod.uid, pod.resourceVersion, pod.deleting, pod.serviceAccountName,
                   pod.phase,
                   map[], [], [], []);
    if CONFIG_ANNOTATION in pod.annotations {
      trimmed := trimmed.(annotations := map[CONFIG_ANNOTATION := pod.annotations[CONFIG_ANNOTATION]]);
    }
    ghost var start := trimmed;
    for i := 0 to |pod.volumes|
      invariant trimmed == start.(volumes := seq(i, j requires 0 <= j < i => KeptOf(pod.volumes[j])))
    {
      var kept := KeepAudience(pod.volumes[i]);
      trimmed := trimmed.(volumes := trimmed.volumes + [kept]);
    }
  }

  /******* What is asked *******/

  /** The audience of the first token at this path among these sources. */
  function AudienceIn(sources: seq<Source>, path: string): Option<string> {
    if sources == [] then None
    else if sources[0].ServiceAccountToken? && sources[0].token.path == path then Some(sources[0].token.audience)
    else AudienceIn(sources[1..], path)
  }

  function AudienceAmong(volumes: seq<Volume>, path: string): Option<string> {
    if volumes == [] then None
    else if volumes[0].name != TOKEN_VOLUME || volumes[0].projected.None? then AudienceAmong(volumes[1..], path)
    else if AudienceIn(volumes[0].projected.value, path).Some? then AudienceIn(volumes[0].projected.value, path)
    else AudienceAmong(volumes[1..], path)
  }

  /** The audience the token in this pod was minted for, if it carries one for the profile. */
  method TokenAudienceOf(pod: Pod, profile: string) returns (audience: Option<string>)
    ensures audience == AudienceAmong(pod.volumes, TokenProjectionPathFor(profile))
  {
    var wanted := TokenProjectionPathFor(profile);
    for i := 0 to |pod.volumes|
      invariant AudienceAmong(pod.volumes, wanted) == AudienceAmong(pod.volumes[i..], wanted)
    {
      var volume := pod.volumes[i];
      assert pod.volumes[i..][1..] == pod.volumes[i + 1..];
      if volume.name != TOKEN_VOLUME || volume.projected.None? {
        continue;
      }
      var sources := volume.projected.value;
      for j := 0 to |sources|
        invariant AudienceIn(sources, wanted) == AudienceIn(sources[j..], wanted)
      {
        assert sources[j..][1..] == sources[j + 1..];
        if sources[j].ServiceAccountToken? && sources[j].token.path == wanted {
          return Some(sources[j].token.audience);
        }
      }
    }
    audience := None;
  }

  /** The configuration this pod carries says of the identity what it says now. */
  ghost predicate Describes(pod: Pod, entry: Identity) {
    && entry.Usable()
    && Contains(if CONFIG_ANNOTATION in pod.annotations then pod.annotations[CONFIG_ANNOTATION] else "",
                Rendered([entry]))
  }

  datatype Class = Skipped | NoToken | WrongAudience | Stale | Fine

  /** Which of the lists a pod is in. Only one still going to run under this ServiceAccount is in any. */
  ghost function ClassOf(pod: Pod, serviceAccount: string, entry: Identity): Class {
    var audience := AudienceAmong(pod.volumes, TokenProjectionPathFor(entry.profile));
    if ServiceAccountOf(pod) != serviceAccount || pod.deleting || pod.phase.Succeeded? || pod.phase.Failed? then Skipped
    else if audience.None? then NoToken
    else if audience.value != entry.audience then WrongAudience
    else if !Describes(pod, entry) then Stale
    else Fine
  }

  function ServiceAccountOf(pod: Pod): string {
    if pod.serviceAccountName == "" then "default" else pod.serviceAccountName
  }

  method Occurs(s: string, t: string) returns (found: bool)
    ensures found <==> Contains(s, t)
  {
    for i := 0 to |s| + 1
      invariant forall k: nat | k < i :: !OccursAt(s, t, k)
    {
      if OccursAt(s, t, i) {
        return true;
      }
    }
    found := false;
  }

  method IsDescribed(pod: Pod, entry: Identity) returns (described: bool)
    ensures described <==> Describes(pod, entry)
  {
    if !entry.Usable() {
      return false;
    }
    var section := Profiles.Profiles([entry]);
    var config := if CONFIG_ANNOTATION in pod.annotations then pod.annotations[CONFIG_ANNOTATION] else "";
    described := Occurs(config, section);
  }

  /** The names of the pods of one class, as they are listed. */
  ghost function NamesOf(pods: seq<Pod>, serviceAccount: string, entry: Identity, kind: Class): seq<string> {
    if pods == [] then []
    else
      var before, last := NamesOf(pods[..|pods| - 1], serviceAccount, entry, kind), pods[|pods| - 1];
      if ClassOf(last, serviceAccount, entry) == kind then before + [last.name] else before
  }

  /** Three lists, because the three failures are fixed by different people doing different things. */
  method Equipment(pods: seq<Pod>, serviceAccount: string, entry: Identity)
    returns (noToken: seq<string>, wrongAudience: seq<string>, stale: seq<string>)
    ensures noToken == NamesOf(pods, serviceAccount, entry, NoToken)
    ensures wrongAudience == NamesOf(pods, serviceAccount, entry, WrongAudience)
    ensures stale == NamesOf(pods, serviceAccount, entry, Stale)
  {
    noToken, wrongAudience, stale := [], [], [];
    for k := 0 to |pods|
      invariant noToken == NamesOf(pods[..k], serviceAccount, entry, NoToken)
      invariant wrongAudience == NamesOf(pods[..k], serviceAccount, entry, WrongAudience)
      invariant stale == NamesOf(pods[..k], serviceAccount, entry, Stale)
    {
      var pod := pods[k];
      assert pods[..k + 1][..k] == pods[..k];
      if ServiceAccountOf(pod) != serviceAccount || pod.deleting {
        continue;
      }
      if pod.phase.Succeeded? || pod.phase.Failed? {
        continue;
      }
      var minted := TokenAudienceOf(pod, entry.profile);
      var described := IsDescribed(pod, entry);
      if minted.None? {
        noToken := noToken + [pod.name];
      } else if minted.value != entry.audience {
        wrongAudience := wrongAudience + [pod.name];
      } else if !described {
        stale := stale + [pod.name];
      }
    }
    assert pods[..|pods|] == pods;
  }

  /******* Cutting down loses no answer *******/

  lemma {:induction false} TokensKeepAudiences(sources: seq<Source>, path: string)
    ensures AudienceIn(TokensOf(sources), path) == AudienceIn(sources, path)
  {
    if sources != [] {
      var before, last := sources[..|sources| - 1], sources[|sources| - 1];
      TokensKeepAudiences(before, path);
      AudienceInMore(before, [last], path);
      assert sources == before + [last] && AudienceIn([last][1..], path) == None;
      if last.ServiceAccountToken? {
        var kept := ServiceAccountToken(Token(last.token.path, last.token.audience, 0));
        AudienceInMore(TokensOf(before), [kept], path);
        assert AudienceIn([kept][1..], path) == None;
      }
    }
  }

  lemma {:induction false} AudienceInMore(a: seq<Source>, b: seq<Source>, path: string)
    ensures AudienceIn(a + b, path) == if AudienceIn(a, path).Some? then AudienceIn(a, path) else AudienceIn(b, path)
  {
    if a == [] {
      assert a + b == b;
    } else {
      assert (a + b)[1..] == a[1..] + b;
      AudienceInMore(a[1..], b, path);
    }
  }

  lemma {:induction false} TrimKeepsAudience(volumes: seq<Volume>, kept: seq<Volume>, path: string)
    requires |kept| == |volumes| && forall i | 0 <= i < |kept| :: kept[i] == KeptOf(volumes[i])
    ensures AudienceAmong(kept, path) == AudienceAmong(volumes, path)
  {
    if volumes != [] {
      TrimKeepsAudience(volumes[1..], kept[1..], path);
      if volumes[0].projected.Some? {
        TokensKeepAudiences(volumes[0].projected.value, path);
      }
    }
  }

  /** Every pod is in the same list whether the check is handed it whole or as the cache keeps it. */
  lemma TrimKeepsTheAnswer(pod: Pod, serviceAccount: string, entry: Identity)
    ensures ClassOf(TrimmedOf(pod), serviceAccount, entry) == ClassOf(pod, serviceAccount, entry)
  {
    TrimKeepsAudience(pod.volumes, TrimmedOf(pod).volumes, TokenProjectionPathFor(entry.profile));
  }

  lemma {:induction false} TokensTwice(sources: seq<Source>)
    ensures TokensOf(TokensOf(sources)) == TokensOf(sources)
  {
    if sources != [] {
      var before, last := sources[..|sources| - 1], sources[|sources| - 1];
      TokensTwice(before);
      if last.ServiceAccountToken? {
        var kept := TokensOf(sources);
        assert kept[..|kept| - 1] == TokensOf(before);
      }
    }
  }

  /** A pod cut down once is as small as it gets. */
  lemma TrimTwice(pod: Pod)
    ensures TrimmedOf(TrimmedOf(pod)) == TrimmedOf(pod)
  {
    var once := TrimmedOf(pod);
    var twice := TrimmedOf(once);
    forall i | 0 <= i < |pod.volumes|
      ensures twice.volumes[i] == once.volumes[i]
    {
      if pod.volumes[i].projected.Some? {
        TokensTwice(pod.volumes[i].projected.value);
      }
    }
  }

  /** What the check reads of a source: where a token is, and for whom. */
  function Minted(sources: seq<Source>): seq<(string, string)> {
    if sources == [] then []
    else
      var before, last := Minted(sources[..|sources| - 1]), sources[|sources| - 1];
      if last.ServiceAccountToken? then before + [(last.token.path, last.token.audience)] else before
  }

  lemma {:induction false} KeptAlike(a: seq<Source>, b: seq<Source>)
    requires Minted(a) == Minted(b)
    ensures TokensOf(a) == TokensOf(b)
    decreases |a| + |b|
  {
    if a != [] && !a[|a| - 1].ServiceAccountToken? {
      KeptAlike(a[..|a| - 1], b);
    } else if b != [] && !b[|b| - 1].ServiceAccountToken? {
      KeptAlike(a, b[..|b| - 1]);
    } else if a != [] && b != [] {
      assert Minted(a)[..|Minted(a)| - 1] == Minted(a[..|a| - 1]);
      assert Minted(b)[..|Minted(b)| - 1] == Minted(b[..|b| - 1]);
      assert Minted(a)[|Minted(a)| - 1] == Minted(b)[|Minted(b)| - 1];
      KeptAlike(a[..|a| - 1], b[..|b| - 1]);
    }
  }

  function MintedIn(volume: Volume): seq<(string, string)> {
    if volume.projected.None? then [] else Minted(volume.projected.value)
  }

  /** What a pod is called, what runs as whom, what its volumes are called and mint, and the one annotation. */
  predicate ReadAlike(p: Pod, q: Pod) {
    && p.name == q.name && p.namespace == q.namespace && p.uid == q.uid && p.resourceVersion == q.resourceVersion
    && p.deleting == q.deleting && p.serviceAccountName == q.serviceAccountName && p.phase == q.phase
    && var config := "databricks.workload-identity.io/config";
    && (config in p.annotations <==> config in q.annotations)
    && (config in p.annotations ==> p.annotations[config] == q.annotations[config])
    && |p.volumes| == |q.volumes|
    && forall i | 0 <= i < |p.volumes| ::
         p.volumes[i].name == q.volumes[i].name && MintedIn(p.volumes[i]) == MintedIn(q.volumes[i])
  }

  /** Nothing else of a pod is kept: two that agree in all the check reads are cut down to the same one. */
  lemma TrimKeepsNoMore(p: Pod, q: Pod)
    requires ReadAlike(p, q)
    ensures TrimmedOf(p) == TrimmedOf(q)
  {
    forall i | 0 <= i < |p.volumes|
      ensures KeptOf(p.volumes[i]) == KeptOf(q.volumes[i])
    {
      KeptAlike(if p.volumes[i].projected.Some? then p.volumes[i].projected.value else [],
                if q.volumes[i].projected.Some? then q.volumes[i].projected.value else []);
    }
    assert CONFIG_ANNOTATION == "databricks.workload-identity.io/config";
  }

  lemma {:induction false} MintedIsKept(sources: seq<Source>)
    ensures Minted(TokensOf(sources)) == Minted(sources)
  {
    if sources != [] {
      var before, last := sources[..|sources| - 1], sources[|sources| - 1];
      MintedIsKept(before);
      if last.ServiceAccountToken? {
        assert TokensOf(sources)[..|TokensOf(before)|] == TokensOf(before);
      }
    }
  }

  /** And all of that is kept, and no container, other annotation or other content. */
  lemma TrimKeepsWhatIsRead(pod: Pod)
    ensures ReadAlike(TrimmedOf(pod), pod)
    ensures var t := TrimmedOf(pod);
      && t.containers == [] && t.initContainers == []
      && (forall k | k in t.annotations :: k == "databricks.workload-identity.io/config")
      && (forall v | v in t.volumes :: v.contents == "")
  {
    var t := TrimmedOf(pod);
    forall i | 0 <= i < |pod.volumes|
      ensures MintedIn(t.volumes[i]) == MintedIn(pod.volumes[i])
    {
      if pod.volumes[i].projected.Some? {
        MintedIsKept(pod.volumes[i].projected.value);
      }
    }
  }

  /** And so the three lists are the same lists. */
  lemma {:induction false} TrimKeepsTheLists(pods: seq<Pod>, trimmed: seq<Pod>, serviceAccount: string, entry: Identity,
                                             kind: Class)
    requires |trimmed| == |pods| && forall i | 0 <= i < |pods| :: trimmed[i] == TrimmedOf(pods[i])
    ensures NamesOf(trimmed, serviceAccount, entry, kind) == NamesOf(pods, serviceAccount, entry, kind)
  {
    if pods != [] {
      TrimKeepsTheLists(pods[..|pods| - 1], trimmed[..|pods| - 1], serviceAccount, entry, kind);
      TrimKeepsTheAnswer(pods[|pods| - 1], serviceAccount, entry);
    }
  }
}

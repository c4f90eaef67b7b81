/**
 The configuration a pod is given, and where in it each token is
 (internal/webhook/profiles.go:40-111).
 */
module Profiles {
  import opened Names
  import opened Options
  import opened Requests
  import Paths

  const TOKEN_MOUNT_PATH := "/var/run/secrets/databricks"
  const TOKEN_FILE := "token"
  const CONFIG_FILE := "config"

  /** What the webhook reads of one entry. */
  datatype Identity = Identity(profile: string, clientId: string, audience: string, servicePrincipalId: string,
                               removed: bool) {
    /** There is a service principal, and nobody has answered that it is gone. */
    predicate Usable() {
      servicePrincipalId != "" && !removed
    }
  }

  /** What the object holds that can be used, in the order it holds it. */
  function Usables(identities: seq<Identity>): seq<Identity> {
    if identities == [] then []
    else
      var before, last := Usables(identities[..|identities| - 1]), identities[|identities| - 1];
      if last.Usable() then before + [last] else before
  }

  function TokenPathFor(profile: string): string {
    Paths.Join([TOKEN_MOUNT_PATH, profile, TOKEN_FILE])
  }

  /** The same, relative to the volume. */
  function TokenProjectionPathFor(profile: string): string {
    Paths.Join([profile, TOKEN_FILE])
  }

  /******* Rendering *******/

  const AUTH_TYPE := "auth_type = file-oidc"
  const CLIENT_ID := "client_id = "
  const DATABRICKS_ID_TOKEN_FILEPATH := "databricks_id_token_filepath = "
  const OIDC_TOKEN_FILEPATH := "oidc_token_filepath = "
  const AUDIENCE := "audience = "
  const TOKEN_AUDIENCE := "token_audience = "

  function Lines(lines: seq<string>): string {
    if lines == [] then "" else lines[0] + "\n" + Lines(lines[1..])
  }

  function Section(identity: Identity): seq<string> {
    ["[" + identity.profile + "]",
     AUTH_TYPE,
     CLIENT_ID + identity.clientId,
     DATABRICKS_ID_TOKEN_FILEPATH + TokenPathFor(identity.profile),
     OIDC_TOKEN_FILEPATH + TokenPathFor(identity.profile),
     AUDIENCE + identity.audience,
     TOKEN_AUDIENCE + identity.audience]
  }

  /** What is rendered of one identity. */
  function Block(identity: Identity): string {
    Lines(Section(identity))
  }

  /** The blocks of those that can be used. */
  function Blocks(identities: seq<Identity>): seq<string> {
    if identities == [] then []
    else
      var before, last := Blocks(identities[..|identities| - 1]), identities[|identities| - 1];
      if last.Usable() then before + [Block(last)] else before
  }

  /** A blank line between one and the next. */
  function Joined(blocks: seq<string>): string {
    if blocks == [] then ""
    else
      var before := Joined(blocks[..|blocks| - 1]);
      before + (if before != "" then "\n" else "") + blocks[|blocks| - 1]
  }

  function Rendered(identities: seq<Identity>): string {
    Joined(Blocks(identities))
  }

  lemma LineAtATime(text: string, line: string, rest: seq<string>)
    ensures text + Lines([line] + rest) == (text + line + "\n") + Lines(rest)
  {
    assert ([line] + rest)[1..] == rest;
    assert text + (line + "\n" + Lines(rest)) == text + line + "\n" + Lines(rest);
  }

  /** One section, line by line. */
  method WriteSection(text: string, identity: Identity) returns (rendered: string)
    ensures rendered == text + Block(identity)
  {
    var opening := "[" + identity.profile + "]";
    var clientId := CLIENT_ID + identity.clientId;
    var path, samePath := DATABRICKS_ID_TOKEN_FILEPATH + TokenPathFor(identity.profile),
      OIDC_TOKEN_FILEPATH + TokenPathFor(identity.profile);
    var audience, sameAudience := AUDIENCE + identity.audience, TOKEN_AUDIENCE + identity.audience;
    rendered := SevenLines(text, opening, AUTH_TYPE, clientId, path, samePath, audience, sameAudience);
  }

  method SevenLines(text: string, a: string, b: string, c: string, d: string, e: string, f: string, g: string)
    returns (written: string)
    ensures written == text + Lines([a, b, c, d, e, f, g])
  {
    LineAtATime(text, a, [b, c, d, e, f, g]);
    written := text + a + "\n";
    LineAtATime(written, b, [c, d, e, f, g]);
    written := written + b + "\n";
    LineAtATime(written, c, [d, e, f, g]);
    written := written + c + "\n";
    LineAtATime(written, d, [e, f, g]);
    written := written + d + "\n";
    LineAtATime(written, e, [f, g]);
    written := written + e + "\n";
    LineAtATime(written, f, [g]);
    written := written + f + "\n";
    LineAtATime(written, g, []);
    written := written + g + "\n";
    assert [a] + [b, c, d, e, f, g] == [a, b, c, d, e, f, g] && [b] + [c, d, e, f, g] == [b, c, d, e, f, g];
    assert [c] + [d, e, f, g] == [c, d, e, f, g] && [d] + [e, f, g] == [d, e, f, g] && [e] + [f, g] == [e, f, g];
    assert [f] + [g] == [f, g] && [g] + [] == [g] && written + Lines([]) == written;
  }

  /** Written piece by piece, one section for each identity that can be used, a blank line between. */
  method Profiles(identities: seq<Identity>) returns (rendered: string)
    ensures rendered == Rendered(identities)
  {
    rendered := "";
    for i := 0 to |identities|
      invariant rendered == Joined(Blocks(identities[..i]))
    {
      var identity := identities[i];
      assert identities[..i + 1][..i] == identities[..i];
      if !identity.Usable() {
        continue;
      }
      OneMoreBlock(Blocks(identities[..i]), Block(identity));
      if |rendered| > 0 {
        rendered := rendered + "\n";
      }
      rendered := WriteSection(rendered, identity);
    }
    assert identities[..|identities|] == identities;
  }

  lemma OneMoreBlock(blocks: seq<string>, block: string)
    ensures Joined(blocks + [block]) == (if Joined(blocks) != "" then Joined(blocks) + "\n" else Joined(blocks)) + block
  {
    assert (blocks + [block])[..|blocks|] == blocks;
  }

  /******* Reading back by substring *******/

  predicate OccursAt(s: string, t: string, i: nat) {
    i + |t| <= |s| && s[i..i + |t|] == t
  }

  ghost predicate Contains(s: string, t: string) {
    exists i :: OccursAt(s, t, i)
  }

  /** It opens with the only "[" there is in it, and ends one line with one newline. */
  predicate IsBlock(s: string) {
    && |s| >= 2 && s[0] == '[' && (forall k | 0 < k < |s| :: s[k] != '[')
    && s[|s| - 1] == '\n' && s[|s| - 2] != '\n'
  }

  lemma ContainsMore(s: string, more: string, t: string)
    requires Contains(s, t)
    ensures Contains(s + more, t)
  {
    var i: nat :| OccursAt(s, t, i);
    assert (s + more)[i..i + |t|] == t;
    assert OccursAt(s + more, t, i);
  }

  lemma BeginsTheLast(before: string, last: string, t: string)
    requires t <= last
    ensures Contains(before + last, t)
  {
    assert (before + last)[|before|..|before| + |t|] == last[..|t|];
    assert OccursAt(before + last, t, |before|);
  }

  lemma OccursCharByChar(s: string, t: string, i: nat, k: nat)
    requires OccursAt(s, t, i) && k < |t|
    ensures s[i + k] == t[k]
  {
    assert s[i..i + |t|][k] == t[k];
  }

  lemma OccursInFirst(first: string, rest: string, s: string, t: string, i: nat)
    requires s == first + rest && OccursAt(s, t, i) && i + |t| <= |first|
    ensures OccursAt(first, t, i)
  {
    assert first[i..i + |t|] == s[i..i + |t|];
  }

  /** A block found where another is written last is the start of that one, or was there before it. */
  lemma FoundBeforeOrLast(before: string, separator: string, t: string, last: string)
    requires IsBlock(t) && IsBlock(last)
    requires separator == (if before != "" then "\n" else "")
    requires before != "" ==> before[|before| - 1] == '\n'
    requires Contains(before + separator + last, t)
    ensures Contains(before, t) || t <= last
  {
    var s, start := before + separator + last, |before| + |separator|;
    var i: nat :| OccursAt(s, t, i);
    OccursCharByChar(s, t, i, 0);
    OccursCharByChar(s, t, i, |t| - 2);
    assert s[start] == last[0] && (before != "" ==> s[|before| - 1] == before[|before| - 1]);
    if i + |t| <= |before| {
      OccursInFirst(before, separator + last, s, t, i);
    } else if i >= start {
      assert s[i] == last[i - start] && i == start;
      assert s[start..start + |t|] == last[..|t|];
    } else if i + |t| > start {
      OccursCharByChar(s, t, i, start - i);
    }
  }

  lemma {:induction false} JoinedEndsALine(blocks: seq<string>)
    requires forall b | b in blocks :: IsBlock(b)
    ensures blocks != [] ==> Joined(blocks) != "" && Joined(blocks)[|Joined(blocks)| - 1] == '\n'
  {
    if blocks != [] {
      assert blocks[|blocks| - 1] in blocks;
    }
  }

  ghost predicate BeginsOne(blocks: seq<string>, t: string) {
    exists k :: 0 <= k < |blocks| && t <= blocks[k]
  }

  lemma OneMoreToBegin(blocks: seq<string>, last: string, t: string)
    ensures BeginsOne(blocks + [last], t) <==> BeginsOne(blocks, t) || t <= last
  {
    var more := blocks + [last];
    assert more[|blocks|] == last && forall k | 0 <= k < |blocks| :: more[k] == blocks[k];
  }

  lemma {:induction false} ContainedBegins(blocks: seq<string>, t: string)
    requires IsBlock(t) && forall b | b in blocks :: IsBlock(b)
    requires Contains(Joined(blocks), t)
    ensures BeginsOne(blocks, t)
  {
    if blocks != [] {
      var before, last := blocks[..|blocks| - 1], blocks[|blocks| - 1];
      assert blocks == before + [last];
      OneMoreBlock(before, last);
      assert Joined(before) + "" == Joined(before);
      JoinedEndsALine(before);
      FoundBeforeOrLast(Joined(before), if Joined(before) != "" then "\n" else "", t, last);
      if Contains(Joined(before), t) {
        ContainedBegins(before, t);
      }
      OneMoreToBegin(before, last, t);
    }
  }

  lemma {:induction false} BegunIsContained(blocks: seq<string>, t: string)
    requires IsBlock(t) && BeginsOne(blocks, t)
    ensures Contains(Joined(blocks), t)
  {
    var before, last := blocks[..|blocks| - 1], blocks[|blocks| - 1];
    assert blocks == before + [last];
    var separator := if Joined(before) != "" then "\n" else "";
    OneMoreBlock(before, last);
    assert Joined(before) + "" == Joined(before);
    OneMoreToBegin(before, last, t);
    if BeginsOne(before, t) {
      BegunIsContained(before, t);
      ContainsMore(Joined(before), separator + last, t);
      assert Joined(before) + (separator + last) == Joined(blocks);
    } else {
      BeginsTheLast(Joined(before) + separator, last, t);
    }
  }

  /** What the blocks make together contains one just when it begins one of them. */
  lemma JoinedContains(blocks: seq<string>, t: string)
    requires IsBlock(t) && forall b | b in blocks :: IsBlock(b)
    ensures Contains(Joined(blocks), t) <==> BeginsOne(blocks, t)
  {
    hide Contains, BeginsOne, Joined;
    if Contains(Joined(blocks), t) {
      ContainedBegins(blocks, t);
    }
    if BeginsOne(blocks, t) {
      BegunIsContained(blocks, t);
    }
  }

  predicate IsFieldText(s: string) {
    '\n' !in s && '[' !in s
  }

  /** Fields that cannot end a line or begin a section. */
  predicate IsClear(i: Identity) {
    IsFieldText(i.profile) && IsFieldText(i.clientId) && IsFieldText(i.audience)
  }

  lemma PathIsClear(profile: string, c: char)
    requires c !in profile && (c == '\n' || c == '[')
    ensures c !in TokenPathFor(profile)
  {
    MountIsClear(c);
    var elements := [TOKEN_MOUNT_PATH, profile, TOKEN_FILE];
    NonEmptyAddsNothing(elements, c);
    Paths.JoinAddsNothing(Paths.NonEmpty(elements), c);
    Paths.CleanAddsNothing(Paths.JoinParts(Paths.NonEmpty(elements)), c);
  }

  lemma MountIsClear(c: char)
    requires c == '\n' || c == '['
    ensures c !in TOKEN_MOUNT_PATH && c !in TOKEN_FILE
  {
  }

  lemma {:induction false} NonEmptyAddsNothing(elements: seq<string>, c: char)
    requires forall e | e in elements :: c !in e
    ensures forall e | e in Paths.NonEmpty(elements) :: c !in e
  {
    if elements != [] {
      assert elements[0] in elements;
      NonEmptyAddsNothing(elements[1..], c);
    }
  }

  lemma LabelsAreClear()
    ensures IsFieldText(AUTH_TYPE) && IsFieldText(CLIENT_ID) && IsFieldText(AUDIENCE) && IsFieldText(TOKEN_AUDIENCE)
  {
  }

  lemma PathLabelsAreClear()
    ensures IsFieldText(DATABRICKS_ID_TOKEN_FILEPATH) && IsFieldText(OIDC_TOKEN_FILEPATH)
  {
    assert IsFieldText(OIDC_TOKEN_FILEPATH);
    assert IsFieldText(DATABRICKS_ID_TOKEN_FILEPATH);
  }

  lemma SectionIsClear(i: Identity)
    requires IsClear(i)
    ensures forall line | line in Section(i)[1..] :: IsFieldText(line)
    ensures '\n' !in Section(i)[0] && Section(i)[0][0] == '[' && forall k | 0 < k < |Section(i)[0]| ::
      Section(i)[0][k] != '['
  {
    LabelsAreClear();
    PathLabelsAreClear();
    PathIsClear(i.profile, '\n');
    PathIsClear(i.profile, '[');
  }

  lemma {:induction false} LinesHoldNo(lines: seq<string>, c: char)
    requires c != '\n' && forall line | line in lines :: c !in line
    ensures c !in Lines(lines)
  {
    if lines != [] {
      assert lines[0] in lines;
      LinesHoldNo(lines[1..], c);
    }
  }

  lemma {:induction false} LinesEnd(lines: seq<string>)
    requires lines != [] && lines[|lines| - 1] != "" && '\n' !in lines[|lines| - 1]
    ensures |Lines(lines)| >= 2 && Lines(lines)[|Lines(lines)| - 1] == '\n' && Lines(lines)[|Lines(lines)| - 2] != '\n'
  {
    if |lines| == 1 {
      var last := lines[0];
      assert Lines(lines) == last + "\n";
      assert Lines(lines)[|Lines(lines)| - 2] == last[|last| - 1] && last[|last| - 1] in last;
    } else {
      LinesEnd(lines[1..]);
    }
  }

  lemma LinesAreABlock(lines: seq<string>)
    requires |lines| > 1 && lines[0] != "" && lines[0][0] == '['
    requires forall k | 0 < k < |lines[0]| :: lines[0][k] != '['
    requires (forall line | line in lines[1..] :: IsFieldText(line)) && lines[|lines| - 1] != ""
    ensures IsBlock(Lines(lines))
  {
    LinesHoldNo(lines[1..], '[');
    assert lines[|lines| - 1] in lines[1..];
    LinesEnd(lines);
    var first, rest := lines[0] + "\n", Lines(lines[1..]);
    assert Lines(lines) == first + rest;
    forall k | 0 < k < |first + rest|
      ensures (first + rest)[k] != '['
    {
      if k >= |first| {
        assert (first + rest)[k] == rest[k - |first|] && rest[k - |first|] in rest;
      }
    }
  }

  lemma BlockShape(i: Identity)
    requires IsClear(i)
    ensures IsBlock(Block(i))
  {
    SectionIsClear(i);
    LinesAreABlock(Section(i));
  }

  /** Lines one after another that agree as far as the shorter goes are the same lines. */
  lemma {:induction false} LinesAgree(a: seq<string>, b: seq<string>)
    requires |a| == |b| && Lines(a) <= Lines(b)
    requires (forall line | line in a :: '\n' !in line) && (forall line | line in b :: '\n' !in line)
    ensures a == b
  {
    if a != [] {
      assert a[0] in a && b[0] in b;
      FirstLineAgrees(a[0], b[0], Lines(a[1..]), Lines(b[1..]));
      LinesAgree(a[1..], b[1..]);
      assert a == [a[0]] + a[1..] && b == [b[0]] + b[1..];
    }
  }

  lemma FirstLineAgrees(a: string, b: string, s: string, t: string)
    requires '\n' !in a && '\n' !in b && a + "\n" + s <= b + "\n" + t
    ensures a == b && s <= t
  {
    var u, v := a + "\n" + s, b + "\n" + t;
    assert u == v[..|u|];
    assert u[|a|] == '\n' && v[|b|] == '\n';
    assert forall k | 0 <= k < |a| :: u[k] == a[k] && a[k] in a;
    assert forall k | 0 <= k < |b| :: v[k] == b[k] && b[k] in b;
    assert v[|a|] == '\n' && (|b| < |u| ==> u[|b|] == v[|b|]);
    assert |a| == |b|;
    assert u[..|a|] == a && v[..|b|] == b;
    assert u[|a| + 1..] == s && v[|b| + 1..] == t;
  }

  predicate SaysTheSame(a: Identity, b: Identity) {
    a.profile == b.profile && a.clientId == b.clientId && a.audience == b.audience
  }

  lemma Cancels(prefix: string, a: string, b: string)
    requires prefix + a == prefix + b
    ensures a == b
  {
    assert (prefix + a)[|prefix|..] == a && (prefix + b)[|prefix|..] == b;
  }

  lemma BlockSays(a: Identity, b: Identity)
    requires IsClear(a) && IsClear(b)
    ensures Block(a) <= Block(b) <==> SaysTheSame(a, b)
  {
    var s, t := Section(a), Section(b);
    if Block(a) <= Block(b) {
      SectionIsClear(a);
      SectionIsClear(b);
      assert s == [s[0]] + s[1..] && t == [t[0]] + t[1..];
      LinesAgree(s, t);
      assert s[0][1..|s[0]| - 1] == a.profile && t[0][1..|t[0]| - 1] == b.profile;
      Cancels(CLIENT_ID, a.clientId, b.clientId);
      Cancels(AUDIENCE, a.audience, b.audience);
    }
  }

  lemma {:induction false} BlocksAre(identities: seq<Identity>, b: string)
    ensures b in Blocks(identities) <==> exists i :: i in identities && i.Usable() && b == Block(i)
  {
    if identities != [] {
      var before, last := identities[..|identities| - 1], identities[|identities| - 1];
      assert identities == before + [last];
      BlocksAre(before, b);
    }
  }

  /**
   The text rendered from a list contains one usable entry's section exactly when the list holds a usable
   entry that says the same: profile, client id and audience.
   */
  lemma StalenessIsExact(identities: seq<Identity>, entry: Identity)
    requires IsClear(entry) && forall i | i in identities :: IsClear(i)
    ensures Contains(Rendered(identities), Block(entry)) <==>
      exists i :: i in identities && i.Usable() && SaysTheSame(i, entry)
  {
    BlockShape(entry);
    forall b | b in Blocks(identities)
      ensures IsBlock(b) && exists i :: i in identities && i.Usable() && b == Block(i)
    {
      BlocksAre(identities, b);
      var i :| i in identities && i.Usable() && b == Block(i);
      BlockShape(i);
    }
    JoinedContains(Blocks(identities), Block(entry));
    if BeginsOne(Blocks(identities), Block(entry)) {
      var k :| 0 <= k < |Blocks(identities)| && Block(entry) <= Blocks(identities)[k];
      var b := Blocks(identities)[k];
      assert b in Blocks(identities);
      var i :| i in identities && i.Usable() && b == Block(i);
      BlockSays(entry, i);
    }
    if i :| i in identities && i.Usable() && SaysTheSame(i, entry) {
      BlocksAre(identities, Block(i));
      BlockSays(entry, i);
    }
  }

  /** An entry renders by itself as its section, or as nothing when it cannot be used. */
  lemma AloneIsItsSection(entry: Identity)
    ensures Rendered([entry]) == if entry.Usable() then Block(entry) else ""
  {
    assert [entry][..0] == [] && Blocks([entry][..0]) == [];
    if entry.Usable() {
      assert Blocks([entry]) == [Block(entry)];
      OneMoreBlock([], Block(entry));
      assert [] + [Block(entry)] == [Block(entry)] && "" + Block(entry) == Block(entry);
    }
  }

  /******* Where the tokens are *******/

  /** A profile annotations can ask for: an identity's own name, or an operator's reference. */
  ghost predicate IsProfile(profile: string) {
    IsIdentityName(profile) || exists o: NamespacedName :: IsOperator(o) && profile == o.ToString()
  }

  /** The one part of a name, or the two of a reference, none of which cleaning moves. */
  ghost predicate HasParts(profile: string, parts: seq<string>) {
    && 1 <= |parts| <= 2 && (forall p | p in parts :: Paths.IsPlain(p))
    && profile == Paths.JoinParts(parts)
  }

  lemma LabelIsPlain(s: string)
    requires IsLabelText(s)
    ensures Paths.IsPlain(s)
  {
  }

  lemma NameIsPlain(s: string)
    requires IsSubdomain(s)
    ensures Paths.IsPlain(s)
  {
    DottedIsLocal(s);
  }

  lemma ProfileHasParts(profile: string) returns (parts: seq<string>)
    requires IsProfile(profile)
    ensures HasParts(profile, parts)
  {
    if IsIdentityName(profile) {
      LabelIsPlain(profile);
      parts := [profile];
    } else {
      var o: NamespacedName :| IsOperator(o) && profile == o.ToString();
      LabelIsPlain(o.namespace);
      NameIsPlain(o.name);
      parts := [o.namespace, o.name];
      assert parts[1..] == [o.name];
    }
  }

  lemma PathsOfParts(profile: string, parts: seq<string>)
    requires HasParts(profile, parts)
    ensures TokenProjectionPathFor(profile) == Paths.JoinParts(parts + [TOKEN_FILE]) == profile + "/" + TOKEN_FILE
    ensures TokenPathFor(profile) == TOKEN_MOUNT_PATH + "/" + (profile + "/" + TOKEN_FILE)
  {
    FileIsPlain();
    PathIn(profile, parts, TOKEN_FILE);
    MountParts();
    PathUnder(MOUNT_PARTS, TOKEN_MOUNT_PATH, parts + [TOKEN_FILE], profile, TOKEN_FILE);
  }

  lemma FileIsPlain()
    ensures Paths.IsPlain(TOKEN_FILE)
  {
  }

  lemma PathIn(profile: string, parts: seq<string>, file: string)
    requires HasParts(profile, parts) && Paths.IsPlain(file)
    ensures Paths.Join([profile, file]) == Paths.JoinParts(parts + [file]) == profile + "/" + file
    ensures profile != ""
  {
    assert parts[0] in parts && profile != "";
    Paths.JoinPartsAppends(parts, [file]);
    Paths.PlainIsClean(parts + [file]);
    JoinedTwo(profile, file);
  }

  lemma PathUnder(root: seq<string>, at: string, path: seq<string>, profile: string, file: string)
    requires root != [] && (forall p | p in root :: Paths.IsPlain(p)) && at == "/" + Paths.JoinParts(root)
    requires path != [] && (forall p | p in path :: Paths.IsPlain(p)) && Paths.JoinParts(path) == profile + "/" + file
    requires profile != "" && file != ""
    ensures Paths.Join([at, profile, file]) == at + "/" + (profile + "/" + file)
  {
    RootedPath(root, at, path);
    JoinedThree(at, profile, file);
    RegroupThree(at, profile, file);
  }

  lemma RegroupThree(a: string, b: string, c: string)
    ensures a + "/" + (b + "/" + c) == a + "/" + b + "/" + c
  {
  }

  lemma RootedPath(root: seq<string>, at: string, path: seq<string>)
    requires root != [] && path != [] && (forall p | p in root :: Paths.IsPlain(p))
      && (forall p | p in path :: Paths.IsPlain(p))
    requires at == "/" + Paths.JoinParts(root)
    ensures Paths.Clean(at + "/" + Paths.JoinParts(path)) == at + "/" + Paths.JoinParts(path)
  {
    Paths.JoinPartsAppends(root, path);
    Paths.PlainIsClean(root + path);
    Regroup(Paths.JoinParts(root), Paths.JoinParts(path));
  }

  lemma Regroup(a: string, b: string)
    ensures "/" + (a + "/" + b) == "/" + a + "/" + b
  {
  }

  lemma JoinedTwo(a: string, b: string)
    requires a != "" && b != ""
    ensures Paths.Join([a, b]) == Paths.Clean(a + "/" + b)
  {
    assert [a, b][1..] == [b] && [b][1..] == [];
    assert Paths.NonEmpty([b]) == [b] && Paths.NonEmpty([a, b]) == [a, b];
    assert Paths.JoinParts([b]) == b;
  }

  lemma JoinedThree(a: string, b: string, c: string)
    requires a != "" && b != "" && c != ""
    ensures Paths.Join([a, b, c]) == Paths.Clean(a + "/" + b + "/" + c)
  {
    assert [a, b, c][1..] == [b, c] && [b, c][1..] == [c] && [c][1..] == [];
    assert Paths.NonEmpty([c]) == [c] && Paths.NonEmpty([b, c]) == [b, c] && Paths.NonEmpty([a, b, c]) == [a, b, c];
    assert Paths.JoinParts([c]) == c && Paths.JoinParts([b, c]) == b + "/" + c;
    assert a + "/" + (b + "/" + c) == a + "/" + b + "/" + c;
  }

  const MOUNT_PARTS := ["var", "run", "secrets", "databricks"]

  lemma MountParts()
    ensures "/" + Paths.JoinParts(MOUNT_PARTS) == TOKEN_MOUNT_PATH
    ensures forall p | p in MOUNT_PARTS :: Paths.IsPlain(p)
  {
    assert MOUNT_PARTS[1..] == ["run", "secrets", "databricks"];
    assert ["run", "secrets", "databricks"][1..] == ["secrets", "databricks"];
    assert ["secrets", "databricks"][1..] == ["databricks"];
  }

  lemma SameFile(a: string, b: string, file: string)
    ensures a + "/" + file == b + "/" + file ==> a == b
  {
    assert (a + "/" + file)[..|a|] == a && (b + "/" + file)[..|b|] == b;
  }

  /** For every profile that can be asked for, its token is where its section says, and nobody else's is. */
  lemma TokenPaths(profile: string, other: string)
    requires IsProfile(profile) && IsProfile(other)
    ensures TokenPathFor(profile) == TOKEN_MOUNT_PATH + "/" + TokenProjectionPathFor(profile)
    ensures TokenProjectionPathFor(profile) == profile + "/" + TOKEN_FILE
    ensures TokenProjectionPathFor(profile) == TokenProjectionPathFor(other) ==> profile == other
    ensures TokenProjectionPathFor(profile) != CONFIG_FILE
  {
    var parts := ProfileHasParts(profile);
    var parts' := ProfileHasParts(other);
    PathsOfParts(profile, parts);
    PathsOfParts(other, parts');
    SameFile(profile, other, TOKEN_FILE);
    assert (profile + "/" + TOKEN_FILE)[|profile|] == '/';
  }

  /** One file's path is a directory on the way to the other's, so the two cannot both be written. */
  predicate LiesUnder(path: string, directory: string) {
    directory + "/" <= path
  }

  /**
   Where two of a pod's files get in each other's way: a name that is the namespace of an operator called
   "token", and a profile whose first part is the configuration's own name.
   */
  lemma FilesNest(profile: string, other: string)
    requires IsProfile(profile) && IsProfile(other)
    ensures LiesUnder(TokenProjectionPathFor(other), TokenProjectionPathFor(profile)) <==>
      other == profile + "/" + TOKEN_FILE
    ensures LiesUnder(TokenProjectionPathFor(profile), CONFIG_FILE) <==>
      profile == CONFIG_FILE || CONFIG_FILE + "/" <= profile
    ensures !LiesUnder(CONFIG_FILE, TokenProjectionPathFor(profile))
  {
    var parts := ProfileHasParts(profile);
    var parts' := ProfileHasParts(other);
    PathsOfParts(profile, parts);
    PathsOfParts(other, parts');
    if LiesUnder(TokenProjectionPathFor(other), TokenProjectionPathFor(profile)) {
      UnderIsLonger(parts + [TOKEN_FILE], parts' + [TOKEN_FILE]);
      assert |parts| == 1 && |parts'| == 2;
      assert (parts' + [TOKEN_FILE])[..2] == parts';
      Paths.JoinPartsAppends(parts, [TOKEN_FILE]);
    }
    if other == profile + "/" + TOKEN_FILE {
      assert other + "/" + TOKEN_FILE == profile + "/" + TOKEN_FILE + "/" + TOKEN_FILE;
    }
    ConfigInTheWay(profile);
  }

  /** One that can be asked for: a pod cannot be given both the configuration and this identity's token. */
  lemma ConfigIsAProfile()
    ensures IsProfile(CONFIG_FILE) && LiesUnder(TokenProjectionPathFor(CONFIG_FILE), CONFIG_FILE)
  {
    assert IsIdentityName(CONFIG_FILE);
    FilesNest(CONFIG_FILE, CONFIG_FILE);
  }

  lemma CalledToken(name: string)
    requires IsIdentityName(name)
    ensures IsOperator(NamespacedName(name, TOKEN_FILE))
  {
    assert IsSubdomain(TOKEN_FILE);
  }

  lemma BothAsked(operator: NamespacedName, name: string, other: NamespacedName)
    requires IsOperator(operator) && IsOperator(other) && IsIdentityName(name) && name != ""
    ensures var annotations := map[AnnotationFor(name) := operator.ToString(), AnnotationFor("") := other.ToString()];
      Asked(annotations, Request(operator, name)) && Asked(annotations, Request(other, ""))
  {
    hide AnnotationFor, ParseOperator, IsOperator, NamespacedName.ToString, IsIdentityName, ReadKey;
    ParseOperatorRoundTrip(operator);
    ParseOperatorRoundTrip(other);
    ReadKeyOf(name, operator.ToString());
    ReadKeyOf("", other.ToString());
    if AnnotationFor(name) == AnnotationFor("") {
      AnnotationForIsInjective(name, "");
    }
  }

  /**
   The other clash in one set of annotations: an identity of any operator's that is named like a namespace,
   beside the unnamed identity of that namespace's operator called "token".
   */
  lemma NamespaceIsAProfile(operator: NamespacedName, name: string)
    requires IsOperator(operator) && IsIdentityName(name)
    ensures var tokens := NamespacedName(name, TOKEN_FILE);
      var named, unnamed := Request(operator, name), Request(tokens, "");
      var annotations := map[AnnotationFor(name) := operator.ToString(), AnnotationFor("") := tokens.ToString()];
      && Asked(annotations, named) && Asked(annotations, unnamed)
      && LiesUnder(TokenProjectionPathFor(unnamed.ToString()), TokenProjectionPathFor(named.ToString()))
  {
    assert name != "";
    hide AnnotationFor, Asked, IsOperator, IsIdentityName, TokenProjectionPathFor, LiesUnder;
    var tokens := NamespacedName(name, TOKEN_FILE);
    CalledToken(name);
    BothAsked(operator, name, tokens);
    FilesNest(name, tokens.ToString());
  }

  lemma ConfigInTheWay(profile: string)
    requires TokenProjectionPathFor(profile) == profile + "/" + TOKEN_FILE
    ensures LiesUnder(TokenProjectionPathFor(profile), CONFIG_FILE) <==>
      profile == CONFIG_FILE || CONFIG_FILE + "/" <= profile
  {
    var path := profile + "/" + TOKEN_FILE;
    var config := CONFIG_FILE + "/";
    if LiesUnder(path, CONFIG_FILE) {
      assert forall k | 0 <= k < 7 :: path[k] == config[k];
      if |profile| >= 7 {
        assert forall k | 0 <= k < 7 :: profile[k] == path[k];
        assert profile[..7] == config;
      } else {
        assert path[|profile|] == '/';
        assert |profile| == 6 && forall k | 0 <= k < 6 :: profile[k] == path[k] == CONFIG_FILE[k];
        assert profile == CONFIG_FILE;
      }
    }
  }

  /** A path under another has its parts and more. */
  lemma UnderIsLonger(a: seq<string>, b: seq<string>)
    requires a != [] && b != [] && (forall p | p in a :: '/' !in p) && (forall p | p in b :: '/' !in p)
    requires Paths.JoinParts(a) + "/" <= Paths.JoinParts(b)
    ensures |a| < |b| && b[..|a|] == a
  {
    var from, whole := Paths.JoinParts(a), Paths.JoinParts(b);
    var rest := RestOf(from, whole);
    var tail := Paths.Split(rest);
    SplitThenJoin(rest);
    Paths.JoinPartsAppends(a, tail);
    SamePathSameParts(b, a + tail);
  }

  lemma RestOf(from: string, whole: string) returns (rest: string)
    requires from + "/" <= whole
    ensures whole == from + "/" + rest
  {
    rest := whole[|from| + 1..];
    assert whole == whole[..|from| + 1] + rest;
  }

  lemma SamePathSameParts(a: seq<string>, b: seq<string>)
    requires a != [] && b != [] && (forall p | p in a :: '/' !in p) && (forall p | p in b :: '/' !in p)
    requires Paths.JoinParts(a) == Paths.JoinParts(b)
    ensures a == b
  {
    Paths.SplitJoins(a);
    Paths.SplitJoins(b);
  }

  lemma {:induction false} SplitThenJoin(s: string)
    ensures Paths.JoinParts(Paths.Split(s)) == s
  {
    if s != [] {
      SplitThenJoin(s[1..]);
      var rest := Paths.Split(s[1..]);
      if s[0] == '/' {
        assert ([""] + rest)[1..] == rest;
      } else {
        assert ([[s[0]] + rest[0]] + rest[1..])[1..] == rest[1..];
      }
      assert s == [s[0]] + s[1..];
    }
  }
}

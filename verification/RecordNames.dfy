/**
 The name of a record: readable first and unique second
 (api/v1alpha1/issueddatabricksserviceprincipal_types.go:303-363).
 */
module RecordNames {
  import opened Names
  import Requests
  import ServicePrincipals

  const ISSUED_NAME_LIMIT := 253
  const ISSUED_SUFFIX := 10

  /** The first characters of a hash, in base32 and in lower case. */
  type Hash = string -> string

  ghost predicate IsSuffix(hash: Hash) {
    forall s :: |hash(s)| == ISSUED_SUFFIX && forall i | 0 <= i < ISSUED_SUFFIX :: IsAlnum(hash(s)[i])
  }

  function Readable(namespace: string, name: string, identity: string): string {
    namespace + "." + name + if identity != "" then "." + identity else ""
  }

  function TrimDot(s: string): string {
    if s != "" && s[|s| - 1] == '.' then s[..|s| - 1] else s
  }

  function IssuedNameFor(hash: Hash, namespace: string, name: string, identity: string, uid: string): string {
    var suffix := hash(uid + "/" + identity);
    var readable := Readable(namespace, name, identity);
    var room := ISSUED_NAME_LIMIT - |suffix| - 1;
    (if |readable| > room && room >= 0 then TrimDot(readable[..room]) else readable) + "-" + suffix
  }

  /** What a ServiceAccount and an annotation can be called. */
  predicate IsIssuable(namespace: string, name: string, identity: string) {
    IsLabel(namespace) && IsSubdomain(name) && (identity == "" || Requests.IsIdentityName(identity))
  }

  lemma ReadableIsDotted(namespace: string, name: string, identity: string)
    requires IsIssuable(namespace, name, identity)
    ensures IsDottedLocally(Readable(namespace, name, identity))
  {
    DottedIsLocal(name);
    JoinsLocally(namespace, name);
    if identity != "" {
      var front := namespace + "." + name;
      LabelIsDottedLocally(identity);
      DotsJoin(front, identity);
      assert front + "." + identity == front + ("." + identity);
    } else {
      assert namespace + "." + name + "" == namespace + "." + name;
    }
  }

  lemma LabelIsDottedLocally(s: string)
    requires IsLabelText(s)
    ensures IsDottedLocally(s)
  {
  }

  lemma DotsJoin(front: string, back: string)
    requires IsDottedLocally(front) && IsDottedLocally(back)
    ensures IsDottedLocally(front + "." + back)
  {
    var s, dot := front + "." + back, |front|;
    assert forall i | 0 <= i < dot :: s[i] == front[i];
    assert s[dot] == '.';
    assert forall i | dot < i < |s| :: s[i] == back[i - dot - 1];
    assert s[|s| - 1] == back[|back| - 1] && s[dot - 1] == front[|front| - 1] && s[dot + 1] == back[0];
    forall i | 0 < i < |s| - 1 && s[i] == '.'
      ensures IsAlnum(s[i - 1]) && IsAlnum(s[i + 1])
    {
      if i < dot {
        assert front[i] == '.' && i < |front| - 1;
        assert s[i - 1] == front[i - 1] && s[i + 1] == front[i + 1];
      } else if i > dot {
        var j := i - dot - 1;
        assert back[j] == '.' && 0 < j < |back| - 1;
        assert s[i - 1] == back[j - 1] && s[i + 1] == back[j + 1];
      }
    }
  }

  /** Cut anywhere and rid of a dot at the end, a dotted name still takes a hyphen and letters. */
  lemma CutTakesSuffix(readable: string, cut: nat, suffix: string)
    requires IsDottedLocally(readable) && 0 < cut <= |readable|
    requires suffix != "" && forall i | 0 <= i < |suffix| :: IsAlnum(suffix[i])
    ensures IsDottedLocally(TrimDot(readable[..cut]) + "-" + suffix)
  {
    var kept := TrimDot(readable[..cut]);
    var s := kept + "-" + suffix;
    assert kept != "" by {
      assert readable[0] != '.';
    }
    assert forall i | 0 <= i < |kept| :: s[i] == kept[i] == readable[i];
    assert s[|kept|] == '-';
    assert forall i | |kept| < i < |s| :: s[i] == suffix[i - |kept| - 1];
    assert s[0] == readable[0] && s[|s| - 1] == suffix[|suffix| - 1];
    forall i | 0 < i < |s| - 1 && s[i] == '.'
      ensures IsAlnum(s[i - 1]) && IsAlnum(s[i + 1])
    {
      assert i < |kept| - 1;
      assert s[i - 1] == readable[i - 1] && s[i + 1] == readable[i + 1] && readable[i] == '.';
    }
  }

  /** For whatever Kubernetes lets a namespace, a ServiceAccount and a key be called, the name is one it accepts. */
  lemma NameIsLegal(hash: Hash, namespace: string, name: string, identity: string, uid: string)
    requires IsSuffix(hash) && IsIssuable(namespace, name, identity)
    ensures IsSubdomain(IssuedNameFor(hash, namespace, name, identity, uid))
  {
    var readable, suffix := Readable(namespace, name, identity), hash(uid + "/" + identity);
    ReadableIsDotted(namespace, name, identity);
    var room := ISSUED_NAME_LIMIT - ISSUED_SUFFIX - 1;
    var cut := if |readable| > room then room else |readable|;
    CutTakesSuffix(readable, cut, suffix);
    assert readable[..|readable|] == readable && TrimDot(readable) == readable;
    DottedIsLocal(TrimDot(readable[..cut]) + "-" + suffix);
  }

  /** It begins with the readable half, all of it where that fits and all but its end where it does not. */
  lemma NameReads(hash: Hash, namespace: string, name: string, identity: string, uid: string)
    requires IsSuffix(hash)
    ensures var named := IssuedNameFor(hash, namespace, name, identity, uid);
      var readable := namespace + "." + name + if identity == "" then "" else "." + identity;
      var shown := if |readable| <= 242 then readable
                   else if readable[241] == '.' then readable[..241] else readable[..242];
      named == shown + "-" + hash(uid + "/" + identity)
  {
    assert namespace + "." + name + "" == namespace + "." + name;
    assert |Readable(namespace, name, identity)| > 242 ==>
      Readable(namespace, name, identity)[..242][..241] == Readable(namespace, name, identity)[..241];
  }

  /** One name is one identity of one uid, whatever was cut off, where the suffixes do not collide. */
  lemma NamesApart(hash: Hash, namespace: string, name: string, identity: string, uid: string, namespace': string,
                   name': string, identity': string, uid': string)
    requires IsSuffix(hash)
    requires IsIssuable(namespace, name, identity) && IsIssuable(namespace', name', identity')
    requires !ServicePrincipals.Collides(hash, uid + "/" + identity, uid' + "/" + identity')
    requires IssuedNameFor(hash, namespace, name, identity, uid)
      == IssuedNameFor(hash, namespace', name', identity', uid')
    ensures uid == uid' && identity == identity'
  {
    var s, t := IssuedNameFor(hash, namespace, name, identity, uid),
      IssuedNameFor(hash, namespace', name', identity', uid');
    assert s[|s| - ISSUED_SUFFIX..] == hash(uid + "/" + identity);
    assert t[|t| - ISSUED_SUFFIX..] == hash(uid' + "/" + identity');
    NoSlash(identity);
    NoSlash(identity');
    ServicePrincipals.UidAndIdentity(uid, identity, uid', identity');
  }

  /** The readable half does not by itself say whose a record is: a ServiceAccount's name may hold a dot. */
  lemma ReadableIsAmbiguous(namespace: string, name: string, identity: string)
    requires IsIssuable(namespace, name, identity) && identity != "" && |name| + 1 + |identity| <= 253
    ensures IsIssuable(namespace, name + "." + identity, "")
    ensures Readable(namespace, name + "." + identity, "") == Readable(namespace, name, identity)
  {
    JoinedIsSubdomain(name, identity);
    DotsAssociate(namespace, name, identity);
  }

  function Rest(name: string, identity: string): string {
    if identity == "" then name else name + "." + identity
  }

  lemma Regrouped(namespace: string, name: string, identity: string)
    ensures Readable(namespace, name, identity) == namespace + "." + Rest(name, identity)
  {
    if identity == "" {
      assert namespace + "." + name + "" == namespace + "." + name;
    } else {
      assert namespace + "." + name + ("." + identity) == namespace + "." + (name + "." + identity);
    }
  }

  lemma PartsHoldNoDot(namespace: string, identity: string)
    requires IsLabel(namespace) && (identity == "" || Requests.IsIdentityName(identity))
    ensures '.' !in namespace && '.' !in identity
  {
  }

  lemma FirstPart(a: string, b: string, c: string, d: string)
    requires '.' !in a && '.' !in c && a + "." + b == c + "." + d
    ensures a == c && b == d
  {
    IndexOfFirst(a, b, '.');
    IndexOfFirst(c, d, '.');
    assert a + ['.'] + b == a + "." + b && c + ['.'] + d == c + "." + d;
    assert (a + "." + b)[..|a|] == a && (c + "." + d)[..|c|] == c;
    assert (a + "." + b)[|a| + 1..] == b && (c + "." + d)[|c| + 1..] == d;
  }

  lemma LastPart(a: string, b: string, c: string, d: string)
    requires '.' !in b && '.' !in d && a + "." + b == c + "." + d
    ensures a == c && b == d
  {
    var s, t := a + "." + b, c + "." + d;
    assert forall k | |a| < k < |s| :: s[k] == b[k - |a| - 1];
    assert forall k | |c| < k < |t| :: t[k] == d[k - |c| - 1];
    assert s[|a|] == '.' && t[|c|] == '.' && |s| == |t|;
    assert |a| == |c|;
    assert s[..|a|] == a && t[..|c|] == c && s[|a| + 1..] == b && t[|c| + 1..] == d;
  }

  lemma RestsAgree(name: string, identity: string, name': string, identity': string)
    requires '.' !in identity && '.' !in identity' && Rest(name, identity) == Rest(name', identity')
    ensures (name == name' && identity == identity')
      || (identity == "" != identity' && name == name' + "." + identity')
      || (identity' == "" != identity && name' == name + "." + identity)
  {
    if identity != "" && identity' != "" {
      LastPart(name, identity, name', identity');
    }
  }

  /**
   Exactly which issuings share a readable half: those of one namespace, name and identity, and in one
   namespace an unnamed one whose ServiceAccount's name is the other's name, a dot and its identity.
   */
  lemma ReadableIsShared(namespace: string, name: string, identity: string, namespace': string, name': string,
                         identity': string)
    requires IsIssuable(namespace, name, identity) && IsIssuable(namespace', name', identity')
    ensures Readable(namespace, name, identity) == Readable(namespace', name', identity') <==>
      namespace == namespace'
      && ((name == name' && identity == identity')
          || (identity == "" != identity' && name == name' + "." + identity')
          || (identity' == "" != identity && name' == name + "." + identity))
  {
    PartsHoldNoDot(namespace, identity);
    PartsHoldNoDot(namespace', identity');
    Regrouped(namespace, name, identity);
    Regrouped(namespace', name', identity');
    hide Readable, IsIssuable;
    if Readable(namespace, name, identity) == Readable(namespace', name', identity') {
      FirstPart(namespace, Rest(name, identity), namespace', Rest(name', identity'));
      RestsAgree(name, identity, name', identity');
    }
  }

  /** Where neither ServiceAccount's name holds a dot, then, the readable half is one issuing's. */
  lemma ReadableIsUnambiguous(namespace: string, name: string, identity: string, namespace': string, name': string,
                              identity': string)
    requires IsIssuable(namespace, name, identity) && IsIssuable(namespace', name', identity')
    requires '.' !in name && '.' !in name'
    requires Readable(namespace, name, identity) == Readable(namespace', name', identity')
    ensures namespace == namespace' && name == name' && identity == identity'
  {
    hide Readable, IsIssuable;
    ReadableIsShared(namespace, name, identity, namespace', name', identity');
    assert (name' + "." + identity')[|name'|] == '.' && (name + "." + identity)[|name|] == '.';
  }

  lemma JoinedIsSubdomain(front: string, back: string)
    requires IsSubdomain(front) && IsLabelText(back) && |front| + 1 + |back| <= 253
    ensures IsSubdomain(front + "." + back)
  {
    DottedIsLocal(front);
    LabelIsDottedLocally(back);
    DotsJoin(front, back);
    DottedIsLocal(front + "." + back);
  }

  lemma DotsAssociate(a: string, b: string, c: string)
    ensures a + "." + (b + "." + c) + "" == a + "." + b + ("." + c)
  {
  }

  lemma NoSlash(identity: string)
    requires identity == "" || Requests.IsIdentityName(identity)
    ensures '/' !in identity
  {
  }
}

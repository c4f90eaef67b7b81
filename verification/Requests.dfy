/**
 What a ServiceAccount's annotations ask of one operator (api/v1alpha1/request.go).

 One annotation key asks for one identity. A key that is gone and a key that cannot be read are
 different inputs: the first ends an identity, the second leaves it exactly as it stands.
 */
module Requests {
  import opened Names
  import opened Options
  import Sorting

  const ANNOTATION := "databricks.workload-identity.io/service-principal"

  const KEY_PREFIX := ANNOTATION + "."

  /** The name part of an annotation key holds 63 bytes, and "service-principal." is 18 of them. */
  const IDENTITY_NAME_LIMIT := 45

  type Annotations = map<string, string>

  datatype Request = Request(operator: NamespacedName, name: string) {
    /** The profile name: what a workload passes to the SDK and what its entry is keyed by. */
    function ToString(): string {
      if name == "" then operator.ToString() else name
    }
  }

  /** The keys one operator understood as its own, and the keys nobody could read. */
  datatype Requested = Requested(understood: seq<Request>, refused: seq<string>)

  function AnnotationFor(identity: string): string {
    if identity == "" then ANNOTATION else KEY_PREFIX + identity
  }

  lemma AnnotationForIsInjective(a: string, b: string)
    requires AnnotationFor(a) == AnnotationFor(b)
    ensures a == b
  {
    if a != "" && b != "" {
      assert AnnotationFor(a)[|KEY_PREFIX|..] == a && AnnotationFor(b)[|KEY_PREFIX|..] == b;
    }
  }

  predicate IsIdentityName(name: string) {
    |name| <= IDENTITY_NAME_LIMIT && IsLabelText(name)
  }

  /** The keys are these, and a name is one when its key is one that Kubernetes takes. */
  lemma KeysAreLegal(name: string)
    ensures AnnotationFor("") == "databricks.workload-identity.io/service-principal"
    ensures name != "" ==> AnnotationFor(name) == "databricks.workload-identity.io/" + ("service-principal." + name)
    ensures IsIdentityName(name) <==> IsLabelText(name) && |"service-principal." + name| <= 63
  {
    assert KEY_PREFIX + name == "databricks.workload-identity.io/" + ("service-principal." + name);
  }

  method ValidIdentityName(name: string) returns (valid: bool)
    ensures valid <==> IsIdentityName(name)
  {
    if name == "" || |name| > IDENTITY_NAME_LIMIT {
      return false;
    }
    for i := 0 to |name|
      invariant forall j | 0 <= j < i :: IsAlnum(name[j]) || (name[j] == '-' && 0 < j < |name| - 1)
    {
      if !IsAlnum(name[i]) && !(name[i] == '-' && 0 < i < |name| - 1) {
        return false;
      }
    }
    return true;
  }

  /** The operator a key's value names, when its halves are names Kubernetes would accept. */
  function ParseOperator(value: string): Option<NamespacedName> {
    var reference := TrimSpace(value);
    var slash := IndexOf(reference, '/');
    if slash == |reference| || !IsLabel(reference[..slash]) || !IsSubdomain(reference[slash + 1..])
    then None
    else Some(NamespacedName(reference[..slash], reference[slash + 1..]))
  }

  /** An operator reference a DatabricksAccount can have: both halves are legal names. */
  predicate IsOperator(operator: NamespacedName) {
    IsLabel(operator.namespace) && IsSubdomain(operator.name)
  }

  /** Writing an operator's reference and reading it back finds that operator and no other. */
  lemma ParseOperatorRoundTrip(operator: NamespacedName)
    ensures ParseOperator(operator.ToString()) == Some(operator) <==> IsOperator(operator)
  {
    if IsOperator(operator) {
      ReferenceHasOneSlash(operator);
      NothingToTrim(operator.ToString());
    }
  }

  lemma ReferenceHasOneSlash(operator: NamespacedName)
    requires IsOperator(operator)
    ensures forall c | c in operator.ToString() :: !IsSpace(c)
    ensures '/' !in operator.namespace && '/' !in operator.name
    ensures IndexOf(operator.ToString(), '/') == |operator.namespace|
    ensures operator.ToString()[..|operator.namespace|] == operator.namespace
    ensures operator.ToString()[|operator.namespace| + 1..] == operator.name
  {
    DottedIsLocal(operator.name);
    forall c | c in operator.namespace || c in operator.name
      ensures c == '-' || c == '.' || IsAlnum(c)
    {
    }
    assert operator.ToString() == operator.namespace + ['/'] + operator.name;
    IndexOfFirst(operator.namespace, operator.name, '/');
  }

  /** A value is an operator's exactly when it is its reference, with any white space around it. */
  lemma ParsedIff(value: string, operator: NamespacedName)
    ensures ParseOperator(value) == Some(operator) <==>
      IsOperator(operator) && exists before, after ::
        IsAround(before, after) && value == before + (operator.namespace + "/" + operator.name) + after
  {
    var reference := operator.namespace + "/" + operator.name;
    if ParseOperator(value) == Some(operator) {
      var before, after := TrimTakesSpace(value);
      var slash := IndexOf(TrimSpace(value), '/');
      assert TrimSpace(value) == TrimSpace(value)[..slash] + "/" + TrimSpace(value)[slash + 1..] == reference;
      assert IsAround(before, after);
    }
    if before, after :| IsOperator(operator) && IsAround(before, after) && value == before + reference + after {
      assert reference == operator.ToString();
      ReferenceHasOneSlash(operator);
      assert reference[0] in reference && reference[|reference| - 1] in reference;
      SpaceIsTrimmed(before, reference, after);
      NothingToTrim(reference);
      ParseOperatorRoundTrip(operator);
    }
  }

  ghost predicate IsAround(before: string, after: string) {
    IsAllSpace(before) && IsAllSpace(after)
  }

  /** What one annotation says: nothing of ours, a key that cannot be read, or a request. */
  datatype Reading = Unrelated | Refused | Asks(request: Request)

  function ReadKey(key: string, value: string): Reading {
    if KEY_PREFIX <= key then
      if IsIdentityName(key[|KEY_PREFIX|..]) then ReadValue(key[|KEY_PREFIX|..], value) else Refused
    else if key == ANNOTATION then
      ReadValue("", value)
    else
      Unrelated
  }

  function ReadValue(name: string, value: string): Reading {
    match ParseOperator(value)
    case None => Refused
    case Some(operator) => Asks(Request(operator, name))
  }

  lemma ReadKeyNamesItsKey(key: string, value: string)
    ensures ReadKey(key, value).Asks? ==> AnnotationFor(ReadKey(key, value).request.name) == key
  {
    if KEY_PREFIX <= key {
      assert key == KEY_PREFIX + key[|KEY_PREFIX|..];
    }
  }

  /** Whether these annotations make this request, of whichever operator it names. */
  predicate Asked(annotations: Annotations, request: Request) {
    var key := AnnotationFor(request.name);
    key in annotations && ReadKey(key, annotations[key]) == Asks(request)
  }

  /** What it is for requested to be what these annotations ask of this operator. */
  ghost predicate Reads(annotations: Annotations, operator: NamespacedName, requested: Requested) {
    && Sorting.KeysOrdered(requested.understood, (r: Request) => r.name)
    && Sorting.KeysOrdered(requested.refused, (k: string) => k)
    && (forall r :: r in requested.understood <==> r.operator == operator && Asked(annotations, r))
    && (forall k :: k in requested.refused <==> k in annotations && ReadKey(k, annotations[k]) == Refused)
  }

  /**
   Reads every service-principal annotation as one operator. Map iteration order is arbitrary, so the
   loop takes whichever key comes; that the answer does not depend on it is ReadsIsUnique.
   */
  method RequestsFor(annotations: Annotations, operator: NamespacedName) returns (requested: Requested)
    ensures Reads(annotations, operator, requested)
  {
    var understood: seq<Request>, refused: seq<string> := [], [];
    var keys := annotations.Keys;
    while keys != {}
      invariant keys <= annotations.Keys
      invariant Sorting.KeysDistinct(understood, (r: Request) => r.name)
      invariant Sorting.KeysDistinct(refused, (k: string) => k)
      invariant forall r :: r in understood <==>
        r.operator == operator && Asked(annotations, r) && AnnotationFor(r.name) !in keys
      invariant forall k :: k in refused <==> k in annotations.Keys - keys && ReadKey(k, annotations[k]) == Refused
      decreases |keys|
    {
      var key :| key in keys;
      keys := keys - {key};
      ReadKeyNamesItsKey(key, annotations[key]);
      forall r: Request | AnnotationFor(r.name) == key && ReadKey(key, annotations[key]).Asks?
        ensures r.name == ReadKey(key, annotations[key]).request.name
      {
        AnnotationForIsInjective(r.name, ReadKey(key, annotations[key]).request.name);
      }
      match ReadKey(key, annotations[key]) {
        case Unrelated =>
        case Refused =>
          refused := refused + [key];
        case Asks(request) =>
          if request.operator == operator {
            understood := understood + [request];
          }
      }
    }
    Sorting.SortKeeps(understood, (r: Request) => r.name);
    Sorting.SortKeeps(refused, (k: string) => k);
    requested := Requested(Sorting.SortBy(understood, (r: Request) => r.name),
                           Sorting.SortBy(refused, (k: string) => k));
  }

  method Unreadable(requested: Requested, identity: string) returns (unreadable: bool)
    ensures unreadable <==> AnnotationFor(identity) in requested.refused
  {
    var key := AnnotationFor(identity);
    for i := 0 to |requested.refused|
      invariant key !in requested.refused[..i]
    {
      if requested.refused[i] == key {
        return true;
      }
    }
    return false;
  }

  ghost predicate IsNoLongerAsked(requested: Requested, identity: string) {
    (forall r | r in requested.understood :: r.name != identity) && AnnotationFor(identity) !in requested.refused
  }

  method NoLongerAsked(requested: Requested, identity: string) returns (gone: bool)
    ensures gone <==> IsNoLongerAsked(requested, identity)
  {
    for i := 0 to |requested.understood|
      invariant forall r | r in requested.understood[..i] :: r.name != identity
    {
      if requested.understood[i].name == identity {
        return false;
      }
    }
    var unreadable := Unreadable(requested, identity);
    return !unreadable;
  }

  /** Let go of: the key is gone, or it can be read and names somebody else. */
  predicate LetsGo(annotations: Annotations, operator: NamespacedName, identity: string) {
    var key := AnnotationFor(identity);
    key !in annotations
    || ((identity == "" || IsIdentityName(identity))
        && ParseOperator(annotations[key]).Some? && ParseOperator(annotations[key]).value != operator)
  }

  predicate AsksFor(annotations: Annotations, operator: NamespacedName, identity: string) {
    var key := AnnotationFor(identity);
    key in annotations && (identity == "" || IsIdentityName(identity))
      && ParseOperator(annotations[key]) == Some(operator)
  }

  /** Held: the key is there and cannot be read, so nothing may be concluded from it. */
  predicate Holds(annotations: Annotations, identity: string) {
    var key := AnnotationFor(identity);
    key in annotations && !((identity == "" || IsIdentityName(identity)) && ParseOperator(annotations[key]).Some?)
  }

  lemma ReadKeyOf(identity: string, value: string)
    ensures ReadKey(AnnotationFor(identity), value) ==
            if identity == "" || IsIdentityName(identity) then ReadValue(identity, value) else Refused
  {
    if identity != "" {
      assert AnnotationFor(identity)[|KEY_PREFIX|..] == identity;
    }
  }

  /** The order in which a map hands back its keys decides nothing. */
  lemma ReadsIsUnique(annotations: Annotations, operator: NamespacedName, p: Requested, q: Requested)
    requires Reads(annotations, operator, p) && Reads(annotations, operator, q)
    ensures p == q
  {
    assert Ordered(p.refused) && Ordered(q.refused);
    OrderedIsUnique(p.refused, q.refused);
    var pn := seq(|p.understood|, i requires 0 <= i < |p.understood| => p.understood[i].name);
    var qn := seq(|q.understood|, i requires 0 <= i < |q.understood| => q.understood[i].name);
    forall x
      ensures x in pn <==> x in qn
    {
      if x in pn { NamesAgree(annotations, operator, p, q, pn, qn, x); }
      if x in qn { NamesAgree(annotations, operator, q, p, qn, pn, x); }
    }
    OrderedIsUnique(pn, qn);
    forall i | 0 <= i < |pn|
      ensures p.understood[i] == q.understood[i]
    {
      assert p.understood[i] in p.understood && q.understood[i] in q.understood;
      assert pn[i] == qn[i];
    }
  }

  lemma NamesAgree(annotations: Annotations, operator: NamespacedName, p: Requested, q: Requested, pn: seq<string>,
                   qn: seq<string>, x: string)
    requires Reads(annotations, operator, p) && Reads(annotations, operator, q)
    requires |pn| == |p.understood| && forall i | 0 <= i < |pn| :: pn[i] == p.understood[i].name
    requires |qn| == |q.understood| && forall i | 0 <= i < |qn| :: qn[i] == q.understood[i].name
    requires x in pn
    ensures x in qn
  {
    var i :| 0 <= i < |pn| && pn[i] == x;
    assert p.understood[i] in p.understood;
    assert p.understood[i] in q.understood;
    var j :| 0 <= j < |q.understood| && q.understood[j] == p.understood[i];
    assert qn[j] == x;
  }

  /** NoLongerAsked is true exactly where the key is gone or can be read and names somebody else. */
  lemma LettingGoIsExact(annotations: Annotations, operator: NamespacedName, requested: Requested, identity: string)
    requires Reads(annotations, operator, requested)
    ensures IsNoLongerAsked(requested, identity) <==> LetsGo(annotations, operator, identity)
    ensures Request(operator, identity) in requested.understood <==> AsksFor(annotations, operator, identity)
    ensures AnnotationFor(identity) in requested.refused <==> Holds(annotations, identity)
  {
    var key := AnnotationFor(identity);
    if key in annotations {
      ReadKeyOf(identity, annotations[key]);
    }
  }

  /** Every identity is exactly one of asked for, held and let go of. */
  lemma OneAnswerEach(annotations: Annotations, operator: NamespacedName, identity: string)
    ensures AsksFor(annotations, operator, identity) ==>
      !Holds(annotations, identity) && !LetsGo(annotations, operator, identity)
    ensures Holds(annotations, identity) ==> !LetsGo(annotations, operator, identity)
    ensures AsksFor(annotations, operator, identity) || Holds(annotations, identity)
      || LetsGo(annotations, operator, identity)
  {
  }

  /** Two requests read off one set of annotations, by whichever operators, have different profiles. */
  lemma ProfilesNeverCollide(annotations: Annotations, r: Request, q: Request)
    requires Asked(annotations, r) && Asked(annotations, q)
    requires r.ToString() == q.ToString()
    ensures r == q
  {
    ReadKeyOf(r.name, annotations[AnnotationFor(r.name)]);
    ReadKeyOf(q.name, annotations[AnnotationFor(q.name)]);
    NamedHoldsNoSlash(annotations, r);
    NamedHoldsNoSlash(annotations, q);
  }

  lemma NamedHoldsNoSlash(annotations: Annotations, r: Request)
    requires Asked(annotations, r)
    ensures '/' in r.ToString() <==> r.name == ""
  {
    ReadKeyOf(r.name, annotations[AnnotationFor(r.name)]);
    assert r.operator.ToString()[|r.operator.namespace|] == '/';
  }
}

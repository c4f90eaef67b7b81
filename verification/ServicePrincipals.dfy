/**
 Finding again the service principal one record made
 (internal/databricks/serviceprincipals.go:60-200, 283-378).

 SHA-256 in base32 is taken as a function that gives a text of a fixed width. Where two texts must not
 be told for one another, it is the two hashes that are asked to differ.
 */
module ServicePrincipals {
  import opened Names
  import opened Options

  const DISPLAY_NAME_LIMIT := 100
  const PART_WIDTH := 12

  datatype Issuing = Issuing(issuer: string, namespace: string, name: string, uid: string, operator: string,
                             identity: string)

  /** The first characters of a hash. */
  type Hash = string -> string

  ghost predicate IsPart(part: Hash) {
    forall s :: |part(s)| == PART_WIDTH
  }

  function MarkerFor(part: Hash, issuing: Issuing): string {
    part(issuing.issuer) + part(issuing.operator) + part(issuing.uid + "/" + issuing.identity)
  }

  function ClusterMarker(part: Hash, issuer: string): string {
    part(issuer)
  }

  /** Two different inputs that hash to one text. */
  predicate Collides(part: Hash, a: string, b: string) {
    a != b && part(a) == part(b)
  }

  predicate PartsCollide(part: Hash, a: Issuing, b: Issuing) {
    || Collides(part, a.issuer, b.issuer) || Collides(part, a.operator, b.operator)
    || Collides(part, a.uid + "/" + a.identity, b.uid + "/" + b.identity)
  }

  /** What is hashed together can be taken apart again, because no identity's name holds a slash. */
  lemma {:induction false} UidAndIdentity(a: string, i: string, b: string, j: string)
    requires '/' !in i && '/' !in j && a + "/" + i == b + "/" + j
    ensures a == b && i == j
  {
    var s, t := a + "/" + i, b + "/" + j;
    assert forall k | |a| < k < |s| :: s[k] == i[k - |a| - 1];
    assert forall k | |b| < k < |t| :: t[k] == j[k - |b| - 1];
    assert s[|a|] == '/' && t[|b|] == '/' && |s| == |t|;
    assert |a| == |b|;
    assert s[..|a|] == a && t[..|b|] == b && s[|a| + 1..] == i && t[|b| + 1..] == j;
  }

  /** Where no hash collides, a marker is one cluster's, one operator's, and one identity's of one uid. */
  lemma MarkersApart(part: Hash, a: Issuing, b: Issuing)
    requires IsPart(part) && '/' !in a.identity && '/' !in b.identity && !PartsCollide(part, a, b)
    ensures MarkerFor(part, a) == MarkerFor(part, b) <==>
      a.issuer == b.issuer && a.operator == b.operator && a.uid == b.uid && a.identity == b.identity
  {
    var m, n := MarkerFor(part, a), MarkerFor(part, b);
    if m == n {
      assert part(a.issuer) == m[..12] && part(b.issuer) == n[..12];
      assert part(a.operator) == m[12..24] && part(b.operator) == n[12..24];
      assert part(a.uid + "/" + a.identity) == m[24..] && part(b.uid + "/" + b.identity) == n[24..];
      UidAndIdentity(a.uid, a.identity, b.uid, b.identity);
    }
  }

  /** It fits in externalId, in three parts, and everything one cluster issued begins alike. */
  lemma MarkerFits(part: Hash, issuing: Issuing)
    requires IsPart(part)
    ensures var marker := MarkerFor(part, issuing);
      && |marker| == 36 && marker[..12] == part(issuing.issuer) && marker[12..24] == part(issuing.operator)
      && marker[24..] == part(issuing.uid + "/" + issuing.identity)
      && ClusterMarker(part, issuing.issuer) <= marker
  {
  }

  /** For people: cut where it does not fit, and so neither unique nor reversible. */
  function DisplayNameFor(namespace: string, name: string, identity: string): (display: string)
    ensures |display| <= DISPLAY_NAME_LIMIT
  {
    var full := "k8s-" + namespace + "-" + name + if identity != "" then "-" + identity else "";
    if |full| <= DISPLAY_NAME_LIMIT then full else full[..DISPLAY_NAME_LIMIT]
  }

  /** What it says, as far as a hundred characters go. */
  lemma DisplaySays(namespace: string, name: string, identity: string)
    ensures var display := DisplayNameFor(namespace, name, identity);
      && display <= "k8s-" + namespace + "-" + name + (if identity == "" then "" else "-" + identity)
      && (|display| < 100 ==> |display| == 4 + |namespace| + 1 + |name| + if identity == "" then 0 else 1 + |identity|)
  {
    assert identity == "" ==> "k8s-" + namespace + "-" + name + "" == "k8s-" + namespace + "-" + name;
  }

  datatype Principal = Principal(id: string, applicationId: string, displayName: string, externalId: string)

  /** Unanswered is a listing that failed. */
  datatype Lookup = NoIssuer | Unanswered | NotFound | Found(id: string, clientId: string) | Ambiguous

  function CarryingOf(principals: seq<Principal>, marker: string): seq<Principal> {
    if principals == [] then []
    else
      var before, last := CarryingOf(principals[..|principals| - 1], marker), principals[|principals| - 1];
      if last.externalId == marker then before + [last] else before
  }

  method Carrying(principals: seq<Principal>, marker: string) returns (carried: seq<Principal>)
    ensures carried == CarryingOf(principals, marker)
  {
    carried := [];
    for i := 0 to |principals|
      invariant carried == CarryingOf(principals[..i], marker)
    {
      assert principals[..i + 1][..i] == principals[..i];
      if principals[i].externalId == marker {
        carried := carried + [principals[i]];
      }
    }
    assert principals[..|principals|] == principals;
  }

  /** What Databricks answers a filter on the display name. */
  function Namesakes(account: seq<Principal>, display: string): seq<Principal> {
    if account == [] then []
    else
      var before, last := Namesakes(account[..|account| - 1], display), account[|account| - 1];
      if last.displayName == display then before + [last] else before
  }

  function AnswerFrom(candidates: seq<Principal>): Lookup {
    if |candidates| == 0 then NotFound
    else if |candidates| == 1 then Found(candidates[0].id, candidates[0].applicationId)
    else Ambiguous
  }

  /** Reading the whole account, and comparing markers alone. */
  function FullScan(account: seq<Principal>, marker: string): Lookup {
    AnswerFrom(CarryingOf(account, marker))
  }

  /** What two listings come to, each of which may fail, and between which the account may change. */
  function LookedUp(named: Option<seq<Principal>>, whole: Option<seq<Principal>>, marker: string): Lookup {
    if named.None? then Unanswered
    else if CarryingOf(named.value, marker) != [] then AnswerFrom(CarryingOf(named.value, marker))
    else if whole.None? then Unanswered
    else AnswerFrom(CarryingOf(whole.value, marker))
  }

  function TwoStages(account: seq<Principal>, display: string, marker: string): Lookup {
    LookedUp(Some(Namesakes(account, display)), Some(account), marker)
  }

  /** The marker decides and the display name only narrows what is read first. */
  method FindServicePrincipal(part: Hash, named: string -> Option<seq<Principal>>, whole: Option<seq<Principal>>,
                              issuing: Issuing)
    returns (answer: Lookup)
    ensures answer == if TrimSpace(issuing.issuer) == "" then NoIssuer
                      else LookedUp(named(DisplayNameFor(issuing.namespace, issuing.name, issuing.identity)), whole,
                                    MarkerFor(part, issuing))
  {
    if TrimSpace(issuing.issuer) == "" {
      return NoIssuer;
    }
    var display := DisplayNameFor(issuing.namespace, issuing.name, issuing.identity);
    var marker := MarkerFor(part, issuing);
    var namesakes := named(display);
    if namesakes.None? {
      return Unanswered;
    }
    var candidates := Carrying(namesakes.value, marker);
    if |candidates| == 0 {
      if whole.None? {
        return Unanswered;
      }
      candidates := Carrying(whole.value, marker);
    }
    if |candidates| == 0 {
      return NotFound;
    }
    if |candidates| == 1 {
      return Found(candidates[0].id, candidates[0].applicationId);
    }
    return Ambiguous;
  }

  lemma {:induction false} NarrowIsWithin(account: seq<Principal>, display: string, marker: string)
    ensures var narrow, all := CarryingOf(Namesakes(account, display), marker), CarryingOf(account, marker);
      |narrow| <= |all| && (|narrow| == |all| ==> narrow == all)
  {
    if account != [] {
      var before, last := account[..|account| - 1], account[|account| - 1];
      NarrowIsWithin(before, display, marker);
      if last.displayName == display {
        var names := Namesakes(before, display);
        assert (names + [last])[..|names|] == names;
      }
    }
  }

  /**
   Two stages answer what one scan of the whole account would, whatever has been renamed, but for one
   case: exactly one namesake carries the marker, and so does something else.
   */
  lemma TwoStagesAreOneScan(account: seq<Principal>, display: string, marker: string)
    ensures TwoStages(account, display, marker) == FullScan(account, marker) <==>
      !(|CarryingOf(Namesakes(account, display), marker)| == 1 && |CarryingOf(account, marker)| >= 2)
  {
    NarrowIsWithin(account, display, marker);
  }

  lemma {:induction false} CarryingIs(principals: seq<Principal>, marker: string, p: Principal)
    ensures p in CarryingOf(principals, marker) <==> p in principals && p.externalId == marker
  {
    if principals != [] {
      var before, last := principals[..|principals| - 1], principals[|principals| - 1];
      assert principals == before + [last];
      CarryingIs(before, marker, p);
    }
  }

  predicate Lists(listing: Option<seq<Principal>>, p: Principal) {
    listing.Some? && p in listing.value
  }

  ghost predicate ListsTheMarker(listing: Option<seq<Principal>>, marker: string) {
    exists p :: Lists(listing, p) && p.externalId == marker
  }

  lemma CarryingIsListed(listing: seq<Principal>, marker: string)
    ensures CarryingOf(listing, marker) != [] <==> ListsTheMarker(Some(listing), marker)
    ensures forall p | p in CarryingOf(listing, marker) :: p in listing && p.externalId == marker
  {
    forall p
      ensures p in CarryingOf(listing, marker) <==> p in listing && p.externalId == marker
    {
      CarryingIs(listing, marker, p);
    }
    if CarryingOf(listing, marker) != [] {
      assert Lists(Some(listing), CarryingOf(listing, marker)[0]) by {
        assert CarryingOf(listing, marker)[0] in CarryingOf(listing, marker);
      }
    }
    if p :| Lists(Some(listing), p) && p.externalId == marker {
      assert p in CarryingOf(listing, marker);
    }
  }

  /**
   Whatever changes between the two listings: what is found was listed and carries the marker, and "not
   found" is said exactly when both were answered and neither shows it. A failed listing is never taken
   for an empty one.
   */
  lemma FoundCarriesTheMarker(named: Option<seq<Principal>>, whole: Option<seq<Principal>>, marker: string)
    ensures var answer := LookedUp(named, whole, marker);
      && (answer.Found? ==> exists p :: (Lists(named, p) || Lists(whole, p)) && p.externalId == marker
                                        && answer == Found(p.id, p.applicationId))
      && (answer.NotFound? <==>
           named.Some? && whole.Some? && !ListsTheMarker(named, marker) && !ListsTheMarker(whole, marker))
      && (answer.Unanswered? <==> named.None? || (!ListsTheMarker(named, marker) && whole.None?))
  {
    if named.Some? {
      CarryingIsListed(named.value, marker);
      if CarryingOf(named.value, marker) != [] {
        assert Lists(named, CarryingOf(named.value, marker)[0]);
      } else if whole.Some? {
        CarryingIsListed(whole.value, marker);
        if CarryingOf(whole.value, marker) != [] {
          assert Lists(whole, CarryingOf(whole.value, marker)[0]);
        }
      }
    }
  }

  /** The one case at an account: two carry the marker and one was renamed. One scan would adopt neither. */
  lemma RenamedTwin(first: Principal, second: Principal, marker: string)
    requires first.externalId == second.externalId == marker && first.displayName != second.displayName
    ensures TwoStages([first, second], first.displayName, marker) == Found(first.id, first.applicationId)
    ensures TwoStages([first, second], second.displayName, marker) == Found(second.id, second.applicationId)
    ensures FullScan([first, second], marker) == Ambiguous
  {
    assert [first, second][..1] == [first] && [first][..0] == [];
    assert CarryingOf([first], marker) == [first] && CarryingOf([second], marker) == [second] by {
      assert [second][..0] == [];
    }
    assert Namesakes([first], first.displayName) == [first] && Namesakes([first], second.displayName) == [];
    assert Namesakes([first, second], first.displayName) == [first];
    assert Namesakes([first, second], second.displayName) == [second];
    assert CarryingOf([first, second], marker) == [first, second];
  }
}

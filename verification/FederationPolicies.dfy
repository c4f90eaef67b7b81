/**
 The policy that makes a workload's token exchangeable, under a name derived from whom it trusts
 (internal/databricks/serviceprincipals.go:202-281, 480-677).

 A get may miss a policy that was just written and a listing may show any part of what is there, but
 neither shows what is not. A create under a taken name is refused. Any call may fail, having taken
 effect or not. A create that Databricks names otherwise says so.
 */
module FederationPolicies {
  import opened Names
  import opened Options

  datatype Oidc = Oidc(issuer: string, subject: string, audiences: seq<string>)

  datatype Policy = Policy(description: string, oidc: Option<Oidc>)

  /** One policy's name: the service principal it hangs off, and its own id there. */
  datatype Name = Name(principal: int, id: string)

  type Standing = map<Name, Policy>

  const POLICY_ID_PREFIX := "k8s-"
  const POLICY_ID_FLOOR := 2
  const POLICY_ID_CEILING := 63
  const INT64_MAX := 0x7FFF_FFFF_FFFF_FFFF

  type Hash = string -> string

  predicate IsBase32(c: char) {
    'A' <= c <= 'Z' || '2' <= c <= '7'
  }

  ghost predicate IsPart(part: Hash) {
    forall s :: |part(s)| == 12 && forall c | c in part(s) :: IsBase32(c)
  }

  function LowerChar(c: char): char {
    if 'A' <= c <= 'Z' then (c as int + 32) as char else c
  }

  function Lower(s: string): string {
    seq(|s|, i requires 0 <= i < |s| => LowerChar(s[i]))
  }

  function FederationPolicyIdFor(part: Hash, issuer: string, subject: string): string {
    POLICY_ID_PREFIX + Lower(part(issuer) + part(subject))
  }

  /** A policy id is one issuer's and one subject's, where their hashes do not collide, of a length Databricks takes. */
  lemma PolicyIdsApart(part: Hash, issuer: string, subject: string, issuer': string, subject': string)
    requires IsPart(part)
    ensures var id := FederationPolicyIdFor(part, issuer, subject);
      && POLICY_ID_FLOOR <= |id| <= POLICY_ID_CEILING && "k8s-" <= id
      && id[4..16] == Lower(part(issuer)) && id[16..] == Lower(part(subject))
    ensures FederationPolicyIdFor(part, issuer, subject) == FederationPolicyIdFor(part, issuer', subject') <==>
      part(issuer) == part(issuer') && part(subject) == part(subject')
  {
    var a, b := part(issuer) + part(subject), part(issuer') + part(subject');
    var s, t := FederationPolicyIdFor(part, issuer, subject), FederationPolicyIdFor(part, issuer', subject');
    assert s[4..16] == Lower(a)[..12] == Lower(part(issuer)) && s[16..] == Lower(a)[12..] == Lower(part(subject));
    if s == t {
      assert s[4..] == Lower(a) && t[4..] == Lower(b);
      forall i | 0 <= i < 24
        ensures a[i] == b[i]
      {
        assert Lower(a)[i] == LowerChar(a[i]) && Lower(b)[i] == LowerChar(b[i]);
        assert a[i] in part(issuer) || a[i] in part(subject);
        assert b[i] in part(issuer') || b[i] in part(subject');
      }
      assert a == b && a[..12] == part(issuer) && b[..12] == part(issuer') && a[12..] == part(subject)
        && b[12..] == part(subject');
    }
  }

  /******* strconv.ParseInt(s, 10, 64) *******/

  predicate IsDigits(s: string) {
    forall i | 0 <= i < |s| :: '0' <= s[i] <= '9'
  }

  function Number(s: string): (n: int)
    requires IsDigits(s)
    ensures n >= 0
  {
    if s == "" then 0 else Number(s[..|s| - 1]) * 10 + (s[|s| - 1] as int - '0' as int)
  }

  function ParseInt(s: string): Option<int> {
    var signed := s != "" && (s[0] == '+' || s[0] == '-');
    var digits := if signed then s[1..] else s;
    if digits == "" || !IsDigits(digits) then None
    else
      var n: int := if signed && s[0] == '-' then -Number(digits) else Number(digits);
      if -INT64_MAX - 1 <= n <= INT64_MAX then Some(n) else None
  }

  /** A number as it is written: no sign but a minus, and no zero before another digit. */
  function Decimal(n: nat): (s: string)
    ensures s != "" && IsDigits(s)
  {
    if n < 10 then [Digit(n)] else Decimal(n / 10) + [Digit(n % 10)]
  }

  function Digit(n: nat): (c: char)
    requires n < 10
    ensures '0' <= c <= '9' && c as int - '0' as int == n
  {
    (n + '0' as int) as char
  }

  lemma {:induction false} NumberOfDecimal(n: nat)
    ensures Number(Decimal(n)) == n
  {
    if n >= 10 {
      NumberOfDecimal(n / 10);
      assert Decimal(n)[..|Decimal(n)| - 1] == Decimal(n / 10);
    } else {
      assert [Digit(n)][..0] == "";
    }
  }

  /** An id written as Databricks writes it is read as its number, up to what 64 bits hold. */
  lemma ParseIntReadsBack(n: nat)
    ensures if n <= INT64_MAX then ParseInt(Decimal(n)) == Some(n) else ParseInt(Decimal(n)).None?
    ensures
      if n <= INT64_MAX + 1 then ParseInt("-" + Decimal(n)) == Some(-(n as int))
      else ParseInt("-" + Decimal(n)).None?
  {
    NumberOfDecimal(n);
    assert ("-" + Decimal(n))[1..] == Decimal(n);
  }

  /******* Databricks *******/

  datatype Got = Standing(policy: Policy) | Missing | Unanswered

  datatype Listed = Listed(name: Name, policy: Policy)

  datatype Made = Created(id: string) | Taken | Refused

  class Account {
    var standing: map<Name, Policy>
    /** Whether every call gets its answer, and whether a create gets the name it asked for. */
    const answers: bool
    const namesAsAsked: bool

    constructor (standing: map<Name, Policy>, answers: bool, namesAsAsked: bool)
      ensures this.standing == standing && this.answers == answers && this.namesAsAsked == namesAsAsked
    {
      this.standing, this.answers, this.namesAsAsked := standing, answers, namesAsAsked;
    }

    method Get(name: Name) returns (got: Got)
      ensures got.Standing? ==> name in standing && standing[name] == got.policy
      ensures answers ==> !got.Unanswered?
    {
      var answered: bool, shown: bool := *, *;
      if !answered && !answers {
        return Unanswered;
      }
      if name in standing && shown {
        return Standing(standing[name]);
      }
      return Missing;
    }

    /** An answer may carry no id at all, when the policy has the name it was given. */
    method Create(name: Name, policy: Policy) returns (made: Made)
      modifies this
      ensures made.Taken? ==> name in standing && standing == old(standing)
      ensures made.Created? && (made.id == "" || made.id == name.id) ==> standing == old(standing)[name := policy]
      ensures made.Created? && made.id != "" && made.id != name.id ==>
        Name(name.principal, made.id) !in old(standing)
          && standing == old(standing)[Name(name.principal, made.id) := policy]
      ensures made.Refused? ==> standing == old(standing) || standing == old(standing)[name := policy]
      ensures made.Created? ==> name !in old(standing) || made.id != name.id
      ensures name in old(standing) ==> standing == old(standing)
      ensures answers ==> !made.Refused?
      ensures namesAsAsked && made.Created? ==> made.id == "" || made.id == name.id
    {
      var answered: bool, effect: bool, misnamed: bool, says: bool := *, *, *, *;
      var other: string := *;
      if name in standing {
        return if answered || answers then Taken else Refused;
      }
      if !answered && !answers {
        if effect {
          standing := standing[name := policy];
        }
        return Refused;
      }
      if misnamed && !namesAsAsked && other != "" && other != name.id && Name(name.principal, other) !in standing {
        standing := standing[Name(name.principal, other) := policy];
        return Created(other);
      }
      standing := standing[name := policy];
      return Created(if says then name.id else "");
    }

    /** Only what the mask names is written. */
    method Update(name: Name, oidc: Oidc) returns (err: bool)
      modifies this
      ensures !err ==>
        name in old(standing)
        && standing == old(standing)[name := old(standing)[name].(oidc := Some(oidc))]
      ensures err ==> (standing == old(standing)
        || (name in old(standing) && standing == old(standing)[name := old(standing)[name].(oidc := Some(oidc))]))
      ensures answers && name in old(standing) ==> !err
    {
      var answered: bool, effect: bool := *, *;
      answered := answered || answers;
      if name !in standing {
        return true;
      }
      if answered || effect {
        standing := standing[name := standing[name].(oidc := Some(oidc))];
      }
      err := !answered;
    }

    /** One already gone is not a failure. */
    method Forget(name: Name) returns (err: bool)
      modifies this
      ensures standing == old(standing) - {name} || (err && standing == old(standing))
      ensures answers ==> !err
    {
      var answered: bool, effect: bool := *, *;
      answered := answered || answers;
      if answered || effect {
        standing := standing - {name};
      }
      err := !answered;
    }

    /** Of what hangs off this service principal, whatever the listing has caught up with. None is its failing. */
    method List(principal: int, shows: set<string>) returns (listed: Option<seq<Listed>>)
      ensures answers ==> listed.Some?
      ensures listed.Some? ==> forall l :: l in listed.value <==>
        l.name in standing && l.name.principal == principal && l.name.id in shows && standing[l.name] == l.policy
    {
      var answered: bool := *;
      if !answered && !answers {
        return None;
      }
      var all: seq<Listed> := [];
      var todo := standing.Keys;
      while todo != {}
        invariant todo <= standing.Keys
        invariant forall l :: l in all <==>
          l.name in standing && l.name !in todo && l.name.principal == principal && l.name.id in shows
            && standing[l.name] == l.policy
        decreases |todo|
      {
        var n :| n in todo;
        todo := todo - {n};
        if n.principal == principal && n.id in shows {
          all := all + [Listed(n, standing[n])];
        }
      }
      listed := Some(all);
    }
  }

  /******* Ensuring *******/

  function PolicyFor(issuer: string, subject: string, audience: string): Policy {
    Policy("Kubernetes workload " + subject, Some(Oidc(issuer, subject, [audience])))
  }

  predicate Trusts(policy: Policy, issuer: string, subject: string, audience: string) {
    policy.oidc.Some? && policy.oidc.value.issuer == issuer && policy.oidc.value.subject == subject
    && policy.oidc.value.audiences == [audience]
  }

  /** The policy stands under its name and trusts this audience, and no other policy was touched. */
  predicate Ensured(before: Standing, after: Standing, name: Name, issuer: string, subject: string, audience: string) {
    && name in after && after[name].oidc == Some(Oidc(issuer, subject, [audience]))
    && after.Keys == before.Keys + {name}
    && forall n | n in before && n != name :: after[n] == before[n]
  }

  /** Whatever a failed call did: to the policy of this name, or a new one it could not name. */
  predicate AtMostTouched(before: Standing, after: Standing, name: Name) {
    && (forall n | n in before && n != name :: n in after && after[n] == before[n])
    && (name in before ==> name in after)
    && (forall n, m | n in after.Keys - before.Keys - {name} && m in after.Keys - before.Keys - {name} :: n == m)
  }

  class Clients {
    const account: Account
    const part: Hash

    constructor (account: Account, part: Hash)
      ensures this.account == account && this.part == part
    {
      this.account, this.part := account, part;
    }

    /** One name, so that writing the policy twice writes one policy. */
    method EnsureFederationPolicy(principal: string, issuer: string, subject: string, audience: string)
      returns (err: bool)
      modifies account
      ensures ParseInt(principal).None? ==> err && account.standing == old(account.standing)
      ensures !err && ParseInt(principal).Some? ==>
        Ensured(old(account.standing), account.standing,
                Name(ParseInt(principal).value, FederationPolicyIdFor(part, issuer, subject)),
                issuer, subject, audience)
      ensures ParseInt(principal).Some? && account.answers && account.namesAsAsked ==> !err
      ensures err && ParseInt(principal).Some? ==>
        AtMostTouched(old(account.standing), account.standing,
                      Name(ParseInt(principal).value, FederationPolicyIdFor(part, issuer, subject)))
    {
      var numeric := ParseInt(principal);
      if numeric.None? {
        return true;
      }
      var name := Name(numeric.value, FederationPolicyIdFor(part, issuer, subject));
      var got := account.Get(name);
      match got {
        case Standing(policy) =>
          if Trusts(policy, issuer, subject, audience) {
            return false;
          }
          err := RestateFederationPolicy(name, issuer, subject, audience);
          return;
        case Unanswered =>
          return true;
        case Missing =>
      }
      var made := account.Create(name, PolicyFor(issuer, subject, audience));
      match made {
        case Created(id) =>
          return id != "" && id != name.id;
        case Taken =>
          err := RestateFederationPolicy(name, issuer, subject, audience);
        case Refused =>
          return true;
      }
    }

    /** Writes what the named policy should say over what it says now. */
    method RestateFederationPolicy(name: Name, issuer: string, subject: string, audience: string) returns (err: bool)
      modifies account
      ensures !err ==> Ensured(old(account.standing), account.standing, name, issuer, subject, audience)
      ensures err ==> AtMostTouched(old(account.standing), account.standing, name)
      ensures account.answers && name in old(account.standing) ==> !err
    {
      err := account.Update(name, Oidc(issuer, subject, [audience]));
    }

    /** The named policy first and without being looked for, and then whatever a listing shows of the pair. */
    method RemoveFederationPolicies(principal: string, issuer: string, subject: string, shows: set<string>)
      returns (err: bool)
      modifies account
      ensures ParseInt(principal).None? ==> err && account.standing == old(account.standing)
      ensures ParseInt(principal).Some? ==>
        var name := Name(ParseInt(principal).value, FederationPolicyIdFor(part, issuer, subject));
        && OnlyTheirs(old(account.standing), account.standing, name, issuer, subject)
        && (account.answers ==> !err)
        && (!err ==> name !in account.standing)
        && (!err ==> NoneShown(account.standing, name.principal, shows, issuer, subject))
    {
      var numeric := ParseInt(principal);
      if numeric.None? {
        return true;
      }
      var name := Name(numeric.value, FederationPolicyIdFor(part, issuer, subject));
      err := account.Forget(name);
      if err {
        return;
      }
      err := RemoveListedPolicies(issuer, subject, name, shows);
    }

    /** Every policy the listing shows that names this issuer and this subject, but the one dealt with by name. */
    method RemoveListedPolicies(issuer: string, subject: string, except: Name, shows: set<string>) returns (err: bool)
      requires except !in account.standing
      modifies account
      ensures OnlyTheirs(old(account.standing), account.standing, except, issuer, subject)
      ensures account.answers ==> !err
      ensures !err ==> NoneShown(account.standing, except.principal, shows, issuer, subject)
    {
      ghost var was := account.standing;
      var listing := account.List(except.principal, shows);
      if listing.None? {
        return true;
      }
      var listed := listing.value;
      for i := 0 to |listed|
        invariant OnlyTheirs(was, account.standing, except, issuer, subject)
        invariant forall j | 0 <= j < i && IsTheirs(listed[j].policy, issuer, subject) ::
          listed[j].name !in account.standing
      {
        var policy := listed[i].policy;
        assert listed[i] in listed;
        if listed[i].name.id == except.id || policy.oidc.None? || policy.oidc.value.issuer != issuer
          || policy.oidc.value.subject != subject {
          continue;
        }
        var failed := account.Forget(listed[i].name);
        if failed {
          return true;
        }
      }
      assert forall n | n in was && n.principal == except.principal && n.id in shows :: Listed(n, was[n]) in listed;
      err := false;
    }
  }

  /** Nothing of the pair is left on this service principal among what the listing shows. */
  predicate NoneShown(standing: Standing, principal: int, shows: set<string>, issuer: string, subject: string) {
    forall n | n in standing && n.principal == principal && n.id in shows :: !IsTheirs(standing[n], issuer, subject)
  }

  predicate IsTheirs(policy: Policy, issuer: string, subject: string) {
    policy.oidc.Some? && policy.oidc.value.issuer == issuer && policy.oidc.value.subject == subject
  }

  /** What went was the named policy, or one of this issuer's and subject's on this service principal. */
  predicate OnlyTheirs(before: Standing, after: Standing, name: Name, issuer: string, subject: string) {
    && (forall n | n in after :: n in before && after[n] == before[n])
    && (forall n | n in before && n !in after ::
         n == name || (n.principal == name.principal && IsTheirs(before[n], issuer, subject)))
  }

  /******* Over a run *******/

  /**
   However many calls there were and whatever each was for, once they have all succeeded exactly one
   policy stands under the name, it trusts the last audience, and no other policy was touched.
   */
  lemma {:induction false} EnsuringConverges(states: seq<Standing>, audiences: seq<string>, name: Name, issuer: string,
                                             subject: string)
    requires |audiences| > 0 && |states| == |audiences| + 1
    requires forall i | 0 <= i < |audiences| :: Ensured(states[i], states[i + 1], name, issuer, subject, audiences[i])
    ensures Ensured(states[0], states[|audiences|], name, issuer, subject, audiences[|audiences| - 1])
  {
    if |audiences| > 1 {
      EnsuringConverges(states[..|states| - 1], audiences[..|audiences| - 1], name, issuer, subject);
      assert Ensured(states[|audiences| - 1], states[|audiences|], name, issuer, subject, audiences[|audiences| - 1]);
    }
  }

  /** One call, and whether it failed. */
  datatype Ensuring = Ensuring(audience: string, err: bool)

  predicate IsCall(before: Standing, after: Standing, name: Name, issuer: string, subject: string, call: Ensuring) {
    if call.err then AtMostTouched(before, after, name)
    else Ensured(before, after, name, issuer, subject, call.audience)
  }

  function Failures(calls: seq<Ensuring>): nat {
    if calls == [] then 0 else Failures(calls[..|calls| - 1]) + if calls[|calls| - 1].err then 1 else 0
  }

  /** What stands under a name nobody asked for, that did not before. */
  function Strays(before: Standing, after: Standing, name: Name): set<Name> {
    after.Keys - before.Keys - {name}
  }

  lemma OneStrayMore(first: Standing, before: Standing, after: Standing, name: Name, issuer: string, subject: string,
                     call: Ensuring)
    requires IsCall(before, after, name, issuer, subject, call)
    ensures |Strays(first, after, name)| <= |Strays(first, before, name)| + if call.err then 1 else 0
  {
    var was, added := Strays(first, before, name), Strays(before, after, name);
    var all := Strays(first, after, name);
    assert all <= was + added;
    Within(all, was + added);
    AtMostOne(added);
    assert !call.err ==> added == {};
  }

  lemma AtMostOne(names: set<Name>)
    requires forall n, m | n in names && m in names :: n == m
    ensures |names| <= 1
  {
    if n :| n in names {
      assert names == {n};
    }
  }

  lemma {:induction false} Within(a: set<Name>, b: set<Name>)
    requires a <= b
    ensures |a| <= |b|
  {
    if n :| n in a {
      Within(a - {n}, b - {n});
    }
  }

  /**
   Any calls, failed ones among them and each for whatever audience: no policy that stood under another name
   is touched, each failure leaves at most one that nobody named, and once a call succeeds again the policy
   stands under its name and trusts that call's audience.
   */
  lemma {:induction false} EnsuringSettles(states: seq<Standing>, calls: seq<Ensuring>, name: Name, issuer: string,
                                           subject: string)
    requires |states| == |calls| + 1
    requires forall i | 0 <= i < |calls| :: IsCall(states[i], states[i + 1], name, issuer, subject, calls[i])
    ensures var last := states[|calls|];
      && (forall n | n in states[0] && n != name :: n in last && last[n] == states[0][n])
      && |Strays(states[0], last, name)| <= Failures(calls)
      && (calls != [] && !calls[|calls| - 1].err ==>
           name in last && Trusts(last[name], issuer, subject, calls[|calls| - 1].audience))
    decreases |calls|
  {
    if calls == [] {
      assert Strays(states[0], states[0], name) == {};
    } else {
      var k := |calls| - 1;
      EnsuringSettles(states[..k + 1], calls[..k], name, issuer, subject);
      assert IsCall(states[k], states[k + 1], name, issuer, subject, calls[k]);
      OneStrayMore(states[0], states[k], states[k + 1], name, issuer, subject, calls[k]);
    }
  }

  /** What an ensuring wrote, a removal that succeeds takes away, though no listing shows it. */
  lemma RemovalUndoesEnsuring(before: Standing, ensured: Standing, after: Standing, name: Name, issuer: string,
                              subject: string, audience: string)
    requires Ensured(before, ensured, name, issuer, subject, audience)
    requires OnlyTheirs(ensured, after, name, issuer, subject) && name !in after
    requires forall n | n in before && n.principal == name.principal && IsTheirs(before[n], issuer, subject) ::
      n == name
    ensures after == before - {name}
  {
    forall n | n in before && n != name
      ensures n in after
    {
      assert ensured[n] == before[n];
    }
  }
}

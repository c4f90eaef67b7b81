/**
 Refusing, when it is written, a request that would never be answered
 (internal/webhook/serviceaccountrequest.go:79-204).
 */
module Admission {
  import opened Names
  import opened Options
  import opened Requests
  import Projection

  /** A ServiceAccount as the API server sends it. None is one that will not decode. */
  datatype Sent = Sent(namespace: string, annotations: Annotations)

  /** was is None on a create, and Some(None) where what was there will not decode. */
  datatype Update = Update(namespace: string, sent: Option<Sent>, was: Option<Option<Sent>>)

  /** The account as this operator reads it. */
  datatype Account = NotDeclared | Unread | Declared(namespaces: set<string>)

  datatype Response = Allowed | Denied(keys: seq<string>) | Errored

  /** The namespace on the request, or the object's own where the request carries none. */
  function NamespaceOf(update: Update): string {
    if update.namespace != "" || update.sent.None? then update.namespace else update.sent.value.namespace
  }

  /** Asked of this operator by what is written, and not by what was there. */
  predicate Introduces(update: Update, operator: NamespacedName, name: string) {
    && update.sent.Some? && AsksFor(update.sent.value.annotations, operator, name)
    && match update.was
       case None => true
       case Some(None) => false
       case Some(Some(was)) => !AsksFor(was.annotations, operator, name)
  }

  ghost predicate Refuses(update: Update, operator: NamespacedName, account: Account) {
    && account.Declared? && NamespaceOf(update) !in account.namespaces
    && !NothingIntroduced(update, operator)
  }

  ghost predicate NothingIntroduced(update: Update, operator: NamespacedName) {
    forall name :: !Introduces(update, operator, name)
  }

  ghost predicate Lists(keys: seq<string>, update: Update, operator: NamespacedName) {
    forall key :: key in keys <==> exists name :: Introduces(update, operator, name) && key == AnnotationFor(name)
  }

  /** What this write asks of this operator that the object was not already asking, in the order it was read. */
  method IntroducedBy(update: Update, operator: NamespacedName, asking: Requested) returns (introduced: seq<Request>)
    requires update.sent.Some? && Reads(update.sent.value.annotations, operator, asking)
    ensures forall r :: r in introduced <==> r.operator == operator && Introduces(update, operator, r.name)
    ensures introduced == [] <==> NothingIntroduced(update, operator)
    ensures asking.understood == [] ==> introduced == []
  {
    var already := Requested([], []);
    if update.was.Some? {
      if update.was.value.None? {
        assert NothingIntroduced(update, operator);
        return [];
      }
      already := RequestsFor(update.was.value.value.annotations, operator);
    }
    introduced := [];
    for i := 0 to |asking.understood|
      invariant forall r :: r in introduced <==> r in asking.understood[..i] && r !in already.understood
    {
      var request := asking.understood[i];
      if request !in already.understood {
        introduced := introduced + [request];
      }
    }
    forall r
      ensures r in introduced <==> r.operator == operator && Introduces(update, operator, r.name)
    {
      Understood(update.sent.value.annotations, operator, asking, r);
      if update.was.Some? {
        Understood(update.was.value.value.annotations, operator, already, r);
      }
    }
    if introduced == [] {
      forall name
        ensures !Introduces(update, operator, name)
      {
        assert Request(operator, name) !in introduced;
      }
    } else {
      assert introduced[0] in introduced;
    }
  }

  lemma Understood(annotations: Annotations, operator: NamespacedName, requested: Requested, r: Request)
    requires Reads(annotations, operator, requested)
    ensures r in requested.understood <==> r.operator == operator && AsksFor(annotations, operator, r.name)
  {
    LettingGoIsExact(annotations, operator, requested, r.name);
    assert r.operator == operator ==> r == Request(operator, r.name);
  }

  /** Refuses the write that introduces a request this operator cannot answer, and names the keys that did. */
  method Handle(update: Update, operator: NamespacedName, account: Account) returns (response: Response)
    ensures response.Errored? <==> update.sent.None?
    ensures response.Denied? <==> Refuses(update, operator, account)
    ensures response.Denied? ==> Lists(response.keys, update, operator)
    ensures response.Denied? ==>
      update.sent.Some? && account.Declared? &&
      (if update.namespace != "" then update.namespace else update.sent.value.namespace) !in account.namespaces
  {
    if update.sent.None? {
      return Errored;
    }
    var asking := RequestsFor(update.sent.value.annotations, operator);
    var introduced := IntroducedBy(update, operator, asking);
    if asking.understood == [] {
      return Allowed;
    }
    if introduced == [] {
      return Allowed;
    }
    if account.NotDeclared? || account.Unread? {
      return Allowed;
    }
    if NamespaceOf(update) in account.namespaces {
      return Allowed;
    }
    var keys := KeysOf(introduced);
    KeysListTheIntroduced(update, operator, introduced, keys);
    response := Denied(keys);
  }

  method KeysOf(introduced: seq<Request>) returns (keys: seq<string>)
    ensures |keys| == |introduced| && forall j | 0 <= j < |keys| :: keys[j] == AnnotationFor(introduced[j].name)
  {
    keys := [];
    for i := 0 to |introduced|
      invariant |keys| == i && forall j | 0 <= j < i :: keys[j] == AnnotationFor(introduced[j].name)
    {
      keys := keys + [AnnotationFor(introduced[i].name)];
    }
  }

  lemma KeysListTheIntroduced(update: Update, operator: NamespacedName, introduced: seq<Request>, keys: seq<string>)
    requires forall r :: r in introduced <==> r.operator == operator && Introduces(update, operator, r.name)
    requires |keys| == |introduced| && forall j | 0 <= j < |keys| :: keys[j] == AnnotationFor(introduced[j].name)
    ensures Lists(keys, update, operator)
  {
    forall j | 0 <= j < |keys|
      ensures Introduces(update, operator, introduced[j].name)
    {
      assert introduced[j] in introduced;
    }
    forall name | Introduces(update, operator, name)
      ensures AnnotationFor(name) in keys
    {
      assert Request(operator, name).name == name;
      var j :| 0 <= j < |introduced| && introduced[j] == Request(operator, name);
      assert keys[j] == AnnotationFor(name);
    }
  }

  /**
   In a namespace the declared account does not name, the request's own or else the object's, asking for
   what was not asked for is refused; asking for no more than before is not, nor is anything where it does.
   */
  lemma RefusedExactly(update: Update, operator: NamespacedName, account: Account)
    requires update.sent.Some? && account.Declared?
    ensures var namespace := if update.namespace != "" then update.namespace else update.sent.value.namespace;
      Refuses(update, operator, account) <==>
        namespace !in account.namespaces
        && (update.was.Some? ==> update.was.value.Some?)
        && exists name :: AsksFor(update.sent.value.annotations, operator, name)
             && (update.was.Some? ==> !AsksFor(update.was.value.value.annotations, operator, name))
  {
    if name :| Introduces(update, operator, name) {
      assert AsksFor(update.sent.value.annotations, operator, name);
    }
    if name :|
      AsksFor(update.sent.value.annotations, operator, name) &&
      (update.was.Some? ==> update.was.value.Some? && !AsksFor(update.was.value.value.annotations, operator, name)) {
      assert Introduces(update, operator, name);
    }
  }

  /** A write that only takes keys away is admitted in every namespace, whatever the account says. */
  lemma RemovalIsAdmitted(update: Update, operator: NamespacedName, account: Account)
    requires update.sent.Some? && update.was.Some?
    requires update.was.value.Some? ==>
      forall k | k in update.sent.value.annotations ::
        k in update.was.value.value.annotations
          && update.was.value.value.annotations[k] == update.sent.value.annotations[k]
    ensures !Refuses(update, operator, account)
  {
  }

  /** Whatever is refused, the controller reading the same account would not have made a record for either. */
  lemma RefusedIsNeverAnswered(update: Update, operator: NamespacedName, account: Account, mints: bool,
                               records: Projection.Records, understood: seq<Request>, made: string -> Projection.Facts)
    requires Refuses(update, operator, account)
    ensures var served := account.Declared? && NamespaceOf(update) in account.namespaces;
      Projection.Recorded(records, understood, mints && account.Declared? && served, made) == records
  {
    Projection.RecordedWithoutMinting(records, understood, made);
  }
}

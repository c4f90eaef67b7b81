/**
 Several operators and one DatabricksServiceAccount, one pass after another: when the wanted entries of
 each get in, and when two operators are in each other's way for good
 (internal/controller/databricksserviceaccount_controller.go:103-206, 298-330).
 */
module ProjectionRuns {
  import opened Names
  import opened Options
  import opened Requests
  import opened ServerSideApply
  import opened Projection

  /** One pass: whose it is, what it reads asked of it, and what its records say once it has minted. */
  datatype Turn = Turn(operator: NamespacedName, requested: Requested, records: Records)

  ghost predicate IsRefused(live: Live, turn: Turn) {
    Contested(live, turn.requested, turn.operator, turn.records)
  }

  /** Refused, a pass writes no entry; otherwise its operator's entries become the wanted ones. */
  ghost predicate Passes(operators: set<NamespacedName>, annotations: Annotations, before: Live, after: Live,
                         turn: Turn) {
    && turn.operator in operators && Reads(annotations, turn.operator, turn.requested)
    && Faithful(operators, before)
    && (if IsRefused(before, turn) then after == before
        else Shows(operators, before, after, turn.requested, turn.operator, turn.records))
  }

  /** Passes over one set of annotations, and the object before each of them and after the last. */
  ghost predicate IsRun(operators: set<NamespacedName>, annotations: Annotations, lives: seq<Live>, turns: seq<Turn>) {
    |lives| == |turns| + 1
    && forall i | 0 <= i < |turns| :: Passes(operators, annotations, lives[i], lives[i + 1], turns[i])
  }

  /** A pass leaves every operator in step that was, and its own unless it was refused. */
  lemma PassKeepsInStep(operators: set<NamespacedName>, annotations: Annotations, before: Live, after: Live, turn: Turn,
                        other: NamespacedName)
    requires Passes(operators, annotations, before, after, turn)
    requires InStep(annotations, before, other) || (turn.operator == other && !IsRefused(before, turn))
    ensures InStep(annotations, after, other)
  {
    if !IsRefused(before, turn) {
      if turn.operator == other {
        PassIsInStep(operators, before, after, annotations, turn.requested, turn.operator, turn.records);
      } else {
        assert forall p | Owns(after, other, p) :: Owns(before, other, p);
      }
    }
  }

  lemma {:induction false} RunKeepsInStep(operators: set<NamespacedName>, annotations: Annotations, lives: seq<Live>,
                                          turns: seq<Turn>, n: nat, other: NamespacedName)
    requires IsRun(operators, annotations, lives, turns) && n <= |turns|
    requires InStep(annotations, lives[n], other)
    ensures InStep(annotations, lives[|turns|], other)
    decreases |turns| - n
  {
    if n < |turns| {
      assert Passes(operators, annotations, lives[n], lives[n + 1], turns[n]);
      PassKeepsInStep(operators, annotations, lives[n], lives[n + 1], turns[n], other);
      RunKeepsInStep(operators, annotations, lives, turns, n + 1, other);
    }
  }

  /**
   Once each of the other operators, in any order and with any passes in between, has had one pass that
   was not refused, this one's next pass is not refused either. Their references tell them apart because
   their names are legal.
   */
  lemma NotRefusedOnceOthersPassed(operators: set<NamespacedName>, annotations: Annotations, lives: seq<Live>,
                                   turns: seq<Turn>, turn: Turn)
    requires forall o | o in operators :: IsOperator(o)
    requires IsRun(operators, annotations, lives, turns) && Faithful(operators, lives[|turns|])
    requires turn.operator in operators && Reads(annotations, turn.operator, turn.requested)
    requires forall o | o in operators && o != turn.operator ::
      exists i :: 0 <= i < |turns| && turns[i].operator == o && !IsRefused(lives[i], turns[i])
    ensures !IsRefused(lives[|turns|], turn)
  {
    LegalOperatorsAreApart(operators);
    forall o | o in operators && o != turn.operator
      ensures InStep(annotations, lives[|turns|], o)
    {
      var i :| 0 <= i < |turns| && turns[i].operator == o && !IsRefused(lives[i], turns[i]);
      assert Passes(operators, annotations, lives[i], lives[i + 1], turns[i]);
      PassKeepsInStep(operators, annotations, lives[i], lives[i + 1], turns[i], o);
      RunKeepsInStep(operators, annotations, lives, turns, i + 1, o);
    }
    NothingContestedInStep(operators, lives[|turns|], annotations, turn.requested, turn.operator, turn.records);
  }

  /** Passes that are each refused on the object as it is never get in, however many and in whatever order. */
  lemma {:induction false} RefusedForGood(operators: set<NamespacedName>, annotations: Annotations, lives: seq<Live>,
                                          turns: seq<Turn>, n: nat)
    requires IsRun(operators, annotations, lives, turns) && n <= |turns|
    requires forall i | 0 <= i < |turns| :: IsRefused(lives[0], turns[i])
    ensures lives[n] == lives[0]
  {
    if n > 0 {
      RefusedForGood(operators, annotations, lives, turns, n - 1);
      assert Passes(operators, annotations, lives[n - 1], lives[n - 1 + 1], turns[n - 1]);
    }
  }

  /******* Who is in whose way *******/

  /** p owns the profile of something o is asked for and has a record of. */
  ghost predicate Blocks(annotations: Annotations, live: Live, p: NamespacedName, o: NamespacedName,
                         recorded: set<string>) {
    p != o && exists name ::
      name in recorded && AsksFor(annotations, o, name) && Owns(live, p, Request(o, name).ToString())
  }

  ghost predicate IsBlocked(operators: set<NamespacedName>, annotations: Annotations, live: Live, o: NamespacedName,
                            recorded: set<string>) {
    exists p :: p in operators && Blocks(annotations, live, p, o, recorded)
  }

  /** A pass is refused exactly when somebody is in its way. */
  lemma RefusedIffBlocked(operators: set<NamespacedName>, annotations: Annotations, live: Live, turn: Turn)
    requires (forall o | o in operators :: IsOperator(o)) && turn.operator in operators
    requires Faithful(operators, live) && Reads(annotations, turn.operator, turn.requested)
    ensures IsRefused(live, turn) <==> IsBlocked(operators, annotations, live, turn.operator, turn.records.Keys)
  {
    LegalOperatorsAreApart(operators);
    if IsRefused(live, turn) {
      RefusedIsBlocked(operators, annotations, live, turn);
    }
    if p :| p in operators && Blocks(annotations, live, p, turn.operator, turn.records.Keys) {
      var name :| name in turn.records.Keys && AsksFor(annotations, turn.operator, name)
                  && Owns(live, p, Request(turn.operator, name).ToString());
      BlockedIsRefused(operators, annotations, live, turn, p, name);
    }
  }

  lemma RefusedIsBlocked(operators: set<NamespacedName>, annotations: Annotations, live: Live, turn: Turn)
    requires Apart(operators) && turn.operator in operators
    requires Faithful(operators, live) && Reads(annotations, turn.operator, turn.requested) && IsRefused(live, turn)
    ensures IsBlocked(operators, annotations, live, turn.operator, turn.records.Keys)
  {
    MineAreOwned(operators, live, turn.operator);
    var e :| IsWanted(turn.requested, turn.operator, turn.records, live, e)
             && e.profile in live && !Owns(live, turn.operator, e.profile);
    assert !IsResent(turn.requested, turn.operator, live, e);
    var r :| r in turn.requested.understood && r.name in turn.records && e == EntryOf(r, turn.records[r.name]);
    assert Asked(annotations, r) && r == Request(turn.operator, r.name);
    LettingGoIsExact(annotations, turn.operator, turn.requested, r.name);
    var p :| p in operators && live[e.profile].owners == {p};
    assert p != turn.operator && r.name in turn.records.Keys
      && Owns(live, p, Request(turn.operator, r.name).ToString());
    assert Blocks(annotations, live, p, turn.operator, turn.records.Keys);
  }

  lemma BlockedIsRefused(operators: set<NamespacedName>, annotations: Annotations, live: Live, turn: Turn,
                         p: NamespacedName, name: string)
    requires Faithful(operators, live) && Reads(annotations, turn.operator, turn.requested) && p != turn.operator
    requires name in turn.records && AsksFor(annotations, turn.operator, name)
      && Owns(live, p, Request(turn.operator, name).ToString())
    ensures IsRefused(live, turn)
  {
    LettingGoIsExact(annotations, turn.operator, turn.requested, name);
    var r := Request(turn.operator, name);
    var e := EntryOf(r, turn.records[name]);
    assert r in turn.requested.understood && IsAsked(turn.requested, turn.records, e);
    assert IsWanted(turn.requested, turn.operator, turn.records, live, e) && e.profile == r.ToString();
  }

  /** What another than the pass's own operator owns is the same before a pass and after. */
  lemma OthersOwnAsBefore(operators: set<NamespacedName>, annotations: Annotations, before: Live, after: Live,
                          turn: Turn, p: NamespacedName, profile: string)
    requires Passes(operators, annotations, before, after, turn) && p != turn.operator
    ensures Owns(after, p, profile) <==> Owns(before, p, profile)
  {
    if !IsRefused(before, turn) {
      assert Faithful(operators, before) && Faithful(operators, after) && Untouched(before, after, turn.operator);
    }
  }

  /** A pass puts nobody in anybody's way: a profile it adds is one its own operator is asked for, and nobody else. */
  lemma PassBlocksNobody(operators: set<NamespacedName>, annotations: Annotations, before: Live, after: Live,
                         turn: Turn, p: NamespacedName, o: NamespacedName, recorded: set<string>)
    requires (forall q | q in operators :: IsOperator(q)) && Passes(operators, annotations, before, after, turn)
    requires Blocks(annotations, after, p, o, recorded)
    ensures Blocks(annotations, before, p, o, recorded)
  {
    var name :| name in recorded && AsksFor(annotations, o, name) && Owns(after, p, Request(o, name).ToString());
    var profile := Request(o, name).ToString();
    if p != turn.operator {
      OthersOwnAsBefore(operators, annotations, before, after, turn, p, profile);
    } else if !IsRefused(before, turn) {
      LegalOperatorsAreApart(operators);
      AddedIsAsked(operators, annotations, before, after, turn, o, name);
    }
    assert Owns(before, p, profile);
  }

  lemma AddedIsAsked(operators: set<NamespacedName>, annotations: Annotations, before: Live, after: Live, turn: Turn,
                     o: NamespacedName, name: string)
    requires Apart(operators) && Passes(operators, annotations, before, after, turn) && !IsRefused(before, turn)
    requires AsksFor(annotations, o, name) && o != turn.operator
      && Owns(after, turn.operator, Request(o, name).ToString())
    ensures Owns(before, turn.operator, Request(o, name).ToString())
  {
    var profile := Request(o, name).ToString();
    var e := after[profile].value;
    assert e.profile == profile && IsWanted(turn.requested, turn.operator, turn.records, before, e);
    if IsAsked(turn.requested, turn.records, e) {
      var r :| r in turn.requested.understood && r.name in turn.records && e == EntryOf(r, turn.records[r.name]);
      assert Asked(annotations, r) && r.operator == turn.operator;
      AskedIsAsked(annotations, o, name);
      ProfilesNeverCollide(annotations, r, Request(o, name));
    } else {
      MineAreOwned(operators, before, turn.operator);
    }
  }

  lemma AskedIsAsked(annotations: Annotations, o: NamespacedName, name: string)
    requires AsksFor(annotations, o, name)
    ensures Asked(annotations, Request(o, name))
  {
    ReadKeyOf(name, annotations[AnnotationFor(name)]);
  }

  /** An operator in step is in nobody's way. */
  lemma InStepBlocksNobody(operators: set<NamespacedName>, annotations: Annotations, live: Live, p: NamespacedName,
                           o: NamespacedName, recorded: set<string>)
    requires (forall q | q in operators :: IsOperator(q)) && Faithful(operators, live) && p in operators
    requires InStep(annotations, live, p)
    ensures !Blocks(annotations, live, p, o, recorded)
  {
    LegalOperatorsAreApart(operators);
    MineAreOwned(operators, live, p);
    if Blocks(annotations, live, p, o, recorded) {
      var name :| name in recorded && AsksFor(annotations, o, name) && Owns(live, p, Request(o, name).ToString());
      AskedIsAsked(annotations, o, name);
      OneClaimant(annotations, Request(o, name), p, Request(o, name).ToString());
    }
  }

  /**
   After a pass of one operator, another is refused exactly when it was blocked before by somebody else, or
   by the one, and that one was refused.
   */
  lemma RefusedAfterPassIff(operators: set<NamespacedName>, annotations: Annotations, before: Live, after: Live,
                            first: Turn, second: Turn)
    requires forall o | o in operators :: IsOperator(o)
    requires Passes(operators, annotations, before, after, first) && Faithful(operators, after)
    requires second.operator in operators && Reads(annotations, second.operator, second.requested)
      && first.operator != second.operator
    ensures IsRefused(after, second) <==>
      exists p :: p in operators && Blocks(annotations, before, p, second.operator, second.records.Keys)
                  && (p == first.operator ==> IsRefused(before, first))
  {
    RefusedIffBlocked(operators, annotations, after, second);
    if p :| p in operators && Blocks(annotations, after, p, second.operator, second.records.Keys) {
      PassBlocksNobody(operators, annotations, before, after, first, p, second.operator, second.records.Keys);
      if p == first.operator && !IsRefused(before, first) {
        PassKeepsInStep(operators, annotations, before, after, first, p);
        InStepBlocksNobody(operators, annotations, after, p, second.operator, second.records.Keys);
      }
    }
    if p :| p in operators && Blocks(annotations, before, p, second.operator, second.records.Keys)
            && (p == first.operator ==> IsRefused(before, first)) {
      StillBlocks(operators, annotations, before, after, first, p, second.operator, second.records.Keys);
    }
  }

  /** Who is in the way stays in the way until a pass of its own that is not refused. */
  lemma StillBlocks(operators: set<NamespacedName>, annotations: Annotations, before: Live, after: Live, turn: Turn,
                    p: NamespacedName, o: NamespacedName, recorded: set<string>)
    requires Passes(operators, annotations, before, after, turn) && Blocks(annotations, before, p, o, recorded)
    requires p == turn.operator ==> IsRefused(before, turn)
    ensures Blocks(annotations, after, p, o, recorded)
  {
    var name :| name in recorded && AsksFor(annotations, o, name) && Owns(before, p, Request(o, name).ToString());
    if p != turn.operator {
      OthersOwnAsBefore(operators, annotations, before, after, turn, p, Request(o, name).ToString());
    }
    assert Owns(after, p, Request(o, name).ToString());
  }

  /** Before the annotations changed, this operator was asked for one identity and the other for the other. */
  predicate ShowsEach(live: Live, a: NamespacedName, x: string, b: NamespacedName, y: string) {
    && x in live && live[x].owners == {a} && live[x].value.profile == x && live[x].value.AskedOf(a)
    && y in live && live[y].owners == {b} && live[y].value.profile == y && live[y].value.AskedOf(b)
  }

  lemma TakenOver(annotations: Annotations, live: Live, turn: Turn, other: NamespacedName, name: string)
    requires name != "" && AsksFor(annotations, turn.operator, name)
      && Reads(annotations, turn.operator, turn.requested)
    requires name in turn.records && name in live && live[name].owners == {other} && other != turn.operator
    ensures IsRefused(live, turn)
  {
    LettingGoIsExact(annotations, turn.operator, turn.requested, name);
    var r := Request(turn.operator, name);
    var e := EntryOf(r, turn.records[name]);
    assert r in turn.requested.understood && IsAsked(turn.requested, turn.records, e);
    assert e.profile == name && IsWanted(turn.requested, turn.operator, turn.records, live, e);
  }

  /**
   Two identities of one ServiceAccount whose operators are exchanged in one edit: each operator is in the
   other's way, and whichever passes, however often, the object keeps saying what was asked before.
   */
  lemma ExchangedForGood(annotations: Annotations, lives: seq<Live>, turns: seq<Turn>, a: NamespacedName, x: string,
                         b: NamespacedName, y: string, n: nat)
    requires a != b && x != "" && y != ""
    requires IsRun({a, b}, annotations, lives, turns) && n <= |turns|
    requires AsksFor(annotations, a, y) && AsksFor(annotations, b, x) && ShowsEach(lives[0], a, x, b, y)
    requires forall i | 0 <= i < |turns| :: (if turns[i].operator == a then y else x) in turns[i].records
    ensures lives[n] == lives[0]
  {
    forall i | 0 <= i < |turns|
      ensures IsRefused(lives[0], turns[i])
    {
      assert Passes({a, b}, annotations, lives[i], lives[i + 1], turns[i]);
      if turns[i].operator == a {
        TakenOver(annotations, lives[0], turns[i], b, y);
      } else {
        TakenOver(annotations, lives[0], turns[i], a, x);
      }
    }
    RefusedForGood({a, b}, annotations, lives, turns, n);
  }

  lemma AsksForEach(annotations: Annotations, a: NamespacedName, x: string, b: NamespacedName, y: string)
    requires IsOperator(a) && IsOperator(b) && IsIdentityName(x) && IsIdentityName(y) && x != y
    requires annotations == map[AnnotationFor(x) := a.ToString(), AnnotationFor(y) := b.ToString()]
    ensures AsksFor(annotations, a, x) && AsksFor(annotations, b, y)
  {
    hide AnnotationFor, ParseOperator, NamespacedName.ToString, IsIdentityName, IsOperator;
    ParseOperatorRoundTrip(a);
    ParseOperatorRoundTrip(b);
    if AnnotationFor(x) == AnnotationFor(y) {
      AnnotationForIsInjective(x, y);
    }
  }

  lemma EachIsFaithful(live: Live, a: NamespacedName, x: string, b: NamespacedName, y: string)
    requires live.Keys == {x, y} && ShowsEach(live, a, x, b, y)
    requires x != "" && y != "" && '/' !in x && '/' !in y
    ensures Faithful({a, b}, live)
  {
    hide NamespacedName.ToString;
    forall p | p in live
      ensures exists o :: o in {a, b} && live[p].owners == {o} && live[p].value.operator == o.ToString()
    {
      var o := if p == x then a else b;
      assert o in {a, b} && live[p].owners == {o} && live[p].value.operator == o.ToString();
    }
  }

  lemma NamesHoldNoSlash(name: string)
    requires IsIdentityName(name)
    ensures '/' !in name
  {
  }

  /**
   Such an edit can be made for any two operators and any two names: what is asked and shown before it,
   and what is asked after.
   */
  lemma ExchangeIsPossible(a: NamespacedName, x: string, b: NamespacedName, y: string, ofX: Facts, ofY: Facts)
    requires IsOperator(a) && IsOperator(b) && a != b && x != y && x != "" && y != ""
    requires IsIdentityName(x) && IsIdentityName(y)
    ensures var before := map[AnnotationFor(x) := a.ToString(), AnnotationFor(y) := b.ToString()];
      var annotations := map[AnnotationFor(x) := b.ToString(), AnnotationFor(y) := a.ToString()];
      var live := map[x := Field(Entry(x, a.ToString(), ofX), {a}), y := Field(Entry(y, b.ToString(), ofY), {b})];
      && AsksFor(before, a, x) && AsksFor(before, b, y) && AsksFor(annotations, a, y) && AsksFor(annotations, b, x)
      && ShowsEach(live, a, x, b, y) && Faithful({a, b}, live)
  {
    hide AnnotationFor, NamespacedName.ToString, IsIdentityName, IsOperator, AsksFor, Faithful;
    AsksForEach(map[AnnotationFor(x) := a.ToString(), AnnotationFor(y) := b.ToString()], a, x, b, y);
    AsksForEach(map[AnnotationFor(x) := b.ToString(), AnnotationFor(y) := a.ToString()], b, x, a, y);
    NamesHoldNoSlash(x);
    NamesHoldNoSlash(y);
    var live := map[x := Field(Entry(x, a.ToString(), ofX), {a}), y := Field(Entry(y, b.ToString(), ofY), {b})];
    EachIsFaithful(live, a, x, b, y);
  }
}

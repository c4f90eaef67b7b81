/**
 Whose entries get onto a DatabricksServiceAccount that any number of operators write, when each of them
 keeps passing over it, and whose never do
 (internal/controller/databricksserviceaccount_controller.go:103-206, 298-330).
 */
module ProjectionEnds {
  import opened Names
  import opened Options
  import opened Requests
  import opened ServerSideApply
  import opened Projection
  import opened ProjectionRuns

  /** The identities of this ServiceAccount each operator has a record of. */
  type RecordedNames = NamespacedName -> set<string>

  /** Operators each of which is blocked by one of them. */
  ghost predicate Closed(annotations: Annotations, live: Live, blocked: set<NamespacedName>, recorded: RecordedNames) {
    forall o | o in blocked :: IsBlocked(blocked, annotations, live, o, recorded(o))
  }

  ghost predicate IsStuck(operators: set<NamespacedName>, annotations: Annotations, live: Live, o: NamespacedName,
                          recorded: RecordedNames) {
    exists blocked: set<NamespacedName> ::
      blocked <= operators && o in blocked && Closed(annotations, live, blocked, recorded)
  }

  lemma RunIsFaithful(operators: set<NamespacedName>, annotations: Annotations, lives: seq<Live>, turns: seq<Turn>,
                      n: nat)
    requires IsRun(operators, annotations, lives, turns) && Faithful(operators, lives[0]) && n <= |turns|
    ensures Faithful(operators, lives[n])
  {
    if n > 0 {
      var i := n - 1;
      assert Passes(operators, annotations, lives[i], lives[i + 1], turns[i]);
    }
  }

  /******* Who never gets in *******/

  lemma BlockedByMore(annotations: Annotations, live: Live, blocked: set<NamespacedName>,
                      operators: set<NamespacedName>, o: NamespacedName, some: set<string>, more: set<string>)
    requires blocked <= operators && some <= more && IsBlocked(blocked, annotations, live, o, some)
    ensures IsBlocked(operators, annotations, live, o, more)
  {
    var p :| p in blocked && Blocks(annotations, live, p, o, some);
    assert p in operators && Blocks(annotations, live, p, o, more);
  }

  lemma PassKeepsClosed(operators: set<NamespacedName>, annotations: Annotations, before: Live, after: Live, turn: Turn,
                        blocked: set<NamespacedName>, recorded: RecordedNames)
    requires forall o | o in operators :: IsOperator(o)
    requires Passes(operators, annotations, before, after, turn) && blocked <= operators
    requires Closed(annotations, before, blocked, recorded)
    requires turn.operator in blocked ==> recorded(turn.operator) <= turn.records.Keys
    ensures turn.operator in blocked ==> IsRefused(before, turn)
    ensures Closed(annotations, after, blocked, recorded)
  {
    hide Passes, Blocks, IsRefused, IsOperator;
    if turn.operator in blocked {
      assert turn.operator in operators && Faithful(operators, before)
        && Reads(annotations, turn.operator, turn.requested) by {
        PassReads(operators, annotations, before, after, turn);
      }
      BlockedByMore(annotations, before, blocked, operators, turn.operator, recorded(turn.operator), turn.records.Keys);
      RefusedIffBlocked(operators, annotations, before, turn);
    }
    forall o | o in blocked
      ensures IsBlocked(blocked, annotations, after, o, recorded(o))
    {
      var p :| p in blocked && Blocks(annotations, before, p, o, recorded(o));
      StillBlocks(operators, annotations, before, after, turn, p, o, recorded(o));
    }
  }

  lemma PassReads(operators: set<NamespacedName>, annotations: Annotations, before: Live, after: Live, turn: Turn)
    requires Passes(operators, annotations, before, after, turn)
    ensures turn.operator in operators && Faithful(operators, before)
      && Reads(annotations, turn.operator, turn.requested)
  {
  }

  /**
   Operators each of which is in the way of another of them are refused for good, in every run, whoever else
   passes and however many records they come to have.
   */
  lemma {:induction false} ClosedStaysRefused(operators: set<NamespacedName>, annotations: Annotations,
                                              lives: seq<Live>, turns: seq<Turn>, blocked: set<NamespacedName>,
                                              recorded: RecordedNames, n: nat)
    requires forall o | o in operators :: IsOperator(o)
    requires IsRun(operators, annotations, lives, turns) && n <= |turns|
    requires blocked <= operators && Closed(annotations, lives[0], blocked, recorded)
    requires forall i | 0 <= i < |turns| && turns[i].operator in blocked ::
      recorded(turns[i].operator) <= turns[i].records.Keys
    ensures Closed(annotations, lives[n], blocked, recorded)
    ensures n < |turns| && turns[n].operator in blocked ==> IsRefused(lives[n], turns[n])
  {
    hide Closed, Passes, IsRefused, IsOperator;
    if n > 0 {
      var i := n - 1;
      ClosedStaysRefused(operators, annotations, lives, turns, blocked, recorded, i);
      assert Passes(operators, annotations, lives[i], lives[i + 1], turns[i]);
      PassKeepsClosed(operators, annotations, lives[i], lives[i + 1], turns[i], blocked, recorded);
    }
    if n < |turns| {
      assert Passes(operators, annotations, lives[n], lives[n + 1], turns[n]);
      PassKeepsClosed(operators, annotations, lives[n], lives[n + 1], turns[n], blocked, recorded);
    }
  }

  /******* Who gets in *******/

  /** Records are neither made nor lost any more. */
  predicate HaveRecords(turns: seq<Turn>, recorded: RecordedNames) {
    forall i | 0 <= i < |turns| :: turns[i].records.Keys == recorded(turns[i].operator)
  }

  /** Everybody has passed at least once since. */
  ghost predicate AllPass(operators: set<NamespacedName>, turns: seq<Turn>, since: nat) {
    forall o | o in operators :: exists i :: since <= i < |turns| && turns[i].operator == o
  }

  /** That many times over. */
  ghost predicate AllPassTimes(operators: set<NamespacedName>, turns: seq<Turn>, times: nat)
    decreases times
  {
    times == 0 || exists m: nat ::
      m <= |turns| && AllPass(operators, turns, m) && AllPassTimes(operators, turns[..m], times - 1)
  }

  lemma {:induction false} UnblockedStays(operators: set<NamespacedName>, annotations: Annotations, lives: seq<Live>,
                                          turns: seq<Turn>, m: nat, n: nat, some: set<NamespacedName>,
                                          o: NamespacedName, recorded: set<string>)
    requires forall q | q in operators :: IsOperator(q)
    requires IsRun(operators, annotations, lives, turns) && m <= n <= |turns|
    requires IsBlocked(some, annotations, lives[n], o, recorded)
    ensures IsBlocked(some, annotations, lives[m], o, recorded)
    decreases n - m
  {
    hide Passes, Blocks, IsOperator;
    if m < n {
      var i := n - 1;
      var p :| p in some && Blocks(annotations, lives[n], p, o, recorded);
      assert Passes(operators, annotations, lives[i], lives[i + 1], turns[i]);
      PassBlocksNobody(operators, annotations, lives[i], lives[i + 1], turns[i], p, o, recorded);
      UnblockedStays(operators, annotations, lives, turns, m, i, some, o, recorded);
    }
  }

  /** Being stuck is neither come to nor got out of. */
  lemma StuckThroughout(operators: set<NamespacedName>, annotations: Annotations, lives: seq<Live>, turns: seq<Turn>,
                        n: nat, o: NamespacedName, recorded: RecordedNames)
    requires forall q | q in operators :: IsOperator(q)
    requires IsRun(operators, annotations, lives, turns) && n <= |turns| && HaveRecords(turns, recorded)
    ensures IsStuck(operators, annotations, lives[n], o, recorded) <==>
      IsStuck(operators, annotations, lives[0], o, recorded)
  {
    hide IsBlocked, IsOperator;
    if blocked: set<NamespacedName> :|
      blocked <= operators && o in blocked && Closed(annotations, lives[0], blocked, recorded) {
      ClosedStaysRefused(operators, annotations, lives, turns, blocked, recorded, n);
    }
    if blocked: set<NamespacedName> :|
      blocked <= operators && o in blocked && Closed(annotations, lives[n], blocked, recorded) {
      forall q | q in blocked
        ensures IsBlocked(blocked, annotations, lives[0], q, recorded(q))
      {
        UnblockedStays(operators, annotations, lives, turns, 0, n, blocked, q, recorded(q));
      }
      assert Closed(annotations, lives[0], blocked, recorded);
    }
  }

  ghost function BlockedOf(operators: set<NamespacedName>, annotations: Annotations, live: Live,
                           recorded: RecordedNames): set<NamespacedName> {
    set q | q in operators && IsBlocked(operators, annotations, live, q, recorded(q))
  }

  /** Where everybody that is not blocked is in step, those that are block one another. */
  lemma BlockedAreClosed(operators: set<NamespacedName>, annotations: Annotations, live: Live, recorded: RecordedNames)
    requires (forall q | q in operators :: IsOperator(q)) && Faithful(operators, live)
    requires forall q | q in operators && !IsBlocked(operators, annotations, live, q, recorded(q)) ::
      InStep(annotations, live, q)
    ensures Closed(annotations, live, BlockedOf(operators, annotations, live, recorded), recorded)
  {
    hide InStep, Blocks, IsOperator, Faithful;
    var blocked := BlockedOf(operators, annotations, live, recorded);
    forall q | q in blocked
      ensures IsBlocked(blocked, annotations, live, q, recorded(q))
    {
      var other :| other in operators && Blocks(annotations, live, other, q, recorded(q));
      if other !in blocked {
        InStepBlocksNobody(operators, annotations, live, other, q, recorded(q));
      }
    }
  }

  /** While one that is not stuck is blocked, somebody is not, and has entries to take away. */
  lemma SomebodyCanMove(operators: set<NamespacedName>, annotations: Annotations, live: Live, o: NamespacedName,
                        recorded: RecordedNames)
    returns (p: NamespacedName)
    requires (forall q | q in operators :: IsOperator(q)) && Faithful(operators, live) && o in operators
    requires IsBlocked(operators, annotations, live, o, recorded(o))
      && !IsStuck(operators, annotations, live, o, recorded)
    ensures p in operators && !IsBlocked(operators, annotations, live, p, recorded(p)) && !InStep(annotations, live, p)
  {
    hide InStep, IsBlocked, IsOperator, Faithful, Closed;
    if forall q | q in operators && !IsBlocked(operators, annotations, live, q, recorded(q)) ::
      InStep(annotations, live, q) {
      BlockedAreClosed(operators, annotations, live, recorded);
    }
    p :| p in operators && !IsBlocked(operators, annotations, live, p, recorded(p)) && !InStep(annotations, live, p);
  }

  /** So somebody comes to be in step each time everybody has passed. */
  lemma RoundMoves(operators: set<NamespacedName>, annotations: Annotations, lives: seq<Live>, turns: seq<Turn>, m: nat,
                   o: NamespacedName, recorded: RecordedNames)
    returns (p: NamespacedName)
    requires (forall q | q in operators :: IsOperator(q)) && o in operators
    requires IsRun(operators, annotations, lives, turns) && Faithful(operators, lives[0])
      && HaveRecords(turns, recorded)
    requires m <= |turns| && AllPass(operators, turns, m)
    requires IsBlocked(operators, annotations, lives[m], o, recorded(o))
      && !IsStuck(operators, annotations, lives[m], o, recorded)
    ensures p in operators && !InStep(annotations, lives[m], p) && InStep(annotations, lives[|turns|], p)
  {
    hide InStep, IsBlocked, IsStuck, IsRefused, IsOperator, Faithful;
    RunIsFaithful(operators, annotations, lives, turns, m);
    p := SomebodyCanMove(operators, annotations, lives[m], o, recorded);
    var i :| m <= i < |turns| && turns[i].operator == p;
    assert Passes(operators, annotations, lives[i], lives[i + 1], turns[i]);
    RefusedIffBlocked(operators, annotations, lives[i], turns[i]);
    if IsRefused(lives[i], turns[i]) {
      UnblockedStays(operators, annotations, lives, turns, m, i, operators, p, recorded(p));
    }
    PassKeepsInStep(operators, annotations, lives[i], lives[i + 1], turns[i], p);
    RunKeepsInStep(operators, annotations, lives, turns, i + 1, p);
  }

  ghost function StepOf(operators: set<NamespacedName>, annotations: Annotations, live: Live): set<NamespacedName> {
    set q | q in operators && InStep(annotations, live, q)
  }

  lemma StepGrows(operators: set<NamespacedName>, annotations: Annotations, lives: seq<Live>, turns: seq<Turn>, m: nat,
                  p: NamespacedName)
    requires IsRun(operators, annotations, lives, turns) && m <= |turns| && p in operators
    requires !InStep(annotations, lives[m], p) && InStep(annotations, lives[|turns|], p)
    ensures |StepOf(operators, annotations, lives[m])| + 1 <= |StepOf(operators, annotations, lives[|turns|])|
  {
    hide InStep, Passes;
    var some, more := StepOf(operators, annotations, lives[m]), StepOf(operators, annotations, lives[|turns|]);
    forall q | q in some
      ensures q in more
    {
      RunKeepsInStep(operators, annotations, lives, turns, m, q);
    }
    Within(some + {p}, more);
  }

  lemma {:induction false} Within<T>(a: set<T>, b: set<T>)
    requires a <= b
    ensures |a| <= |b|
  {
    if a != {} {
      var x :| x in a;
      Within(a - {x}, b - {x});
    }
  }

  lemma Shorter(operators: set<NamespacedName>, annotations: Annotations, lives: seq<Live>, turns: seq<Turn>, m: nat,
                recorded: RecordedNames)
    requires IsRun(operators, annotations, lives, turns) && m <= |turns| && HaveRecords(turns, recorded)
    ensures IsRun(operators, annotations, lives[..m + 1], turns[..m]) && HaveRecords(turns[..m], recorded)
  {
    hide Passes;
    forall i | 0 <= i < m
      ensures Passes(operators, annotations, lives[..m + 1][i], lives[..m + 1][i + 1], turns[..m][i])
    {
      assert Passes(operators, annotations, lives[i], lives[i + 1], turns[i]);
    }
  }

  lemma {:induction false} RoundsMove(operators: set<NamespacedName>, annotations: Annotations, lives: seq<Live>,
                                      turns: seq<Turn>, times: nat, o: NamespacedName, recorded: RecordedNames)
    requires (forall q | q in operators :: IsOperator(q)) && o in operators
    requires IsRun(operators, annotations, lives, turns) && Faithful(operators, lives[0])
      && HaveRecords(turns, recorded)
    requires AllPassTimes(operators, turns, times)
    requires IsBlocked(operators, annotations, lives[|turns|], o, recorded(o))
      && !IsStuck(operators, annotations, lives[0], o, recorded)
    ensures |StepOf(operators, annotations, lives[|turns|])| >= times
    decreases times
  {
    hide InStep, IsBlocked, IsStuck, IsRun, HaveRecords, Faithful, IsOperator, AllPass, StepOf;
    if times > 0 {
      var m: nat :| m <= |turns| && AllPass(operators, turns, m) && AllPassTimes(operators, turns[..m], times - 1);
      IsLongEnough(operators, annotations, lives, turns);
      Shorter(operators, annotations, lives, turns, m, recorded);
      UnblockedStays(operators, annotations, lives, turns, m, |turns|, operators, o, recorded(o));
      StuckThroughout(operators, annotations, lives, turns, m, o, recorded);
      assert lives[..m + 1][|turns[..m]|] == lives[m] && lives[..m + 1][0] == lives[0];
      RoundsMove(operators, annotations, lives[..m + 1], turns[..m], times - 1, o, recorded);
      var p := RoundMoves(operators, annotations, lives, turns, m, o, recorded);
      StepGrows(operators, annotations, lives, turns, m, p);
    }
  }

  lemma IsLongEnough(operators: set<NamespacedName>, annotations: Annotations, lives: seq<Live>, turns: seq<Turn>)
    requires IsRun(operators, annotations, lives, turns)
    ensures |lives| == |turns| + 1
  {
  }

  /** One that is blocked is not blocked by everybody in step, so not everybody is. */
  lemma BlockedMeansNotAllInStep(operators: set<NamespacedName>, annotations: Annotations, live: Live,
                                 o: NamespacedName, recorded: set<string>)
    requires (forall q | q in operators :: IsOperator(q)) && Faithful(operators, live)
    requires IsBlocked(operators, annotations, live, o, recorded)
    ensures |StepOf(operators, annotations, live)| < |operators|
  {
    hide InStep, Blocks, IsOperator, Faithful;
    var p :| p in operators && Blocks(annotations, live, p, o, recorded);
    if InStep(annotations, live, p) {
      InStepBlocksNobody(operators, annotations, live, p, o, recorded);
    }
    Within(StepOf(operators, annotations, live), operators - {p});
  }

  /**
   Any number of operators, once everybody has passed as often as there are operators, in whatever order: a
   pass is still refused exactly when its operator was, to begin with, one of some that are all in one
   another's way. Everybody else has got in, or does with its next pass.
   */
  lemma RefusedIffStuck(operators: set<NamespacedName>, annotations: Annotations, lives: seq<Live>, turns: seq<Turn>,
                        turn: Turn, recorded: RecordedNames)
    requires forall q | q in operators :: IsOperator(q)
    requires IsRun(operators, annotations, lives, turns) && Faithful(operators, lives[0])
      && HaveRecords(turns, recorded)
    requires AllPassTimes(operators, turns, |operators|)
    requires turn.operator in operators && Reads(annotations, turn.operator, turn.requested)
    requires turn.records.Keys == recorded(turn.operator)
    ensures IsRefused(lives[|turns|], turn) <==> IsStuck(operators, annotations, lives[0], turn.operator, recorded)
  {
    hide InStep, IsRefused, IsRun, HaveRecords, Faithful, IsOperator, AllPassTimes, Blocks;
    var o := turn.operator;
    IsLongEnough(operators, annotations, lives, turns);
    RunIsFaithful(operators, annotations, lives, turns, |turns|);
    RefusedIffBlocked(operators, annotations, lives[|turns|], turn);
    StuckThroughout(operators, annotations, lives, turns, |turns|, o, recorded);
    if IsStuck(operators, annotations, lives[|turns|], o, recorded) {
      var blocked: set<NamespacedName> :| blocked <= operators && o in blocked
        && Closed(annotations, lives[|turns|], blocked, recorded);
      BlockedByMore(annotations, lives[|turns|], blocked, operators, o, recorded(o), recorded(o));
    } else if IsRefused(lives[|turns|], turn) {
      RoundsMove(operators, annotations, lives, turns, |operators|, o, recorded);
      BlockedMeansNotAllInStep(operators, annotations, lives[|turns|], o, recorded(o));
    }
  }
}

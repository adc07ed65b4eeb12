/**
 * `withTransaction` of apps/api/src/db/tx.ts.  A program is a tree of nested blocks that
 * write, fail, throw and catch.  `Meaning` is what all-or-nothing blocks should do, with
 * no stack at all; the class runs the same program through SAVEPOINT, RELEASE and
 * ROLLBACK TO on one connection, where every savepoint bears the same name.
 */
module NestedTransactions {
  import Prelude

  type Row = string

  datatype Program =
    | Skip
    | Write(row: Row)
    | FailingStatement
    | Throw
    | Then(first: Program, second: Program)
    | Catch(body: Program, handler: Program)
    | Nested(body: Program)

  datatype Outcome = Returns | Throws

  /** `work` is what the transaction sees; `poisoned` is the database's
      "aborted until rolled back". */
  datatype Result = Result(work: seq<Row>, poisoned: bool, outcome: Outcome)

  /** The specification: a nested block that returns unpoisoned keeps everything it
      wrote; any other leaves no trace and throws. */
  function Meaning(p: Program, work: seq<Row>, poisoned: bool): Result {
    match p
    case Skip => Result(work, poisoned, Returns)
    case Write(row) => if poisoned then Result(work, true, Throws) else Result(work + [row], false, Returns)
    case FailingStatement => Result(work, true, Throws)
    case Throw => Result(work, poisoned, Throws)
    case Then(first, second) =>
      var r := Meaning(first, work, poisoned);
      if r.outcome.Throws? then r else Meaning(second, r.work, r.poisoned)
    case Catch(body, handler) =>
      var r := Meaning(body, work, poisoned);
      if r.outcome.Throws? then Meaning(handler, r.work, r.poisoned) else r
    case Nested(body) =>
      if poisoned then Result(work, true, Throws)
      else
        var r := Meaning(body, work, false);
        if r.outcome.Returns? && !r.poisoned then r else Result(work, false, Throws)
  }

  // ----- what the specification promises -----

  /** No program undoes what its caller wrote before: it only appends, and what it
      appends does not depend on what was there. */
  lemma {:induction false} WorkOnlyGrows(p: Program, work: seq<Row>, poisoned: bool)
    ensures var r := Meaning(p, [], poisoned);
            Meaning(p, work, poisoned) == Result(work + r.work, r.poisoned, r.outcome)
    decreases p, 0
  {
    match p
    case Skip =>
    case Write(row) =>
    case FailingStatement =>
    case Throw =>
    case Then(first, second) =>
      WorkOnlyGrows(first, work, poisoned);
      SecondPartGrows(first, second, work, poisoned);
    case Catch(body, handler) =>
      WorkOnlyGrows(body, work, poisoned);
      SecondPartGrows(body, handler, work, poisoned);
    case Nested(body) =>
      if !poisoned { WorkOnlyGrows(body, work, false); }
  }

  /** What runs after `a` appends to whatever `a` left. */
  lemma {:induction false} SecondPartGrows(a: Program, b: Program, work: seq<Row>, poisoned: bool)
    ensures var r := Meaning(a, [], poisoned); var q := Meaning(b, [], r.poisoned);
            && Meaning(b, r.work, r.poisoned) == Result(r.work + q.work, q.poisoned, q.outcome)
            && Meaning(b, work + r.work, r.poisoned) == Result(work + (r.work + q.work), q.poisoned, q.outcome)
    decreases b, 1
  {
    var r := Meaning(a, [], poisoned);
    var q := Meaning(b, [], r.poisoned);
    WorkOnlyGrows(b, r.work, r.poisoned);
    WorkOnlyGrows(b, work + r.work, r.poisoned);
    Prelude.Regroup(work, r.work, q.work);
  }

  /** A nested block either appends exactly what its body writes on its own and returns,
      or changes nothing and throws, leaving the connection usable. */
  lemma BlocksAreAllOrNothing(body: Program, work: seq<Row>)
    ensures var alone := Meaning(body, [], false); var r := Meaning(Nested(body), work, false);
            && (r.outcome.Returns? <==> alone.outcome.Returns? && !alone.poisoned)
            && r.work == (if r.outcome.Returns? then work + alone.work else work)
            && !r.poisoned
  {
    WorkOnlyGrows(body, work, false);
  }

  /** A block that catches a failed block goes on as if it had never run. */
  lemma FailedBlocksLeaveNoTrace(body: Program, rest: Program, work: seq<Row>)
    requires Meaning(Nested(body), work, false).outcome.Throws?
    ensures Meaning(Then(Catch(Nested(body), Skip), rest), work, false) == Meaning(rest, work, false)
  {
    BlocksAreAllOrNothing(body, work);
    assert Meaning(Catch(Nested(body), Skip), work, false) == Result(work, false, Returns);
  }

  // ----- the connection -----

  datatype Savepoint = Savepoint(name: string, snapshot: seq<Row>)

  const NAME := "nested_tx"

  /** The innermost savepoint of that name. */
  function Innermost(savepoints: seq<Savepoint>, name: string): (i: int)
    ensures -1 <= i < |savepoints|
    ensures i >= 0 ==> savepoints[i].name == name
    ensures forall j :: i < j < |savepoints| ==> savepoints[j].name != name
  {
    if savepoints == [] then -1
    else if savepoints[|savepoints| - 1].name == name then |savepoints| - 1
    else Innermost(savepoints[..|savepoints| - 1], name)
  }

  lemma TopIsInnermost(base: seq<Savepoint>, top: Savepoint)
    ensures Innermost(base + [top], top.name) == |base|
    ensures (base + [top])[..|base|] == base && (base + [top])[..|base| + 1] == base + [top]
  {
  }

  class Connection {
    var committed: seq<Row>
    var work: seq<Row>
    var savepoints: seq<Savepoint>
    var aborted: bool

    constructor ()
      ensures committed == work == [] && savepoints == [] && !aborted
    {
      committed, work, savepoints, aborted := [], [], [], false;
    }

    /** SAVEPOINT name: a savepoint of the same name is hidden, not replaced. */
    method Save(name: string) returns (ok: bool)
      modifies this
      ensures ok == !old(aborted)
      ensures work == old(work) && aborted == old(aborted) && committed == old(committed)
      ensures savepoints == if ok then old(savepoints) + [Savepoint(name, work)] else old(savepoints)
    {
      ok := !aborted;
      if ok {
        savepoints := savepoints + [Savepoint(name, work)];
      }
    }

    /** RELEASE SAVEPOINT name: forgets the innermost one and all above it. */
    method Release(name: string) returns (ok: bool)
      modifies this
      ensures ok == (!old(aborted) && Innermost(old(savepoints), name) >= 0)
      ensures work == old(work) && committed == old(committed) && aborted == !ok
      ensures savepoints == if ok then old(savepoints)[..Innermost(old(savepoints), name)] else old(savepoints)
    {
      var i := Innermost(savepoints, name);
      ok := !aborted && i >= 0;
      if ok {
        savepoints := savepoints[..i];
      }
      aborted := !ok;
    }

    /** ROLLBACK TO SAVEPOINT name: the one command an aborted transaction accepts. */
    method RollbackTo(name: string) returns (ok: bool)
      modifies this
      ensures ok == (Innermost(old(savepoints), name) >= 0)
      ensures committed == old(committed) && aborted == !ok
      ensures ok ==> var i := Innermost(old(savepoints), name);
                     work == old(savepoints)[i].snapshot && savepoints == old(savepoints)[..i + 1]
      ensures !ok ==> work == old(work) && savepoints == old(savepoints)
    {
      var i := Innermost(savepoints, name);
      ok := i >= 0;
      if ok {
        work := savepoints[i].snapshot;
        savepoints := savepoints[..i + 1];
      }
      aborted := !ok;
    }

    /** A statement inserting `row`, or one the database refuses. */
    method Query(row: Row, refused: bool) returns (ok: bool)
      modifies this
      ensures ok == (!old(aborted) && !refused)
      ensures work == (if ok then old(work) + [row] else old(work)) && aborted == !ok
      ensures savepoints == old(savepoints) && committed == old(committed)
    {
      ok := !aborted && !refused;
      if ok {
        work := work + [row];
      }
      aborted := !ok;
    }

    /** Any program of nested blocks on the shared connection does what its meaning says
        and leaves the savepoint stack as it found it, whatever names are on it. */
    method Execute(p: Program) returns (outcome: Outcome)
      modifies this
      ensures Result(work, aborted, outcome) == Meaning(p, old(work), old(aborted))
      ensures savepoints == old(savepoints) && committed == old(committed)
      decreases p, 0
    {
      match p
      case Skip =>
        outcome := Returns;
      case Write(row) =>
        var ok := Query(row, false);
        outcome := if ok then Returns else Throws;
      case FailingStatement =>
        var ok := Query("", true);
        outcome := Throws;
      case Throw =>
        outcome := Throws;
      case Then(first, second) =>
        outcome := Execute(first);
        if outcome.Returns? {
          outcome := Execute(second);
        }
      case Catch(body, handler) =>
        outcome := Execute(body);
        if outcome.Throws? {
          outcome := Execute(handler);
        }
      case Nested(body) =>
        outcome := WithTransaction(body);
    }

    /** withTransaction with an owner: SAVEPOINT, the body, RELEASE, or on any throw
        ROLLBACK TO, RELEASE and throw again. */
    method WithTransaction(body: Program) returns (outcome: Outcome)
      modifies this
      ensures Result(work, aborted, outcome) == Meaning(Nested(body), old(work), old(aborted))
      ensures savepoints == old(savepoints) && committed == old(committed)
      decreases body, 1
    {
      ghost var base := savepoints;
      var ok := Save(NAME);
      if !ok {
        return Throws;
      }
      TopIsInnermost(base, savepoints[|base|]);
      outcome := Execute(body);
      if outcome.Returns? {
        ok := Release(NAME);
        if ok {
          return Returns;
        }
      }
      ok := RollbackTo(NAME);
      ok := Release(NAME);
      return Throws;
    }

    /** withTransaction on its own connection: BEGIN, the body, COMMIT or ROLLBACK.
        COMMIT of an aborted transaction rolls back and still reports success. */
    method WithOwnTransaction(body: Program) returns (outcome: Outcome)
      modifies this
      ensures var r := Meaning(body, [], false);
              outcome == r.outcome
              && committed == old(committed) + (if r.outcome.Returns? && !r.poisoned then r.work else [])
      ensures work == [] && savepoints == [] && !aborted
    {
      work, savepoints, aborted := [], [], false;
      outcome := Execute(body);
      if outcome.Returns? && !aborted {
        committed := committed + work;
      }
      work, savepoints, aborted := [], [], false;
    }
  }

  // ----- the outermost block -----

  /** What the outermost block commits. */
  function Saved(body: Program): seq<Row> {
    var r := Meaning(body, [], false);
    if r.outcome.Returns? && !r.poisoned then r.work else []
  }

  /** The outermost block can return although nothing was saved: its body caught a failed
      statement that no nested block contained. */
  lemma SwallowedFailureIsNotReported(row: Row)
    ensures var body := Then(Write(row), Catch(FailingStatement, Skip));
            Meaning(body, [], false) == Result([row], true, Returns) && Saved(body) == [] && FateOf(body).Swallowed?
  {
    var caught := Catch(FailingStatement, Skip);
    assert Meaning(caught, [row], false) == Result([row], true, Returns);
    assert Meaning(Write(row), [], false) == Result([row], false, Returns);
  }

  /** How a body ends, read off its text alone: it returns on a usable transaction,
      throws on a usable or on an aborted one, or returns on an aborted one because a
      catch swallowed the failure. */
  datatype Fate = Clean | Threw | ThrewAborted | Swallowed

  /** It returns without sending the database another statement. */
  predicate Idle(p: Program) {
    match p
    case Skip => true
    case Then(first, second) => Idle(first) && Idle(second)
    case Catch(body, handler) => Idle(body) || Idle(handler)
    case _ => false
  }

  function FateOf(p: Program): Fate {
    match p
    case Skip => Clean
    case Write(_) => Clean
    case FailingStatement => ThrewAborted
    case Throw => Threw
    case Then(first, second) =>
      (match FateOf(first)
       case Clean => FateOf(second)
       case Swallowed => if Idle(second) then Swallowed else ThrewAborted
       case fate => fate)
    case Catch(body, handler) =>
      (match FateOf(body)
       case Threw => FateOf(handler)
       case ThrewAborted => if Idle(handler) then Swallowed else ThrewAborted
       case fate => fate)
    case Nested(body) => if FateOf(body).Clean? then Clean else Threw
  }

  /** An aborted transaction stays aborted and lets only idle programs return. */
  lemma {:induction false} AbortedRunsIdle(p: Program, work: seq<Row>)
    ensures Meaning(p, work, true) == Result(work, true, if Idle(p) then Returns else Throws)
  {
    match p
    case Then(first, second) =>
      AbortedRunsIdle(first, work);
      AbortedRunsIdle(second, work);
    case Catch(body, handler) =>
      AbortedRunsIdle(body, work);
      AbortedRunsIdle(handler, work);
    case _ =>
  }

  predicate EndsAs(r: Result, fate: Fate) {
    r.outcome.Returns? == (fate.Clean? || fate.Swallowed?) && r.poisoned == (fate.ThrewAborted? || fate.Swallowed?)
  }

  /** The text tells how the run ends, whatever was written before. */
  lemma {:induction false} FateIsDecided(p: Program, work: seq<Row>)
    ensures EndsAs(Meaning(p, work, false), FateOf(p))
  {
    match p
    case Then(first, second) =>
      FateIsDecided(first, work);
      FateIsDecided(second, Meaning(first, work, false).work);
      AbortedRunsIdle(second, Meaning(first, work, false).work);
    case Catch(body, handler) =>
      FateIsDecided(body, work);
      FateIsDecided(handler, Meaning(body, work, false).work);
      AbortedRunsIdle(handler, Meaning(body, work, false).work);
    case Nested(body) =>
      FateIsDecided(body, work);
    case _ =>
  }

  /** It ends with something written, read off the text as well: a block that does not
      end clean keeps nothing, and nothing is written once the transaction is aborted. */
  predicate Keeps(p: Program) {
    match p
    case Write(_) => true
    case Then(first, second) => Keeps(first) || (FateOf(first).Clean? && Keeps(second))
    case Catch(body, handler) => Keeps(body) || (FateOf(body).Threw? && Keeps(handler))
    case Nested(body) => FateOf(body).Clean? && Keeps(body)
    case _ => false
  }

  lemma {:induction false} KeepsIsDecided(p: Program, work: seq<Row>)
    ensures |Meaning(p, work, false).work| >= |work|
    ensures |Meaning(p, work, false).work| > |work| <==> Keeps(p)
  {
    match p
    case Then(first, second) =>
      KeepsIsDecided(first, work);
      KeepsIsDecided(second, Meaning(first, work, false).work);
      FateIsDecided(first, work);
      AbortedRunsIdle(second, Meaning(first, work, false).work);
    case Catch(body, handler) =>
      KeepsIsDecided(body, work);
      KeepsIsDecided(handler, Meaning(body, work, false).work);
      FateIsDecided(body, work);
      AbortedRunsIdle(handler, Meaning(body, work, false).work);
    case Nested(body) =>
      KeepsIsDecided(body, work);
      FateIsDecided(body, work);
    case _ =>
  }

  /** The outermost block reports success for work it did not save exactly when its body,
      by its text, writes something that stays and then swallows a failure no nested block
      contained. */
  lemma ReportIsFalseExactlyWhenSwallowed(body: Program)
    ensures var r := Meaning(body, [], false);
            (r.outcome.Returns? && Saved(body) != r.work) <==> FateOf(body).Swallowed? && Keeps(body)
  {
    FateIsDecided(body, []);
    KeepsIsDecided(body, []);
  }

  /** A nested block never does: it returns exactly when its body ends clean, with all
      the body wrote, and every other end of the body becomes a throw. */
  lemma NestedBlocksReportTruthfully(body: Program, work: seq<Row>)
    ensures var r := Meaning(Nested(body), work, false);
            && (r.outcome.Returns? <==> FateOf(body).Clean?)
            && r.work == (if r.outcome.Returns? then work + Meaning(body, [], false).work else work)
  {
    BlocksAreAllOrNothing(body, work);
    FateIsDecided(body, []);
  }

  // ----- programs without a failure -----

  /** No statement fails and nothing is thrown where it would run; the handlers of its
      catches may do anything. */
  predicate Sound(p: Program) {
    match p
    case FailingStatement => false
    case Throw => false
    case Then(first, second) => Sound(first) && Sound(second)
    case Catch(body, _) => Sound(body)
    case Nested(body) => Sound(body)
    case _ => true
  }

  /** The rows it writes, as they stand in its text, without the handlers. */
  function Texts(p: Program): seq<Row> {
    match p
    case Write(row) => [row]
    case Then(first, second) => Texts(first) + Texts(second)
    case Catch(body, _) => Texts(body)
    case Nested(body) => Texts(body)
    case _ => []
  }

  /** Then every row is kept once, in the order of the text, however deeply the blocks are
      nested, no handler runs, and the outermost block commits exactly these rows. */
  lemma {:induction false} SoundProgramsKeepEveryRow(p: Program, work: seq<Row>)
    requires Sound(p)
    ensures Meaning(p, work, false) == Result(work + Texts(p), false, Returns)
    ensures work == [] ==> Saved(p) == Texts(p)
  {
    match p
    case Then(first, second) =>
      SoundProgramsKeepEveryRow(first, work);
      SoundProgramsKeepEveryRow(second, work + Texts(first));
      Prelude.Regroup(work, Texts(first), Texts(second));
    case Catch(body, _) => SoundProgramsKeepEveryRow(body, work);
    case Nested(body) => SoundProgramsKeepEveryRow(body, work);
    case _ => Prelude.Regroup(work, [], []);
  }

  /** After a throw or a failed statement nothing of the rest runs, and the handler goes on
      with what was written before: on a usable transaction its rows are kept as well. */
  lemma HandlersGoOn(before: Program, after: Program, handler: Program, work: seq<Row>)
    requires Sound(before) && Sound(handler)
    ensures var kept := work + Texts(before);
            && Meaning(Catch(Then(before, Then(Throw, after)), handler), work, false) ==
               Result(kept + Texts(handler), false, Returns)
            && Meaning(Then(before, Then(Throw, after)), work, false) == Result(kept, false, Throws)
            && Meaning(Then(before, Then(FailingStatement, after)), work, false) == Result(kept, true, Throws)
  {
    SoundProgramsKeepEveryRow(before, work);
    SoundProgramsKeepEveryRow(handler, work + Texts(before));
    assert Meaning(Then(Throw, after), work + Texts(before), false) == Result(work + Texts(before), false, Throws);
    assert Meaning(Then(FailingStatement, after), work + Texts(before), false) ==
        Result(work + Texts(before), true, Throws);
    assert Meaning(Then(before, Then(Throw, after)), work, false) == Result(work + Texts(before), false, Throws);
  }
}

/** The Snowflake side as the provisioning code sees it: every statement or API call
    it makes is a `Command`, appended to the platform's trace whether or not it
    succeeds. Whether a command succeeds is foreign (the database decides); the
    `outcome` oracle gives it as a function of the trace so far and the command. */
module Backend {
  import opened Py

  /** The commands issued by utils/Custom_cortex.py and snowflake/dbCreator.py. */
  datatype Command =
    | UseDatabase(database: string)
    | UseSchema(schema: string)
    | CreateSchemaIfNotExists(schema: string)
    | CreateSearchService(service: string, onColumn: string, warehouse: string, targetLag: string,
                          embeddingModel: string, selectColumn: string, fromTable: string)
    | CreateDataFrame(frame: Frame)
    | SaveAsTable(table: string, mode: string)
    | DropSchema(inDatabase: Option<string>, schema: string)
    | CreateDatabase(name: string, orReplace: bool)
    | CreateSchema(database: string, name: string, orReplace: bool)

  /** How one command ends: it completes, or the call raises with a message. */
  datatype Outcome = Done | Failed(message: string)

  type Oracle = (seq<Command>, Command) -> Outcome

  /** The commands actually issued when `cmds` are run one after the other from trace
      `log`, stopping after the first one that raises. */
  function Issued(outcome: Oracle, log: seq<Command>, cmds: seq<Command>): seq<Command>
    decreases |cmds|
  {
    if |cmds| == 0 then []
    else if outcome(log, cmds[0]).Failed? then [cmds[0]]
    else [cmds[0]] + Issued(outcome, log + [cmds[0]], cmds[1..])
  }

  /** The message of the first command of `cmds` that raises, if any does. */
  function FirstFailure(outcome: Oracle, log: seq<Command>, cmds: seq<Command>): Option<string>
    decreases |cmds|
  {
    if |cmds| == 0 then None
    else if outcome(log, cmds[0]).Failed? then Some(outcome(log, cmds[0]).message)
    else FirstFailure(outcome, log + [cmds[0]], cmds[1..])
  }

  /** Commands run in order: what is issued is a prefix of what was asked for, and is
      not empty when anything was asked for. */
  lemma {:induction false} IssuedPrefix(outcome: Oracle, log: seq<Command>, cmds: seq<Command>)
    ensures |Issued(outcome, log, cmds)| <= |cmds|
    ensures Issued(outcome, log, cmds) == cmds[..|Issued(outcome, log, cmds)|]
    ensures |cmds| > 0 ==> |Issued(outcome, log, cmds)| > 0
    decreases |cmds|
  {
    if |cmds| > 0 && outcome(log, cmds[0]).Done? {
      IssuedPrefix(outcome, log + [cmds[0]], cmds[1..]);
      var done := Issued(outcome, log, cmds);
      assert cmds[..|done|] == [cmds[0]] + cmds[1..][..|done| - 1];
    }
  }

  /** When no command raises, every command asked for is issued. */
  lemma {:induction false} IssuedAll(outcome: Oracle, log: seq<Command>, cmds: seq<Command>)
    requires FirstFailure(outcome, log, cmds).None?
    ensures Issued(outcome, log, cmds) == cmds
    decreases |cmds|
  {
    if |cmds| > 0 {
      IssuedAll(outcome, log + [cmds[0]], cmds[1..]);
      assert cmds == [cmds[0]] + cmds[1..];
    }
  }

  /** When a command raises, it is the last one issued, it saw the trace of the ones
      before it, and its message is the one reported. */
  lemma {:induction false} FailureIsLast(outcome: Oracle, log: seq<Command>, cmds: seq<Command>)
    requires FirstFailure(outcome, log, cmds).Some?
    ensures var done := Issued(outcome, log, cmds);
            |done| > 0 && outcome(log + done[..|done| - 1], done[|done| - 1]) == Failed(FirstFailure(outcome, log, cmds).value)
    decreases |cmds|
  {
    if outcome(log, cmds[0]).Done? {
      FailureIsLast(outcome, log + [cmds[0]], cmds[1..]);
      var rest := Issued(outcome, log + [cmds[0]], cmds[1..]);
      assert Issued(outcome, log, cmds) == [cmds[0]] + rest;
      assert FirstFailure(outcome, log, cmds) == FirstFailure(outcome, log + [cmds[0]], cmds[1..]);
      ShiftLast(log, cmds[0], rest);
    } else {
      assert log + Issued(outcome, log, cmds)[..0] == log;
    }
  }

  /** The trace before the last of `[c] + rest`, seen from `log`, is the trace before
      the last of `rest`, seen from `log + [c]`. */
  lemma ShiftLast(log: seq<Command>, c: Command, rest: seq<Command>)
    requires |rest| > 0
    ensures var done := [c] + rest;
            && log + done[..|done| - 1] == (log + [c]) + rest[..|rest| - 1]
            && done[|done| - 1] == rest[|rest| - 1]
  {
    var done := [c] + rest;
    assert done[..|done| - 1] == [c] + rest[..|rest| - 1];
  }

  /** The error a failed command raises, or nothing. */
  function Raising(failure: Option<string>): Result<()> {
    match failure
    case None => Ok(())
    case Some(m) => Err(Raised(m))
  }

  /** The message of a command's failure, if it raises. */
  function Failure(o: Outcome): Option<string> {
    if o.Failed? then Some(o.message) else None
  }

  /** One command alone: it is issued, and its failure is the one reported. */
  lemma OneCommand(outcome: Oracle, log: seq<Command>, c: Command)
    ensures Issued(outcome, log, [c]) == [c]
    ensures FirstFailure(outcome, log, [c]) == Failure(outcome(log, c))
  {
    assert [c][0] == c && [c][1..] == [];
  }

  /** Two commands in a row: the second is sent only when the first completes. */
  lemma RunTwo(outcome: Oracle, log: seq<Command>, a: Command, b: Command)
    ensures Issued(outcome, log, [a, b]) == if outcome(log, a).Failed? then [a] else [a, b]
    ensures FirstFailure(outcome, log, [a, b])
         == if outcome(log, a).Failed? then Failure(outcome(log, a)) else Failure(outcome(log + [a], b))
  {
    assert [a, b][0] == a && [a, b][1..] == [b];
    if outcome(log, a).Done? {
      OneCommand(outcome, log + [a], b);
      assert Issued(outcome, log, [a, b]) == [a] + Issued(outcome, log + [a], [b]);
      assert FirstFailure(outcome, log, [a, b]) == FirstFailure(outcome, log + [a], [b]);
    }
  }

  /** Three commands in a row: each is sent only when all before it complete. */
  lemma RunThree(outcome: Oracle, log: seq<Command>, a: Command, b: Command, c: Command)
    ensures Issued(outcome, log, [a, b, c])
         == if outcome(log, a).Failed? then [a]
            else if outcome(log + [a], b).Failed? then [a, b]
            else [a, b, c]
    ensures FirstFailure(outcome, log, [a, b, c])
         == if outcome(log, a).Failed? then Failure(outcome(log, a))
            else if outcome(log + [a], b).Failed? then Failure(outcome(log + [a], b))
            else Failure(outcome(log + [a] + [b], c))
  {
    assert [a, b, c][1..] == [b, c];
    RunTwo(outcome, log + [a], b, c);
  }

  /** The platform a session or root handle talks to: the trace of commands issued so
      far, and the oracle that decides each one. */
  class Platform {
    var log: seq<Command>
    const outcome: Oracle

    constructor (outcome: Oracle)
      ensures log == [] && this.outcome == outcome
    {
      log := [];
      this.outcome := outcome;
    }

    /** Issues one command: it is appended to the trace, and the oracle says whether it
        raised. */
    method Issue(c: Command) returns (o: Outcome)
      modifies this
      ensures log == old(log) + [c]
      ensures o == outcome(old(log), c)
    {
      o := outcome(log, c);
      log := log + [c];
    }
  }
}

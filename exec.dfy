/** The contract of `exec` from `@actions/exec` as the git service relies on it: a command
    either could not be started, or ran and exited with a code; a non-zero code rejects the
    promise unless `ignoreReturnCode` is set.

    What a command does to the machine is not modelled. A `Shell` says what a command returns
    given every command issued before it, so later commands may see the effects of earlier
    ones. */
module Exec {
  import opened Wrappers
  import Strings

  /** `exec(tool, args, { cwd, env })`; `cwd` is "" for the process's working directory and
      `env` holds only the variables added to the inherited environment. */
  datatype Cmd = Cmd(tool: string, args: seq<string>, cwd: string, env: map<string, string>)

  /** What running a command produced. */
  datatype ExecResult = Exited(code: int, stdout: string) | SpawnFailed(message: string)

  /** The result of a command, given the commands issued before it. */
  type Shell = (seq<Cmd>, Cmd) -> ExecResult

  function ExitMessage(tool: string, code: int): string
  {
    "The process '" + tool + "' failed with exit code " + Strings.IntToString(code)
  }

  /** The settled promise of `exec`: the captured standard output, or the rejection. */
  function Settle(res: ExecResult, tool: string, ignoreReturnCode: bool): (r: Result<string>)
    ensures r.Ok? <==> res.Exited? && (res.code == 0 || ignoreReturnCode)
    ensures r.Ok? ==> r.value == res.stdout
    ensures res.SpawnFailed? ==> r == Err(res.message)
    ensures res.Exited? && res.code != 0 && !ignoreReturnCode ==> r == Err(ExitMessage(tool, res.code))
  {
    match res
    case SpawnFailed(m) => Err(m)
    case Exited(code, out) =>
      if code != 0 && !ignoreReturnCode then Err(ExitMessage(tool, code)) else Ok(out)
  }

  /** The commands of a sequence that were issued, and how the sequence ended. */
  datatype Run = Run(issued: seq<Cmd>, outcome: Outcome)

  /** Awaiting `cmds` one after another: the first rejection stops the sequence. */
  function RunAll(shell: Shell, before: seq<Cmd>, cmds: seq<Cmd>): (r: Run)
    ensures |r.issued| <= |cmds| && r.issued == cmds[..|r.issued|]
    decreases |cmds|
  {
    if cmds == [] then Run([], Pass)
    else
      match Settle(shell(before, cmds[0]), cmds[0].tool, false)
      case Err(e) => Run([cmds[0]], Fail(e))
      case Ok(_) =>
        var rest := RunAll(shell, before + [cmds[0]], cmds[1..]);
        assert cmds[1..][..|rest.issued|] == cmds[1..1 + |rest.issued|];
        Run([cmds[0]] + rest.issued, rest.outcome)
  }

  /** A sequence passes exactly when every command was issued and settled successfully; it
      fails with the rejection of the last command it issued, every earlier one having
      succeeded. */
  lemma {:induction false} RunAllOutcome(shell: Shell, before: seq<Cmd>, cmds: seq<Cmd>)
    ensures var r := RunAll(shell, before, cmds);
      && (r.outcome.Pass? <==> r.issued == cmds && Succeeds(shell, before, cmds))
      && (r.outcome.Fail? ==>
            var n := |r.issued|;
            && n >= 1
            && Succeeds(shell, before, cmds[..n - 1])
            && r.outcome == Settle(shell(before + cmds[..n - 1], cmds[n - 1]), cmds[n - 1].tool, false).ToOutcome())
    decreases |cmds|
  {
    if cmds != [] {
      var r := RunAll(shell, before, cmds);
      match Settle(shell(before, cmds[0]), cmds[0].tool, false)
      case Err(e) =>
        assert cmds[..0] == [] && before + cmds[..0] == before;
      case Ok(_) =>
        var tail := before + [cmds[0]];
        var rest := RunAll(shell, tail, cmds[1..]);
        RunAllOutcome(shell, tail, cmds[1..]);
        assert r == Run([cmds[0]] + rest.issued, rest.outcome);
        if rest.outcome.Fail? {
          var n := |r.issued|;
          assert cmds[..n - 1] == [cmds[0]] + cmds[1..][..n - 2];
          assert before + cmds[..n - 1] == tail + cmds[1..][..n - 2];
        } else {
          assert [cmds[0]] + cmds[1..] == cmds;
        }
    }
  }

  /** Every command of `cmds` settles successfully, each after the ones before it. */
  ghost predicate Succeeds(shell: Shell, before: seq<Cmd>, cmds: seq<Cmd>)
    decreases |cmds|
  {
    cmds != [] ==>
      && Settle(shell(before, cmds[0]), cmds[0].tool, false).Ok?
      && Succeeds(shell, before + [cmds[0]], cmds[1..])
  }

  /** One more command after a sequence that settled successfully. */
  lemma {:induction false} RunAllSnoc(shell: Shell, before: seq<Cmd>, cmds: seq<Cmd>, c: Cmd)
    requires RunAll(shell, before, cmds).outcome.Pass?
    ensures RunAll(shell, before, cmds + [c])
            == Run(cmds + [c], Settle(shell(before + cmds, c), c.tool, false).ToOutcome())
    decreases |cmds|
  {
    if cmds == [] {
      assert cmds + [c] == [c] && before + cmds == before;
      assert [c][1..] == [];
    } else {
      var tail := before + [cmds[0]];
      var first := Settle(shell(before, cmds[0]), cmds[0].tool, false);
      assert first.Ok?;
      var rest := RunAll(shell, tail, cmds[1..]);
      assert rest.outcome.Pass?;
      var longer := cmds + [c];
      assert longer[0] == cmds[0] && longer[1..] == cmds[1..] + [c];
      RunAllSnoc(shell, tail, cmds[1..], c);
      ShiftFirst(before, cmds);
      var restLonger := RunAll(shell, tail, cmds[1..] + [c]);
      assert RunAll(shell, before, longer) == Run([cmds[0]] + restLonger.issued, restLonger.outcome);
      assert [cmds[0]] + (cmds[1..] + [c]) == longer;
    }
  }

  /** Nothing after the first rejection is issued. */
  lemma {:induction false} RunAllStops(shell: Shell, before: seq<Cmd>, cmds: seq<Cmd>, more: seq<Cmd>)
    requires RunAll(shell, before, cmds).outcome.Fail?
    ensures RunAll(shell, before, cmds + more) == RunAll(shell, before, cmds)
    decreases |cmds|
  {
    assert (cmds + more)[0] == cmds[0];
    if Settle(shell(before, cmds[0]), cmds[0].tool, false).Ok? {
      assert (cmds + more)[1..] == cmds[1..] + more;
      RunAllStops(shell, before + [cmds[0]], cmds[1..], more);
    }
  }

  lemma ShiftFirst<T>(before: seq<T>, xs: seq<T>)
    requires xs != []
    ensures before + [xs[0]] + xs[1..] == before + xs
  {
    assert [xs[0]] + xs[1..] == xs;
  }
}

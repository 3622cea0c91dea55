/** The running state of simple_shell.c: the global should_run (line 31), the
    built-in `surt` that clears it (lines 136-139), execute_command (lines 143-186) on
    the argument array, and the loop of `main` (lines 197-233). */
module Interpreter {
  import opened Common
  import opened ArgVector
  import opened Tokenizer
  import opened Builtins
  import opened Dispatcher

  class Shell {
    /** should_run: the loop of `main` goes on while it is set. */
    var shouldRun: bool

    /** `int should_run = 1;` */
    constructor ()
      ensures shouldRun
    {
      shouldRun := true;
    }

    /** surt: clears should_run and does nothing else. */
    method Surt()
      modifies this
      ensures !shouldRun
    {
      shouldRun := false;
    }

    /** execute_command on the array `main` filled. The built-in scan comes first; a
        hit runs the built-in, prints "\n" and returns. Otherwise fork: the child works
        on its own copy of `args`, overwrites a final "&" with NULL and calls execvp;
        the parent, whose `args` is untouched, waits unless the last entry is "&". */
    method ExecuteCommand(args: array<Option<string>>, ghost tokens: seq<string>, env: Env)
      returns (o: Outcome)
      requires args.Length == MAX_LINE && IsArgv(args, tokens) && Dispatchable(tokens)
      modifies this
      ensures o == Dispatch(tokens, env)
      ensures shouldRun == (old(shouldRun) && !Stops(o))
    {
      var found, i := FindBuiltin(args[0].value);
      if found {
        BuiltinReadsWithinVector(args, tokens, env);
        var action := BuiltinAction(i, args[..], env);
        if i == SURT {
          Surt();
        }
        return Builtin(i, action, BuiltinOutput(i, args[..], env));
      }
      if env.forkFails {
        return ForkFailed;
      }
      // the child, on its copy of the vector
      var child := DropBackgroundMarker(args, tokens);
      var argv := ReadArgv(child, StripBackground(tokens));
      // the parent
      var last := GetLastArg(args);
      LastArgOfArgv(args, tokens, last);
      return External(argv, args[last] != Some("&"));
    }

    /** One iteration of the loop: a line starting with '\n' is skipped, any other is
        tokenized and dispatched. */
    method Step(line: string, env: Env) returns (o: Option<Outcome>)
      requires StepReady(line)
      modifies this
      ensures o == StepOutcome(line, env)
      ensures shouldRun == (old(shouldRun) && !StepStops(o))
    {
      if line[0] == '\n' {
        return None;
      }
      var args, count := Tokenize(line);
      var r := ExecuteCommand(args, Tokens(Normalise(line)), env);
      return Some(r);
    }

    /** `while (should_run)` over the given input lines, line k handled in environment
        envs[k]: the outcomes are those of RunOutcomes, and the shell is stopped exactly
        when the last line handled was a `surt`. */
    method Run(lines: seq<string>, envs: seq<Env>) returns (outcomes: seq<Option<Outcome>>)
      requires shouldRun
      requires RunReady(lines, envs)
      modifies this
      ensures outcomes == RunOutcomes(lines, envs)
      ensures !shouldRun <==> (|outcomes| > 0 && StepStops(outcomes[|outcomes| - 1]))
    {
      ghost var steps := LineSteps(lines, envs);
      outcomes := [];
      var k := 0;
      while shouldRun && k < |lines|
        invariant 0 <= k <= |lines| && |outcomes| == k
        invariant shouldRun ==> Runnable(steps[k..]) && UntilStop(steps) == outcomes + UntilStop(steps[k..])
        invariant shouldRun ==> k == 0 || !StepStops(outcomes[k - 1])
        invariant !shouldRun ==> outcomes == UntilStop(steps) && k > 0 && StepStops(outcomes[k - 1])
      {
        ghost var rest := steps[k..];
        assert rest[0] == steps[k] && rest[1..] == steps[k + 1..];
        LineStepsAt(lines, envs, k);
        var o := Step(lines[k], envs[k]);
        if shouldRun {
          assert UntilStop(rest) == [o] + UntilStop(rest[1..]);
          assert outcomes + UntilStop(rest) == (outcomes + [o]) + UntilStop(steps[k + 1..]);
        }
        outcomes := outcomes + [o];
        k := k + 1;
      }
      if shouldRun {
        assert steps[k..] == [];
      }
    }
  }
}

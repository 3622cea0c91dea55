/** The decision execute_command (simple_shell.c:143-186) takes for one vector, and
    what the loop of `main` (lines 197-233) does with a sequence of input lines, as
    specification functions with the properties proved about them. */
module Dispatcher {
  import opened Common
  import opened ArgVector
  import opened Tokenizer
  import opened Builtins

  /** What one call of execute_command does. */
  datatype Outcome =
    | Builtin(index: nat, action: Action, output: string)  // built_in_functions[index] ran, no fork
    | ForkFailed                                           // fork failed: "Fork Failed.\n"
    | External(argv: seq<string>, wait: bool)              // child execvp(argv[0], argv); parent waits iff wait

  /** The outcome of `surt`, the only one that clears should_run. */
  predicate Stops(o: Outcome) {
    o.Builtin? && o.index == SURT
  }

  /** What execute_command demands of its vector: args[0] is not NULL (strcmp at line
      153), and `cm` has a path (otherwise change_mode reads args[2], past the sentinel). */
  predicate Dispatchable(tokens: seq<string>) {
    |tokens| > 0 && (tokens[0] == "cm" ==> |tokens| >= 2)
  }

  /** A dispatchable vector lets its built-in read what it reads. */
  lemma DispatchableCanCall(tokens: seq<string>)
    requires Dispatchable(tokens) && tokens[0] in BUILT_INS
    ensures CanCall(IndexOf(BUILT_INS, tokens[0]), Vector(tokens))
  {
  }

  /** execute_command on the vector `tokens`: built-in lookup first, then fork; the
      child drops a final "&", the parent waits unless the last token is "&". */
  function Dispatch(tokens: seq<string>, env: Env): Outcome
    requires Dispatchable(tokens)
  {
    if tokens[0] in BUILT_INS then
      var i := IndexOf(BUILT_INS, tokens[0]);
      DispatchableCanCall(tokens);
      Builtin(i, BuiltinAction(i, Vector(tokens), env), BuiltinOutput(i, Vector(tokens), env))
    else if env.forkFails then ForkFailed
    else External(StripBackground(tokens), tokens[|tokens| - 1] != "&")
  }

  /** Built-in precedence: a vector whose first token is a built-in name runs that
      built-in (the one at the same table index), whatever the other tokens, prints a
      final "\n", and never reaches fork - the outcome does not depend on whether fork
      would fail. Any other first token runs no built-in. */
  lemma BuiltinPrecedence(tokens: seq<string>, env: Env)
    requires Dispatchable(tokens)
    ensures Dispatch(tokens, env).Builtin? <==> tokens[0] in BUILT_INS
    ensures tokens[0] in BUILT_INS ==>
      var o := Dispatch(tokens, env);
      o.index < BUILT_IN_COMMANDS && BUILT_INS[o.index] == tokens[0]
      && |o.output| > 0 && o.output[|o.output| - 1] == '\n'
      && Dispatch(tokens, env.(forkFails := !env.forkFails)) == o
  {
  }

  /** An external command: the parent waits exactly when the last token is not "&";
      the child's vector is the same tokens in the same order, except that a final "&"
      is gone. */
  lemma ExternalLaunch(tokens: seq<string>, env: Env)
    requires Dispatchable(tokens) && tokens[0] !in BUILT_INS && !env.forkFails
    ensures Dispatch(tokens, env).External?
    ensures var o := Dispatch(tokens, env);
      (o.wait <==> tokens[|tokens| - 1] != "&")
      && |o.argv| == (if o.wait then |tokens| else |tokens| - 1)
      && forall i :: 0 <= i < |o.argv| ==> o.argv[i] == tokens[i]
  {
  }

  /** Only `surt` stops the shell. */
  lemma StopsIffSurt(tokens: seq<string>, env: Env)
    requires Dispatchable(tokens)
    ensures Stops(Dispatch(tokens, env)) <==> tokens[0] == "surt"
  {
    if tokens[0] == "surt" {
      assert BUILT_INS[SURT] == "surt";
    }
  }

  /** A built-in reads only up to the sentinel, so it computes the same on the array
      `main` filled as on the vector `tokens` stands for. */
  lemma BuiltinReadsWithinVector(args: array<Option<string>>, tokens: seq<string>, env: Env)
    requires args.Length == MAX_LINE && IsArgv(args, tokens) && Dispatchable(tokens)
    requires tokens[0] in BUILT_INS
    ensures var i := IndexOf(BUILT_INS, tokens[0]);
      CanCall(i, args[..]) && CanCall(i, Vector(tokens))
      && BuiltinAction(i, args[..], env) == BuiltinAction(i, Vector(tokens), env)
      && BuiltinOutput(i, args[..], env) == BuiltinOutput(i, Vector(tokens), env)
  {
    var v := Vector(tokens);
    assert args[..][0] == v[0] && args[..][1] == v[1];
    if |tokens| >= 2 {
      assert args[..][2] == v[2];
    }
  }

  /** What `main` demands of one input line: a line as fgets delivers it and, unless it
      is the empty line "\n", a dispatchable vector. */
  predicate StepReady(line: string) {
    IsInputLine(line) && (line[0] != '\n' ==> Dispatchable(Tokens(Normalise(line))))
  }

  /** One iteration of the loop in `main` (lines 204-231): None when the line starts
      with '\n' and is not dispatched (line 205). */
  function StepOutcome(line: string, env: Env): Option<Outcome>
    requires StepReady(line)
  {
    if line[0] == '\n' then None else Some(Dispatch(Tokens(Normalise(line)), env))
  }

  predicate StepStops(o: Option<Outcome>) {
    o.Some? && Stops(o.value)
  }

  /** What the loop can do with one input line: nothing, when it is a line `main`
      cannot handle, or handle it with the given outcome. */
  datatype LineStep = Unhandled | Handled(outcome: Option<Outcome>)

  function LineStepOf(line: string, env: Env): LineStep {
    if StepReady(line) then Handled(StepOutcome(line, env)) else Unhandled
  }

  /** The step of every input line, whether the loop reaches it or not. */
  /** Line k is handled in its own environment envs[k]: the loop of `main` calls
      `fork` (line 161), `getpwnam` (line 121) and, through `get_username`, `getlogin`
      (line 43) afresh for every line, so their answers may differ from line to line. */
  function LineSteps(lines: seq<string>, envs: seq<Env>): (r: seq<LineStep>)
    requires |envs| == |lines|
    ensures |r| == |lines|
    decreases |lines|
  {
    if lines == [] then [] else [LineStepOf(lines[0], envs[0])] + LineSteps(lines[1..], envs[1..])
  }

  /** Entry i of the steps is the step of line i in environment i. */
  lemma {:induction false} LineStepsAt(lines: seq<string>, envs: seq<Env>, i: nat)
    requires |envs| == |lines| && i < |lines|
    ensures LineSteps(lines, envs)[i] == LineStepOf(lines[i], envs[i])
    decreases i
  {
    if i > 0 {
      LineStepsAt(lines[1..], envs[1..], i - 1);
    }
  }

  /** The steps the loop takes can all be handled: every step up to and including the
      first one that stops the shell. The steps after it are never taken. */
  predicate Runnable(steps: seq<LineStep>)
    decreases |steps|
  {
    steps == []
    || (steps[0].Handled? && (StepStops(steps[0].outcome) || Runnable(steps[1..])))
  }

  /** The outcomes of the loop on the given steps: one per step, up to and including
      the first one that stops the shell. */
  function UntilStop(steps: seq<LineStep>): seq<Option<Outcome>>
    requires Runnable(steps)
    decreases |steps|
  {
    if steps == [] then []
    else
      var o := steps[0].outcome;
      if StepStops(o) then [o] else [o] + UntilStop(steps[1..])
  }

  /** The loop handles the steps in order, one outcome each. It ends right after the
      first step that stops the shell, and only there, or when the steps run out. */
  lemma {:induction false} UntilStopShape(steps: seq<LineStep>)
    requires Runnable(steps)
    ensures var r := UntilStop(steps);
      |r| <= |steps| && (|steps| > 0 ==> |r| > 0)
      && (forall i :: 0 <= i < |r| ==> steps[i] == Handled(r[i]))
      && (forall i :: 0 <= i < |r| - 1 ==> !StepStops(r[i]))
      && (|r| < |steps| ==> StepStops(r[|r| - 1]))
    decreases |steps|
  {
    if steps != [] && !StepStops(steps[0].outcome) {
      UntilStopShape(steps[1..]);
      var r := UntilStop(steps);
      var t := UntilStop(steps[1..]);
      assert r == [steps[0].outcome] + t;
      forall i | 0 < i < |r| ensures steps[i] == Handled(r[i]) {
        assert steps[1..][i - 1] == steps[i] && r[i] == t[i - 1];
      }
    }
  }

  /** Steps after the one that stops the shell are never taken: appending any steps
      at all, even ones that cannot be handled, leaves the run as it is. */
  lemma {:induction false} UntilStopIgnoresRest(steps: seq<LineStep>, more: seq<LineStep>)
    requires Runnable(steps)
    requires var r := UntilStop(steps); |r| > 0 && StepStops(r[|r| - 1])
    ensures Runnable(steps + more) && UntilStop(steps + more) == UntilStop(steps)
    decreases |steps|
  {
    var all := steps + more;
    assert steps != [] && all[0] == steps[0];
    if !StepStops(steps[0].outcome) {
      var t := UntilStop(steps[1..]);
      assert UntilStop(steps) == [steps[0].outcome] + t;
      assert all[1..] == steps[1..] + more;
      UntilStopIgnoresRest(steps[1..], more);
    }
  }

  /** Steps that can all be handled can be run. */
  lemma {:induction false} AllHandledRunnable(steps: seq<LineStep>)
    requires forall i :: 0 <= i < |steps| ==> steps[i].Handled?
    ensures Runnable(steps)
    decreases |steps|
  {
    if steps != [] {
      assert steps[0].Handled?;
      forall i | 0 <= i < |steps[1..]| ensures steps[1..][i].Handled? {
        assert steps[1..][i] == steps[i + 1];
      }
      AllHandledRunnable(steps[1..]);
    }
  }

  /** What the loop of `main` demands of its input: every line it reads can be
      handled. It reads up to and including the first line that stops the shell and
      never looks at the lines after it. */
  predicate RunReady(lines: seq<string>, envs: seq<Env>) {
    |envs| == |lines| && Runnable(LineSteps(lines, envs))
  }

  /** The loop `while (should_run)` (line 197) over the given input lines, line k
      handled in environment envs[k]. */
  function RunOutcomes(lines: seq<string>, envs: seq<Env>): seq<Option<Outcome>>
    requires RunReady(lines, envs)
  {
    UntilStop(LineSteps(lines, envs))
  }

  /** The loop handles the lines in order, one outcome each, equal to that line's own
      outcome. It ends right after the first line that stops the shell, and only there,
      or when the input ends. */
  lemma RunStopsAtFirstStop(lines: seq<string>, envs: seq<Env>)
    requires RunReady(lines, envs)
    ensures var r := RunOutcomes(lines, envs);
      |r| <= |lines| && (|lines| > 0 ==> |r| > 0)
      && (forall i :: 0 <= i < |r| ==> StepReady(lines[i]) && r[i] == StepOutcome(lines[i], envs[i]))
      && (forall i :: 0 <= i < |r| - 1 ==> !StepStops(r[i]))
      && (|r| < |lines| ==> StepStops(r[|r| - 1]))
  {
    var steps := LineSteps(lines, envs);
    UntilStopShape(steps);
    var r := RunOutcomes(lines, envs);
    forall i | 0 <= i < |r| ensures StepReady(lines[i]) && r[i] == StepOutcome(lines[i], envs[i]) {
      LineStepsAt(lines, envs, i);
    }
  }

  /** The steps of two inputs one after the other. */
  lemma LineStepsAppend(lines: seq<string>, more: seq<string>, envs: seq<Env>, moreEnvs: seq<Env>)
    requires |envs| == |lines| && |moreEnvs| == |more|
    ensures LineSteps(lines + more, envs + moreEnvs) == LineSteps(lines, envs) + LineSteps(more, moreEnvs)
  {
    var all, allEnvs := lines + more, envs + moreEnvs;
    forall i | 0 <= i < |all|
      ensures LineSteps(all, allEnvs)[i] == (LineSteps(lines, envs) + LineSteps(more, moreEnvs))[i]
    {
      LineStepsAt(all, allEnvs, i);
      if i < |lines| {
        assert all[i] == lines[i] && allEnvs[i] == envs[i];
        LineStepsAt(lines, envs, i);
      } else {
        assert all[i] == more[i - |lines|] && allEnvs[i] == moreEnvs[i - |lines|];
        LineStepsAt(more, moreEnvs, i - |lines|);
      }
    }
  }

  /** Lines after the one that stops the shell are never read: appending any lines at
      all, even ones `main` cannot handle, in any environments, leaves the run as it is. */
  lemma RunIgnoresLinesAfterStop(lines: seq<string>, more: seq<string>, envs: seq<Env>, moreEnvs: seq<Env>)
    requires RunReady(lines, envs) && |moreEnvs| == |more|
    requires var r := RunOutcomes(lines, envs); |r| > 0 && StepStops(r[|r| - 1])
    ensures RunReady(lines + more, envs + moreEnvs)
    ensures RunOutcomes(lines + more, envs + moreEnvs) == RunOutcomes(lines, envs)
  {
    LineStepsAppend(lines, more, envs, moreEnvs);
    UntilStopIgnoresRest(LineSteps(lines, envs), LineSteps(more, moreEnvs));
  }

  /** Every line of the input is one `main` can handle. */
  predicate AllReady(lines: seq<string>) {
    forall i :: 0 <= i < |lines| ==> StepReady(lines[i])
  }

  /** An input whose every line can be handled is one the loop can run. */
  lemma AllReadyRunReady(lines: seq<string>, envs: seq<Env>)
    requires AllReady(lines) && |envs| == |lines|
    ensures RunReady(lines, envs)
  {
    var steps := LineSteps(lines, envs);
    forall i | 0 <= i < |steps| ensures steps[i].Handled? {
      LineStepsAt(lines, envs, i);
    }
    AllHandledRunnable(steps);
  }

  /** A line stops the shell exactly when it is dispatched and its first token is
      "surt"; an empty line "\n" never does. */
  lemma StepStopsIffSurt(line: string, env: Env)
    requires StepReady(line)
    ensures StepStops(StepOutcome(line, env)) <==>
      line[0] != '\n' && Tokens(Normalise(line))[0] == "surt"
  {
    if line[0] != '\n' {
      StopsIffSurt(Tokens(Normalise(line)), env);
    }
  }

  /** A line without NUL bytes that ends in '&' (after its newline) runs in the
      background: the parent does not wait and the child gets the tokens of the rest of
      the line. */
  lemma BackgroundLine(line: string, env: Env)
    requires StepReady(line) && line[0] != '\n' && NoNul(line) && !env.forkFails
    requires var s := StripNewline(line); |s| > 0 && s[|s| - 1] == '&'
    requires Tokens(Normalise(line))[0] !in BUILT_INS
    ensures var s := StripNewline(line);
      StepOutcome(line, env) == Some(External(Tokens(s[..|s| - 1]), false))
  {
    TrailingAmpIsOwnToken(line);
    var s := StripNewline(line);
    var t := Tokens(Normalise(line));
    assert t[..|t| - 1] == Tokens(s[..|s| - 1]);
  }

  /** A line without NUL bytes whose last token is not "&" runs in the foreground with
      the tokens of the line. */
  lemma ForegroundLine(line: string, env: Env)
    requires StepReady(line) && line[0] != '\n' && NoNul(line) && !env.forkFails
    requires var t := Tokens(Normalise(line)); t[0] !in BUILT_INS && t[|t| - 1] != "&"
    ensures StepOutcome(line, env) == Some(External(Tokens(StripNewline(line)), true))
  {
    var s := StripNewline(line);
    if |s| > 0 && s[|s| - 1] == '&' {
      TrailingAmpIsOwnToken(line);
      assert false;
    }
    NoTrailingAmpUnchanged(line);
  }
}

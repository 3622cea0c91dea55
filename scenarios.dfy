/** Typical command lines followed through the model: each line is tokenized and
    dispatched. Each scenario is split into the tokens of the line and the dispatch of
    those tokens. */
module Scenarios {
  import opened Common
  import opened ArgVector
  import opened Tokenizer
  import opened Builtins
  import opened Dispatcher

  /** Text with neither a NUL byte nor a newline. */
  predicate Plain(s: string) {
    forall i :: 0 <= i < |s| ==> s[i] != '\0' && s[i] != '\n'
  }

  lemma PlainConcat(x: string, y: string)
    requires Plain(x) && Plain(y)
    ensures Plain(x + y)
  {
    assert forall i :: |x| <= i < |x + y| ==> (x + y)[i] == y[i - |x|];
  }

  /** Plain text followed by its newline is a line fgets can deliver. */
  lemma PlainInputLine(body: string)
    requires Plain(body) && 0 < |body| < MAX_LINE - 1
    ensures var line := body + "\n";
      IsInputLine(line) && line[0] != '\n' && NoNul(line) && StripNewline(line) == body
  {
    var line := body + "\n";
    assert forall i :: 0 <= i < |body| ==> line[i] == body[i];
    CStringOfAt(line, |line|);
    assert line[..|line| - 1] == body;
  }

  /** A line that tokenizes to `ws` is dispatched as `ws`. */
  lemma StepOfTokens(line: string, ws: seq<string>, env: Env)
    requires IsInputLine(line) && line[0] != '\n'
    requires Tokens(Normalise(line)) == ws && Dispatchable(ws)
    ensures StepReady(line) && StepOutcome(line, env) == Some(Dispatch(ws, env))
  {
  }

  lemma VectorOfThree(a: string, b: string, c: string)
    ensures Vector([a, b, c]) == [Some(a), Some(b), Some(c), None]
  {
  }

  lemma VectorOfTwo(a: string, b: string)
    ensures Vector([a, b]) == [Some(a), Some(b), None]
  {
  }

  lemma VectorOfOne(a: string)
    ensures Vector([a]) == [Some(a), None]
  {
  }

  /** A plain line of three words. */
  lemma ThreeWordLine(line: string, a: string, b: string, c: string)
    requires IsWord(a) && IsWord(b) && IsWord(c) && Plain(a) && Plain(b) && Plain(c)
    requires c[|c| - 1] != '&' && |line| < MAX_LINE
    requires line == a + " " + b + " " + c + "\n"
    ensures IsInputLine(line) && line[0] != '\n' && Tokens(Normalise(line)) == [a, b, c]
  {
    var ws := [a, b, c];
    var body := a + " " + b + " " + c;
    assert Plain(" ");
    PlainConcat(a, " ");
    PlainConcat(a + " ", b);
    PlainConcat(a + " " + b, " ");
    PlainConcat(a + " " + b + " ", c);
    PlainInputLine(body);
    assert line == body + "\n";
    assert ws[1..] == [b, c] && ws[1..][1..] == [c];
    assert Join([b, c]) == b + " " + c;
    assert Join(ws) == body;
    PlainLineTokens(line, ws);
  }

  /** A plain line of two words. */
  lemma TwoWordLine(line: string, a: string, b: string)
    requires IsWord(a) && IsWord(b) && Plain(a) && Plain(b)
    requires b[|b| - 1] != '&' && |line| < MAX_LINE
    requires line == a + " " + b + "\n"
    ensures IsInputLine(line) && line[0] != '\n' && Tokens(Normalise(line)) == [a, b]
  {
    var ws := [a, b];
    var body := a + " " + b;
    assert Plain(" ");
    PlainConcat(a, " ");
    PlainConcat(a + " ", b);
    PlainInputLine(body);
    assert line == body + "\n";
    assert ws[1..] == [b];
    assert Join(ws) == body;
    PlainLineTokens(line, ws);
  }

  /** A line of one word. */
  lemma OneWordLine(line: string, a: string)
    requires IsWord(a) && Plain(a) && a[|a| - 1] != '&' && |line| < MAX_LINE
    requires line == a + "\n"
    ensures IsInputLine(line) && line[0] != '\n' && Tokens(Normalise(line)) == [a]
  {
    PlainInputLine(a);
    PlainLineTokens(line, [a]);
  }

  /** Two words and a separate '&'. */
  lemma TwoWordsInBackground(line: string, a: string, b: string)
    requires IsWord(a) && IsWord(b) && Plain(a) && Plain(b) && |line| < MAX_LINE
    requires line == a + " " + b + " &\n"
    ensures IsInputLine(line) && line[0] != '\n' && Tokens(Normalise(line)) == [a, b, "&"]
  {
    var ws := [a, b];
    var body := a + " " + b + " &";
    assert Plain(" ") && Plain(" &");
    PlainConcat(a, " ");
    PlainConcat(a + " ", b);
    PlainConcat(a + " " + b, " &");
    PlainInputLine(body);
    assert line == body + "\n";
    assert ws[1..] == [b];
    assert Join(ws) == a + " " + b;
    BackgroundOfJoin(line, ws);
  }

  lemma ChangeModeWithModeTokens(line: string)
    requires line == "cm secret.txt 600\n"
    ensures IsInputLine(line) && line[0] != '\n' && Tokens(Normalise(line)) == ["cm", "secret.txt", "600"]
  {
    assert Plain("cm") && Plain("secret.txt") && Plain("600");
    assert "cm" + " " + "secret.txt" + " " == "cm secret.txt ";
    ThreeWordLine(line, "cm", "secret.txt", "600");
  }

  lemma ChangeModeWithModeDispatch(env: Env)
    ensures Dispatchable(["cm", "secret.txt", "600"])
    ensures Dispatch(["cm", "secret.txt", "600"], env) == Builtin(CHANGE_MODE, ChangeMode("secret.txt", 384), "\n")
  {
    VectorOfThree("cm", "secret.txt", "600");
    assert IndexOf(BUILT_INS, "cm") == CHANGE_MODE;
    OctalModeSixHundred();
  }

  /** `cm secret.txt 600` makes chmod("secret.txt", 0600). */
  lemma ChangeModeWithMode(line: string, env: Env)
    requires line == "cm secret.txt 600\n"
    ensures StepReady(line)
    ensures StepOutcome(line, env) == Some(Builtin(CHANGE_MODE, ChangeMode("secret.txt", 384), "\n"))
  {
    ChangeModeWithModeTokens(line);
    StepOfTokens(line, ["cm", "secret.txt", "600"], env);
    ChangeModeWithModeDispatch(env);
  }

  lemma ChangeModeDefaultTokens(line: string)
    requires line == "cm secret.txt\n"
    ensures IsInputLine(line) && line[0] != '\n' && Tokens(Normalise(line)) == ["cm", "secret.txt"]
  {
    assert Plain("cm") && Plain("secret.txt");
    assert "cm" + " " == "cm ";
    TwoWordLine(line, "cm", "secret.txt");
  }

  lemma ChangeModeDefaultDispatch(env: Env)
    ensures Dispatchable(["cm", "secret.txt"])
    ensures Dispatch(["cm", "secret.txt"], env) == Builtin(CHANGE_MODE, ChangeMode("secret.txt", 384), "\n")
  {
    VectorOfTwo("cm", "secret.txt");
    assert IndexOf(BUILT_INS, "cm") == CHANGE_MODE;
  }

  /** `cm secret.txt` makes the same call, with the default mode 0600. */
  lemma ChangeModeDefault(line: string, env: Env)
    requires line == "cm secret.txt\n"
    ensures StepReady(line)
    ensures StepOutcome(line, env) == Some(Builtin(CHANGE_MODE, ChangeMode("secret.txt", 384), "\n"))
  {
    ChangeModeDefaultTokens(line);
    StepOfTokens(line, ["cm", "secret.txt"], env);
    ChangeModeDefaultDispatch(env);
  }

  lemma UnknownUserIsWord(u: string)
    requires u == "nonexistentuser"
    ensures IsWord(u) && Plain(u) && u[|u| - 1] != '&'
  {
  }

  lemma ChangeOwnerUnknownUserTokens(line: string)
    requires line == "co file.txt nonexistentuser\n"
    ensures IsInputLine(line) && line[0] != '\n' && Tokens(Normalise(line)) == ["co", "file.txt", "nonexistentuser"]
  {
    var u := "nonexistentuser";
    UnknownUserIsWord(u);
    assert Plain("co") && Plain("file.txt");
    assert "co" + " " + "file.txt" + " " == "co file.txt ";
    assert "co file.txt " + u == "co file.txt nonexistentuser";
    assert line == "co" + " " + "file.txt" + " " + u + "\n";
    ThreeWordLine(line, "co", "file.txt", u);
  }

  lemma ChangeOwnerUnknownUserDispatch(env: Env)
    requires "nonexistentuser" !in env.users
    ensures Dispatchable(["co", "file.txt", "nonexistentuser"])
    ensures Dispatch(["co", "file.txt", "nonexistentuser"], env) == Builtin(CHANGE_OWNER, ChangeOwner(Some("file.txt"), NO_CHANGE, NO_CHANGE), "User not found. \n")
  {
    VectorOfThree("co", "file.txt", "nonexistentuser");
    assert IndexOf(BUILT_INS, "co") == CHANGE_OWNER;
  }

  /** `co file.txt nonexistentuser` with no such user: "User not found. " is printed
      and chown keeps both the owner and the group. */
  lemma ChangeOwnerUnknownUser(line: string, env: Env)
    requires line == "co file.txt nonexistentuser\n"
    requires "nonexistentuser" !in env.users
    ensures StepReady(line)
    ensures StepOutcome(line, env) == Some(Builtin(CHANGE_OWNER, ChangeOwner(Some("file.txt"), NO_CHANGE, NO_CHANGE), "User not found. \n"))
  {
    ChangeOwnerUnknownUserTokens(line);
    StepOfTokens(line, ["co", "file.txt", "nonexistentuser"], env);
    ChangeOwnerUnknownUserDispatch(env);
  }

  lemma ChangeOwnerKnownUserTokens(line: string)
    requires line == "co file.txt ana\n"
    ensures IsInputLine(line) && line[0] != '\n' && Tokens(Normalise(line)) == ["co", "file.txt", "ana"]
  {
    assert Plain("co") && Plain("file.txt") && Plain("ana");
    assert "co" + " " + "file.txt" + " " == "co file.txt ";
    ThreeWordLine(line, "co", "file.txt", "ana");
  }

  lemma ChangeOwnerKnownUserDispatch(env: Env)
    requires "ana" in env.users
    ensures Dispatchable(["co", "file.txt", "ana"])
    ensures Dispatch(["co", "file.txt", "ana"], env) == Builtin(CHANGE_OWNER, ChangeOwner(Some("file.txt"), env.users["ana"], NO_CHANGE), "\n")
  {
    VectorOfThree("co", "file.txt", "ana");
    assert IndexOf(BUILT_INS, "co") == CHANGE_OWNER;
  }

  /** `co file.txt ana` with ana in the user database: chown to the uid of ana,
      group kept. */
  lemma ChangeOwnerKnownUser(line: string, env: Env)
    requires line == "co file.txt ana\n"
    requires "ana" in env.users
    ensures StepReady(line)
    ensures StepOutcome(line, env) == Some(Builtin(CHANGE_OWNER, ChangeOwner(Some("file.txt"), env.users["ana"], NO_CHANGE), "\n"))
  {
    ChangeOwnerKnownUserTokens(line);
    StepOfTokens(line, ["co", "file.txt", "ana"], env);
    ChangeOwnerKnownUserDispatch(env);
  }

  lemma ChangeDirToPathTokens(line: string)
    requires line == "cd /tmp\n"
    ensures IsInputLine(line) && line[0] != '\n' && Tokens(Normalise(line)) == ["cd", "/tmp"]
  {
    assert Plain("cd") && Plain("/tmp");
    TwoWordLine(line, "cd", "/tmp");
  }

  lemma ChangeDirToPathDispatch(env: Env)
    ensures Dispatchable(["cd", "/tmp"])
    ensures Dispatch(["cd", "/tmp"], env) == Builtin(CHANGE_DIR, ChangeDir("/tmp"), "\n")
  {
    VectorOfTwo("cd", "/tmp");
    assert IndexOf(BUILT_INS, "cd") == CHANGE_DIR;
  }

  /** `cd /tmp` goes to /tmp. */
  lemma ChangeDirToPath(line: string, env: Env)
    requires line == "cd /tmp\n"
    ensures StepReady(line)
    ensures StepOutcome(line, env) == Some(Builtin(CHANGE_DIR, ChangeDir("/tmp"), "\n"))
  {
    ChangeDirToPathTokens(line);
    StepOfTokens(line, ["cd", "/tmp"], env);
    ChangeDirToPathDispatch(env);
  }

  lemma ChangeDirHomeTokens(line: string)
    requires line == "cd\n"
    ensures IsInputLine(line) && line[0] != '\n' && Tokens(Normalise(line)) == ["cd"]
  {
    assert Plain("cd");
    OneWordLine(line, "cd");
  }

  lemma ChangeDirHomeDispatch(env: Env)
    ensures Dispatchable(["cd"])
    ensures Dispatch(["cd"], env) == Builtin(CHANGE_DIR, ChangeDir("/home/" + Username(env.login)), "\n")
  {
    VectorOfOne("cd");
    assert IndexOf(BUILT_INS, "cd") == CHANGE_DIR;
  }

  /** `cd` alone goes to /home/<login>. */
  lemma ChangeDirHome(line: string, env: Env)
    requires line == "cd\n"
    ensures StepReady(line)
    ensures StepOutcome(line, env) == Some(Builtin(CHANGE_DIR, ChangeDir("/home/" + Username(env.login)), "\n"))
  {
    ChangeDirHomeTokens(line);
    StepOfTokens(line, ["cd"], env);
    ChangeDirHomeDispatch(env);
  }

  lemma SurtLineTokens(line: string)
    requires line == "surt\n"
    ensures IsInputLine(line) && line[0] != '\n' && Tokens(Normalise(line)) == ["surt"]
  {
    assert Plain("surt");
    OneWordLine(line, "surt");
  }

  lemma SurtLineDispatch(env: Env)
    ensures Dispatchable(["surt"])
    ensures Dispatch(["surt"], env) == Builtin(SURT, StopShell, "\n")
  {
    VectorOfOne("surt");
    assert IndexOf(BUILT_INS, "surt") == SURT;
  }

  /** `surt` stops the shell. */
  lemma SurtLine(line: string, env: Env)
    requires line == "surt\n"
    ensures StepReady(line)
    ensures StepOutcome(line, env) == Some(Builtin(SURT, StopShell, "\n"))
  {
    SurtLineTokens(line);
    StepOfTokens(line, ["surt"], env);
    SurtLineDispatch(env);
  }

  lemma ForegroundLsTokens(line: string)
    requires line == "ls -la\n"
    ensures IsInputLine(line) && line[0] != '\n' && Tokens(Normalise(line)) == ["ls", "-la"]
  {
    assert Plain("ls") && Plain("-la");
    TwoWordLine(line, "ls", "-la");
  }

  lemma ForegroundLsDispatch(env: Env)
    requires !env.forkFails
    ensures Dispatchable(["ls", "-la"])
    ensures Dispatch(["ls", "-la"], env) == External(["ls", "-la"], true)
  {
    assert "ls" !in BUILT_INS;
  }

  /** `ls -la` runs ls with the arguments ls, -la and waits for it. */
  lemma ForegroundLs(line: string, env: Env)
    requires line == "ls -la\n"
    requires !env.forkFails
    ensures StepReady(line)
    ensures StepOutcome(line, env) == Some(External(["ls", "-la"], true))
  {
    ForegroundLsTokens(line);
    StepOfTokens(line, ["ls", "-la"], env);
    ForegroundLsDispatch(env);
  }

  lemma BackgroundLsTokens(line: string)
    requires line == "ls -la &\n"
    ensures IsInputLine(line) && line[0] != '\n' && Tokens(Normalise(line)) == ["ls", "-la", "&"]
  {
    assert Plain("ls") && Plain("-la");
    TwoWordsInBackground(line, "ls", "-la");
  }

  lemma BackgroundLsDispatch(env: Env)
    requires !env.forkFails
    ensures Dispatchable(["ls", "-la", "&"])
    ensures Dispatch(["ls", "-la", "&"], env) == External(["ls", "-la"], false)
  {
    assert "ls" !in BUILT_INS;
    assert ["ls", "-la", "&"][..2] == ["ls", "-la"];
  }

  /** `ls -la &` runs ls with the arguments ls, -la and does not wait for it. */
  lemma BackgroundLs(line: string, env: Env)
    requires line == "ls -la &\n"
    requires !env.forkFails
    ensures StepReady(line)
    ensures StepOutcome(line, env) == Some(External(["ls", "-la"], false))
  {
    BackgroundLsTokens(line);
    StepOfTokens(line, ["ls", "-la", "&"], env);
    BackgroundLsDispatch(env);
  }

  /** The empty line does nothing. */
  lemma EmptyLine(env: Env)
    ensures StepReady("\n") && StepOutcome("\n", env) == None
  {
  }

  /** A line of spaces gives no tokens at all, so it cannot be dispatched. */
  lemma BlankLineNotReady(line: string)
    requires line == " \n"
    ensures IsInputLine(line) && !StepReady(line)
  {
    assert Plain(" ");
    PlainInputLine(" ");
    NoTrailingAmpUnchanged(line);
    assert Tokens(" ") == Tokens(" "[1..]) == [];
  }

  /** Three lines of which the second stops the shell: the third is never read, so the
      run is the same whatever it holds and whatever its environment. */
  lemma StopOnSecondOfThree(a: string, b: string, c: string, ea: Env, eb: Env, ec: Env)
    requires StepReady(a) && StepReady(b)
    requires !StepStops(StepOutcome(a, ea)) && StepStops(StepOutcome(b, eb))
    ensures RunReady([a, b, c], [ea, eb, ec])
    ensures RunOutcomes([a, b, c], [ea, eb, ec]) == [StepOutcome(a, ea), StepOutcome(b, eb)]
  {
    var lines, envs := [a, b, c], [ea, eb, ec];
    var steps := LineSteps(lines, envs);
    LineStepsAt(lines, envs, 0);
    LineStepsAt(lines, envs, 1);
    assert steps[1..][0] == steps[1];
    assert UntilStop(steps[1..]) == [StepOutcome(b, eb)];
  }

  /** `cd /tmp`, then `surt`, then anything: the loop changes directory, stops, and
      never reads the third line. */
  lemma SurtEndsTheRun(cd: string, surt: string, any: string, ea: Env, eb: Env, ec: Env)
    requires cd == "cd /tmp\n" && surt == "surt\n"
    ensures RunReady([cd, surt, any], [ea, eb, ec])
    ensures RunOutcomes([cd, surt, any], [ea, eb, ec])
      == [Some(Builtin(CHANGE_DIR, ChangeDir("/tmp"), "\n")), Some(Builtin(SURT, StopShell, "\n"))]
  {
    ChangeDirToPath(cd, ea);
    SurtLine(surt, eb);
    StopOnSecondOfThree(cd, surt, any, ea, eb, ec);
  }

  /** `surt` followed by a line of spaces: the loop stops before the line that could not
      be dispatched. */
  lemma SurtBeforeBlankLine(surt: string, blank: string, es: Env, eb: Env)
    requires surt == "surt\n" && blank == " \n"
    ensures !StepReady(blank) && RunReady([surt, blank], [es, eb])
    ensures RunOutcomes([surt, blank], [es, eb]) == [Some(Builtin(SURT, StopShell, "\n"))]
  {
    SurtLine(surt, es);
    BlankLineNotReady(blank);
  }
}

/** The built-in command table of simple_shell.c (lines 62-78) and the argument logic
    of each built-in (lines 80-139). The system call a built-in ends with is recorded
    as an `Action`; what the system answers (the login name, the user database) is an
    `Env` parameter. */
module Builtins {
  import opened Common

  /** BUILT_IN_COMMANDS (line 20) and built_ins (lines 62-68), in table order; entry i
      of built_in_functions (lines 72-78) implements BUILT_INS[i]. */
  const BUILT_IN_COMMANDS: nat := 5
  const BUILT_INS: seq<string> := ["ic", "cd", "cm", "co", "surt"]

  const GET_ACTUAL_PATH: nat := 0
  const CHANGE_DIR: nat := 1
  const CHANGE_MODE: nat := 2
  const CHANGE_OWNER: nat := 3
  const SURT: nat := 4

  /** Line 105: 384 decimal is 0600 octal, read and write for the owner. */
  const DEFAULT_MODE: nat := 384

  /** (uid_t)-1 and (gid_t)-1: chown leaves that id as it is. */
  const NO_CHANGE: int := -1

  /** What the system answers: getlogin() (None when it fails), the user database
      that getpwnam consults (name to uid), and whether fork fails. */
  datatype Env = Env(login: Option<string>, users: map<string, nat>, forkFails: bool)

  /** The system call a built-in makes, with the arguments the shell computed. */
  datatype Action =
    | PrintCwd                                               // getcwd, then printf of it
    | ChangeDir(target: string)                              // chdir(target)
    | ChangeMode(path: string, mode: nat)                    // chmod(path, mode)
    | ChangeOwner(file: Option<string>, uid: int, gid: int)  // chown(file, uid, gid)
    | StopShell                                              // should_run = 0

  /** The first position of `name` in `table`. */
  function IndexOf(table: seq<string>, name: string): (i: nat)
    requires name in table
    ensures i < |table| && table[i] == name
    ensures forall j :: 0 <= j < i ==> table[j] != name
  {
    if table[0] == name then 0 else 1 + IndexOf(table[1..], name)
  }

  /** The loop at lines 151-158: scans built_ins in order with strcmp. */
  method FindBuiltin(name: string) returns (found: bool, i: nat)
    ensures found <==> name in BUILT_INS
    ensures found ==> i == IndexOf(BUILT_INS, name)
  {
    i := 0;
    while i < BUILT_IN_COMMANDS
      invariant i <= BUILT_IN_COMMANDS
      invariant forall j :: 0 <= j < i ==> BUILT_INS[j] != name
    {
      if name == BUILT_INS[i] {
        return true, i;
      }
      i := i + 1;
    }
    return false, i;
  }

  /** The names are pairwise distinct, so the scan order never decides between two. */
  lemma BuiltinNamesDistinct()
    ensures forall i, j :: 0 <= i < j < |BUILT_INS| ==> BUILT_INS[i] != BUILT_INS[j]
  {
  }

  /** get_username (lines 41-50): the login name, or "" when getlogin fails. */
  function Username(login: Option<string>): string {
    if login.Some? then login.value else ""
  }

  /** The home directory change_dir means to use: /home/ followed by the login name. */
  function HomePath(user: string): string {
    "/home/" + user
  }

  /** What lines 93-96 compute: `path` is an uninitialised char[50], so the two strcat
      calls append after whatever C string its stale bytes happen to form. */
  function HomePathAsWritten(stale: seq<char>, user: string): (p: string)
    ensures |p| >= |HomePath(user)| && p[|p| - |HomePath(user)|..] == HomePath(user)
  {
    CStringOf(stale) + "/home/" + user
  }

  /** The buffer as written yields the intended home path exactly when its stale bytes
      start with a NUL. */
  lemma HomePathAsWrittenAgrees(stale: seq<char>, user: string)
    ensures HomePathAsWritten(stale, user) == HomePath(user) <==> (stale == [] || stale[0] == '\0')
  {
    if !(stale == [] || stale[0] == '\0') {
      assert |CStringOf(stale)| > 0;
      assert |HomePathAsWritten(stale, user)| > |HomePath(user)|;
    }
  }

  /** A stale byte 'x' before a NUL sends `cd` to "x/home/ana" instead of "/home/ana". */
  lemma HomePathAsWrittenCounterexample()
    ensures HomePathAsWritten("x\0", "ana") == "x/home/ana"
    ensures HomePathAsWritten("x\0", "ana") != HomePath("ana")
  {
    assert CStringOf("x\0") == "x" by {
      assert "x\0"[1..] == "\0";
    }
    HomePathAsWrittenAgrees("x\0", "ana");
  }

  predicate IsOctalDigit(c: char) {
    '0' <= c <= '7'
  }

  predicate AllOctal(d: string) {
    forall i :: 0 <= i < |d| ==> IsOctalDigit(d[i])
  }

  /** The number that a string of octal digits denotes, read left to right as strtol
      accumulates it. */
  function OctalValue(d: string): nat
    requires AllOctal(d)
    decreases |d|
  {
    if d == [] then 0 else 8 * OctalValue(d[..|d| - 1]) + (d[|d| - 1] as int - '0' as int)
  }

  function OctalDigit(n: nat): (c: char)
    requires n < 8
    ensures IsOctalDigit(c) && c as int - '0' as int == n
  {
    ('0' as int + n) as char
  }

  /** The octal numeral of n, without leading zeros. */
  function OctalDigits(n: nat): (d: string)
    ensures |d| > 0 && AllOctal(d)
    decreases n
  {
    if n < 8 then [OctalDigit(n)] else OctalDigits(n / 8) + [OctalDigit(n % 8)]
  }

  /** Reading back an octal numeral gives the number it was written for. */
  lemma {:induction false} OctalRoundTrip(n: nat)
    ensures OctalValue(OctalDigits(n)) == n
    decreases n
  {
    if n >= 8 {
      OctalRoundTrip(n / 8);
      var d := OctalDigits(n);
      assert d[..|d| - 1] == OctalDigits(n / 8);
    }
  }

  /** The number of leading octal digits of s. */
  function OctalPrefixLen(s: string): (k: nat)
    ensures k <= |s| && AllOctal(s[..k])
    ensures k < |s| ==> !IsOctalDigit(s[k])
    decreases |s|
  {
    if s == [] || !IsOctalDigit(s[0]) then 0 else 1 + OctalPrefixLen(s[1..])
  }

  /** isspace in the C locale. */
  predicate IsCSpace(c: char) {
    c == ' ' || c == '\t' || c == '\n' || c == '\U{B}' || c == '\U{C}' || c == '\r'
  }

  /** The number of leading isspace characters of s. */
  function SpacePrefixLen(s: string): (k: nat)
    ensures k <= |s| && (k < |s| ==> !IsCSpace(s[k]))
    ensures forall i :: 0 <= i < k ==> IsCSpace(s[i])
    decreases |s|
  {
    if s == [] || !IsCSpace(s[0]) then 0 else 1 + SpacePrefixLen(s[1..])
  }

  /** The range of a 64-bit long, and the number of values of the 32-bit mode_t. */
  const LONG_MAX: int := 0x7fff_ffff_ffff_ffff
  const LONG_MIN: int := -0x8000_0000_0000_0000
  const MODE_T_RANGE: nat := 0x1_0000_0000

  /** strtol(s, 0, 8): leading white space, an optional sign, then as many octal
      digits as there are; 0 when there are none; clamped to the range of long. */
  function StrtolOctal(s: string): (r: int)
    ensures LONG_MIN <= r <= LONG_MAX
  {
    var t := s[SpacePrefixLen(s)..];
    var negative := |t| > 0 && t[0] == '-';
    var u := if |t| > 0 && (t[0] == '-' || t[0] == '+') then t[1..] else t;
    var v: int := OctalValue(u[..OctalPrefixLen(u)]);
    if negative then (if v > -LONG_MIN then LONG_MIN else -v)
    else (if v > LONG_MAX then LONG_MAX else v)
  }

  /** Line 107: the long that strtol returns, stored in the unsigned 32-bit mode_t. */
  function OctalMode(s: string): (m: nat)
    ensures m < MODE_T_RANGE
  {
    StrtolOctal(s) % MODE_T_RANGE
  }

  /** Every mode written in octal is read back as itself. */
  lemma OctalModeOfDigits(m: nat)
    requires m < MODE_T_RANGE
    ensures OctalMode(OctalDigits(m)) == m
  {
    var d := OctalDigits(m);
    assert SpacePrefixLen(d) == 0;
    assert d[0..] == d;
    assert OctalPrefixLen(d) == |d|;
    assert d[..|d|] == d;
    OctalRoundTrip(m);
  }

  /** A string of octal digits never starts with white space or a sign. */
  lemma OctalPrefixOfOctal(d: string)
    requires AllOctal(d)
    ensures OctalPrefixLen(d) == |d|
    decreases |d|
  {
    if d != [] {
      OctalPrefixOfOctal(d[1..]);
    }
  }

  /** Any string of octal digits, leading zeros and all, is read as its octal value,
      clamped to LONG_MAX, and that value modulo 2^32 is the mode. */
  lemma OctalModeOfOctal(d: string)
    requires |d| > 0 && AllOctal(d)
    ensures StrtolOctal(d) == if OctalValue(d) > LONG_MAX then LONG_MAX else OctalValue(d)
    ensures OctalValue(d) <= LONG_MAX ==> OctalMode(d) == OctalValue(d) % MODE_T_RANGE
  {
    assert SpacePrefixLen(d) == 0 && d[0..] == d;
    OctalPrefixOfOctal(d);
    assert d[..|d|] == d;
  }

  /** The usual way to type a mode, with a leading zero: "0600" is the default 0600. */
  lemma OctalModeZeroSixHundred(d: string)
    requires d == "0600"
    ensures OctalMode(d) == DEFAULT_MODE
  {
    assert d[..3] == "060" && d[..3][..2] == "06" && d[..3][..2][..1] == "0";
    assert OctalValue("06") == 6;
    assert OctalValue(d) == 384;
    OctalModeOfOctal(d);
  }

  /** "0755" is rwxr-xr-x, 493. */
  lemma OctalModeZeroSevenFiveFive(d: string)
    requires d == "0755"
    ensures OctalMode(d) == 493
  {
    assert d[..3] == "075" && d[..3][..2] == "07" && d[..3][..2][..1] == "0";
    assert OctalValue("07") == 7;
    assert OctalValue(d) == 493;
    OctalModeOfOctal(d);
  }

  /** A negative value wraps around in the unsigned mode_t, and a non-numeric argument
      gives mode 0. */
  lemma OctalModeOddInputs()
    ensures OctalMode("-1") == MODE_T_RANGE - 1
    ensures OctalMode("rw") == 0
  {
    assert SpacePrefixLen("-1") == 0 && "-1"[0..] == "-1" && "-1"[1..] == "1";
    OctalPrefixOfOctal("1");
    assert "1"[..1] == "1" && "1"[..0] == "";
    assert SpacePrefixLen("rw") == 0 && "rw"[0..] == "rw";
  }

  /** "600" and the default agree: both are mode 0600. */
  lemma OctalModeSixHundred()
    ensures OctalMode("600") == DEFAULT_MODE
  {
    assert OctalDigits(384) == "600" by {
      assert OctalDigits(6) == "6";
      assert OctalDigits(48) == "6" + "0";
    }
    OctalModeOfDigits(384);
  }

  /** The vector execute_command passes to every built-in: `args[k]` for k up to the
      sentinel. A built-in of index i may read the entries it reads (args[1], and
      args[2] when the code gets that far) without going past the sentinel. */
  predicate CanCall(i: nat, args: seq<Option<string>>) {
    |args| >= 2
    && (i == CHANGE_MODE ==> |args| >= 3 && args[1].Some?)
    && (i == CHANGE_OWNER && args[1].Some? ==> |args| >= 3)
  }

  /** change_dir (lines 91-102). */
  function ChangeDirAction(args: seq<Option<string>>, login: Option<string>): Action
    requires |args| >= 2
  {
    if args[1].None? then ChangeDir(HomePath(Username(login))) else ChangeDir(args[1].value)
  }

  /** change_mode (lines 104-114). */
  function ChangeModeAction(args: seq<Option<string>>): Action
    requires |args| >= 3 && args[1].Some?
  {
    ChangeMode(args[1].value, if args[2].None? then DEFAULT_MODE else OctalMode(args[2].value))
  }

  /** Whether change_owner looks the user up (line 120); getpwnam consults `users`. */
  predicate LooksUpUser(args: seq<Option<string>>)
    requires |args| >= 2 && (args[1].Some? ==> |args| >= 3)
  {
    args[1].Some? && args[2].Some?
  }

  /** change_owner (lines 116-134). */
  function ChangeOwnerAction(args: seq<Option<string>>, users: map<string, nat>): Action
    requires |args| >= 2 && (args[1].Some? ==> |args| >= 3)
  {
    var uid := if LooksUpUser(args) && args[2].value in users then users[args[2].value] else NO_CHANGE;
    ChangeOwner(args[1], uid, NO_CHANGE)
  }

  /** Line 123: the message change_owner prints when getpwnam finds nobody. */
  function ChangeOwnerNotice(args: seq<Option<string>>, users: map<string, nat>): string
    requires |args| >= 2 && (args[1].Some? ==> |args| >= 3)
  {
    if LooksUpUser(args) && args[2].value !in users then "User not found. " else ""
  }

  /** built_in_functions[i](args) (line 154), as the system call it makes. */
  function BuiltinAction(i: nat, args: seq<Option<string>>, env: Env): Action
    requires i < BUILT_IN_COMMANDS && CanCall(i, args)
  {
    if i == GET_ACTUAL_PATH then PrintCwd
    else if i == CHANGE_DIR then ChangeDirAction(args, env.login)
    else if i == CHANGE_MODE then ChangeModeAction(args)
    else if i == CHANGE_OWNER then ChangeOwnerAction(args, env.users)
    else StopShell
  }

  /** The fixed text the shell itself prints for built-in i: change_owner's notice,
      then the "\n" of line 155. */
  function BuiltinOutput(i: nat, args: seq<Option<string>>, env: Env): string
    requires i < BUILT_IN_COMMANDS && CanCall(i, args)
  {
    (if i == CHANGE_OWNER then ChangeOwnerNotice(args, env.users) else "") + "\n"
  }

  /** change_dir: the second entry when there is one, /home/<login> otherwise, and
      /home/ alone when getlogin fails. */
  lemma ChangeDirArguments(args: seq<Option<string>>, login: Option<string>)
    requires |args| >= 2
    ensures args[1].Some? ==> ChangeDirAction(args, login) == ChangeDir(args[1].value)
    ensures args[1].None? && login.Some? ==> ChangeDirAction(args, login) == ChangeDir("/home/" + login.value)
    ensures args[1].None? && login.None? ==> ChangeDirAction(args, login) == ChangeDir("/home/")
  {
  }

  /** change_mode: the default 0600 without a mode argument, the octal value of the
      third entry otherwise; the path is always the second entry. */
  lemma ChangeModeArguments(args: seq<Option<string>>)
    requires |args| >= 3 && args[1].Some?
    ensures ChangeModeAction(args).path == args[1].value
    ensures args[2].None? ==> ChangeModeAction(args).mode == OctalMode("600")
    ensures args[2].Some? ==> ChangeModeAction(args).mode == OctalMode(args[2].value)
  {
    OctalModeSixHundred();
  }

  /** change_owner: the group is never changed; the owner changes only to the uid of a
      user given as third entry and found in the database, and exactly when such a user
      is given and not found is "User not found. " printed. */
  lemma ChangeOwnerArguments(args: seq<Option<string>>, users: map<string, nat>)
    requires |args| >= 2 && (args[1].Some? ==> |args| >= 3)
    ensures ChangeOwnerAction(args, users).gid == NO_CHANGE
    ensures ChangeOwnerAction(args, users).file == args[1]
    ensures ChangeOwnerAction(args, users).uid != NO_CHANGE <==>
      (args[1].Some? && args[2].Some? && args[2].value in users)
    ensures ChangeOwnerAction(args, users).uid != NO_CHANGE ==>
      ChangeOwnerAction(args, users).uid == users[args[2].value]
    ensures ChangeOwnerNotice(args, users) != "" <==>
      (args[1].Some? && args[2].Some? && args[2].value !in users)
  {
  }
}

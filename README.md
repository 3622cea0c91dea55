# A verified model of simple_shell.c

`simple_shell.c` is a teaching shell with a single prompt loop:

- It reads a line with `fgets` into the 80-byte buffer `aux_args`.
- It strips the newline and turns a final `&` into a separate ` &` token.
- It splits the line on `' '` with `strtok`, into the NULL-terminated vector `args`.
- `execute_command` then scans the five built-ins in table order: `ic`, `cd`, `cm`, `co`, `surt`.
  - When the first word names a built-in, that built-in runs and `"\n"` is printed.
  - Otherwise the shell forks.
    - The child drops a final `"&"` from its copy of the vector and calls `execvp`.
    - The parent waits unless the last word is `"&"`.
- `surt` clears the global `should_run`, which ends the loop.

The model has seven modules:

| module | file | role |
|---|---|---|
| `Common` | `common.dfy` | `Option` for a pointer that may be NULL; `MAX_LINE`; `CStringOf`, the C string a buffer holds. |
| `Tokenizer` | `tokenizer.dfy` | The specification functions `Normalise` and `Tokens` (what strtok with `" "` produces), with their properties. The in-place methods on a `char` array mirror `main` lines 204-226: `ReadAndNormalise`, and `StrTok`, which writes NUL over the delimiter. They are proved against those functions. |
| `ArgVector` | `argvector.dfy` | The argument vector as an `array<Option<string>>`. Contains `get_last_arg`, the child's copy of the vector with `&` dropped, and the read of the vector that `execvp` performs. |
| `Builtins` | `builtins.dfy` | The command table and the argument logic of `cd`, `cm` and `co`. A built-in's system call is recorded as an `Action` value. What the system answers is an `Env` parameter: `getlogin`, the `getpwnam` database, and whether `fork` fails. `strtol(s, 0, 8)` is modelled in full, then narrowed to `mode_t`. |
| `Dispatcher` | `dispatcher.dfy` | The pure specification of one `execute_command` call (`Dispatch`), of one loop iteration (`StepOutcome`) and of the whole loop (`RunOutcomes`). |
| `Interpreter` | `interpreter.dfy` | The class `Shell` with the field `shouldRun`. Its methods are `Surt`, `ExecuteCommand`, `Step` and `Run`, each proved to agree with the `Dispatcher` functions. |
| `Scenarios` | `scenarios.dfy` | Complete input lines followed through tokenizing and dispatch. |

The background decision is taken on the last token of the vector, not on the last character of the line. So `ls & ` (with a trailing space) also runs in the background, and the child gets `ls` alone.

## Model

| member | source | states |
|---|---|---|
| Tokenizer.StripNewline | simple_shell.c:207-209 | Definition: one final newline is removed. Its properties are stated by Tokenizer.NormaliseDropsNewline. |
| Tokenizer.Visible | simple_shell.c:207-211 | Definition: what strlen sees of the line, less one final newline; line 211 tests its last character. Its properties are stated by Tokenizer.VisibleIsPrefix, Tokenizer.DropNewline and Tokenizer.NormaliseSplice. |
| Tokenizer.SplitTrailingAmp | simple_shell.c:211-214 | Definition: on a line without NUL bytes, a final '&' becomes " &". Its properties are stated by Tokenizer.TrailingAmpIsOwnToken and Tokenizer.NoTrailingAmpUnchanged. |
| Tokenizer.Normalise | simple_shell.c:207-214 | The string strtok receives contains no NUL byte, is not empty and is no longer than the line. A final '&' of the visible line becomes " &", followed by the bytes of the line up to its next NUL. |
| Tokenizer.NormaliseOfNulFree | simple_shell.c:207-214 | On a line without NUL bytes, lines 207-214 only strip the newline and split off a final '&'. |
| Tokenizer.WordLen | simple_shell.c:217-222 | The leading run strtok takes contains no ' ', and is followed by a ' ' or by the end of the string. |
| Tokenizer.Tokens | simple_shell.c:217-224 | Definition of what repeated strtok(., " ") returns. Its properties are stated by Tokenizer.TokensAreWords, Tokenizer.TokensOfJoin, Tokenizer.TokensSplitAtSpace and Tokenizer.TokensCount. |
| Tokenizer.Tokenize | simple_shell.c:204-226 | For any line fgets can deliver that does not start with a newline, NUL bytes included, the vector is `args[0..n)` = `Tokens(Normalise(line))` followed by the NULL sentinel, and `n` is the token count. |
| Tokenizer.ReadAndNormalise | simple_shell.c:204-215 | After fgets and the newline and `&` rewrites, the buffer holds exactly `Normalise(line)` followed by NUL, and `len` is its length. This holds for lines with NUL bytes too. |
| Tokenizer.Strlen | simple_shell.c:207 | strlen returns the position of the first NUL in the buffer. |
| Tokenizer.Fgets | simple_shell.c:204 | After fgets the buffer holds the line followed by its terminating NUL. |
| Tokenizer.DropNewline | simple_shell.c:207-209 | After lines 207-209 the buffer holds the visible line (up to the first NUL, less a final newline) followed by NUL. The bytes of the line after that terminator are untouched. |
| Tokenizer.SplitAmp | simple_shell.c:211-214 | After lines 211-214 the buffer holds exactly `Normalise(line)` followed by NUL, and the returned length is its length. |
| Tokenizer.SpliceAmp | simple_shell.c:212-214 | On a buffer holding a NUL-free string ending in '&', followed by the rest of the line: after the two writes and strlen, the buffer holds the string less its '&', then " &", then the rest of the line up to its next NUL. |
| Tokenizer.NormaliseSplice | simple_shell.c:211-214 | When the visible line ends in '&', strtok receives the line without that '&', then " &", then the bytes of the line up to the next NUL after the visible line. |
| Tokenizer.StrTok | simple_shell.c:217-222 | One strtok call returns NULL exactly when no token is left. Otherwise it returns the next token, and the tokens after `next` are the rest of the token list. The buffer still holds the line from `next` on. |
| Tokenizer.SkipSpaces | simple_shell.c:217-222 | strtok's skip stops at the first character that is not a space, and skipping does not change the remaining tokens. |
| Tokenizer.ScanWord | simple_shell.c:217-222 | strtok's scan stops at the first ' ' or at the end of the line, and every character it passes is not a space. |
| Tokenizer.SplitIntoArgs | simple_shell.c:217-226 | The strtok loop stores every token of the buffer, in order, in args[0..count), followed by NULL. |
| Tokenizer.TokensAreWords | simple_shell.c:217-224 | Every token is non-empty and contains no ' '. |
| Tokenizer.TokensCount | simple_shell.c:192 | A string of n characters has at most (n+1)/2 tokens, so the vector always fits in args[80]. |
| Tokenizer.TokensSplitAtSpace | simple_shell.c:217-224 | The tokens of a + " " + b are the tokens of a followed by the tokens of b. |
| Tokenizer.WordLenOfConcat | simple_shell.c:217-222 | The leading word of a + c stays inside a when a contains a ' ', and otherwise continues into c. |
| Tokenizer.TokensOfWord | simple_shell.c:217-222 | A word without spaces is a single token. |
| Tokenizer.TokensOfJoin | simple_shell.c:217-224 | Round trip: tokenizing words joined by single spaces gives back exactly those words. |
| Tokenizer.NormaliseDropsNewline | simple_shell.c:207-209 | On a line without NUL bytes, exactly one final newline is removed, and strtok never sees a newline. |
| Tokenizer.TrailingAmpIsOwnToken | simple_shell.c:211-215 | A line without NUL bytes that ends in '&' (glued to a word or not) always yields "&" as its last token, after the tokens of the rest of the line. |
| Tokenizer.NoTrailingAmpUnchanged | simple_shell.c:211 | A line without NUL bytes that does not end in '&' reaches strtok unchanged, apart from its newline. |
| Tokenizer.BackgroundOfJoin | simple_shell.c:211-224 | Both "w1 ... wn&" and "w1 ... wn &" give the tokens w1, ..., wn, "&". |
| Tokenizer.TokensBeforeAmp | simple_shell.c:211-224 | Joined words followed by '&', glued or after a space, give back the words once the '&' is removed. |
| Tokenizer.PlainLineTokens | simple_shell.c:207-224 | A line "w1 ... wn" that does not end in '&' gives the tokens w1, ..., wn. |
| Tokenizer.GluedAmpExample | simple_shell.c:211-215 | "ls&\n" gives ["ls", "&"]. |
| Tokenizer.SeparateAmpExample | simple_shell.c:211-224 | "ls -la &\n" gives ["ls", "-la", "&"]. |
| Tokenizer.TabIsNotASeparator | simple_shell.c:217 | Only ' ' separates tokens: "a\tb" is one token. |
| Tokenizer.NulByteExample | simple_shell.c:204-224 | "ls\0 -la\n" gives ["ls"]: nothing after a NUL byte is tokenized. |
| Tokenizer.NulAfterAmpExample | simple_shell.c:211-224 | On "a&\0b c\n" the '&' written over the NUL joins the rest of the line: strtok gets "a &b c\n", which gives ["a", "&b", "c\n"]. |
| Common.CStringOf | simple_shell.c:93-96 | The C string in a buffer is the prefix before its first NUL, and that prefix contains no NUL. |
| Common.CStringOfAt | simple_shell.c:207 | When the first NUL of a buffer is at position n, or there is none and n is its length, the C string is the first n bytes. |
| ArgVector.GetLastArg | simple_shell.c:34-39 | Returns the index just before the first NULL entry, which is -1 when args[0] is NULL. Every entry up to that index is non-NULL. |
| ArgVector.LastArgOfArgv | simple_shell.c:34-39 | On a vector of n tokens, get_last_arg returns n - 1. |
| ArgVector.DropBackgroundMarker | simple_shell.c:167-170 | The child's copy of args equals the parent's, except that a final "&" entry becomes NULL. It is the vector of the tokens with the final "&" removed. |
| ArgVector.ReadArgv | simple_shell.c:172 | The argument list execvp receives is exactly the tokens before the sentinel. |
| ArgVector.Vector | simple_shell.c:220-226 | The vector of n tokens has n + 1 entries: the tokens, in order, then NULL. |
| ArgVector.StripBackground | simple_shell.c:168-170 | Definition: the argument list of the child, the tokens with a final "&" dropped. Its properties are stated by ArgVector.DropBackgroundMarker and Dispatcher.ExternalLaunch. |
| Builtins.FindBuiltin | simple_shell.c:151-158 | The strcmp scan finds a built-in exactly when the name is in the table. When it does, the index is the first position of the name. |
| Builtins.IndexOf | simple_shell.c:62-68 | The index found names the built-in, and no earlier entry has that name. |
| Builtins.BuiltinNamesDistinct | simple_shell.c:62-68 | The five built-in names are pairwise distinct. |
| Builtins.Username | simple_shell.c:41-50 | Definition: the login name, or "" when getlogin fails. |
| Builtins.ChangeDirAction | simple_shell.c:91-102 | Definition of the chdir target. Its properties are stated by Builtins.ChangeDirArguments. |
| Builtins.ChangeDirArguments | simple_shell.c:91-102 | chdir gets args[1] when there is one. Otherwise it gets "/home/" followed by the login name, or "/home/" alone when getlogin fails. |
| Builtins.HomePathAsWritten | simple_shell.c:93-96 | As written, `cd` with no argument goes to the C string left in the uninitialised `path`, followed by "/home/" and the login name. The result always ends in /home/<login> but may have junk before it. |
| Builtins.HomePathAsWrittenAgrees | simple_shell.c:93-96 | The as-written target equals /home/<login> if and only if the first stale byte of `path` is NUL. |
| Builtins.HomePathAsWrittenCounterexample | simple_shell.c:93-96 | The stale bytes "x\0" send `cd` to "x/home/ana" instead of "/home/ana". |
| Builtins.OctalDigits | simple_shell.c:107 | An octal numeral is non-empty and consists of octal digits only. |
| Builtins.OctalValue | simple_shell.c:107 | Definition: the number an all-octal string denotes. Its properties are stated by Builtins.OctalRoundTrip and Builtins.OctalModeOfOctal. |
| Builtins.OctalRoundTrip | simple_shell.c:107 | Reading back the octal numeral of n gives n. |
| Builtins.OctalPrefixLen | simple_shell.c:107 | strtol reads the longest leading run of octal digits. |
| Builtins.SpacePrefixLen | simple_shell.c:107 | strtol skips exactly the leading white space: every skipped character is white space, and the next one is not. |
| Builtins.StrtolOctal | simple_shell.c:107 | The result of strtol(s, 0, 8) always lies in the range of long. |
| Builtins.OctalMode | simple_shell.c:105-107 | The mode stored in mode_t is below 2^32. |
| Builtins.OctalModeOfDigits | simple_shell.c:105-107 | Every mode below 2^32, written in octal, is read back as itself. |
| Builtins.OctalModeSixHundred | simple_shell.c:105-107 | The default 384 is the mode "600" denotes. |
| Builtins.OctalPrefixOfOctal | simple_shell.c:107 | strtol reads all of a string of octal digits. |
| Builtins.OctalModeOfOctal | simple_shell.c:105-107 | A string of octal digits, leading zeros included, is read as its octal value, saturated at LONG_MAX. When the value fits in a long, the mode is that value modulo 2^32. |
| Builtins.OctalModeZeroSixHundred | simple_shell.c:105-107 | "0600" gives the default mode 384. |
| Builtins.OctalModeZeroSevenFiveFive | simple_shell.c:105-107 | "0755" gives 493. |
| Builtins.OctalModeOddInputs | simple_shell.c:105-107 | "-1" gives 2^32 - 1, and "rw" gives 0, since strtol reads no digit. |
| Builtins.ChangeModeAction | simple_shell.c:104-114 | Definition of the chmod arguments. Its properties are stated by Builtins.ChangeModeArguments. |
| Builtins.ChangeModeArguments | simple_shell.c:104-114 | chmod gets args[1] as its path, and its mode is 0600 when args[2] is NULL and the octal value of args[2] otherwise. |
| Builtins.ChangeOwnerAction | simple_shell.c:116-134 | Definition of the chown arguments. Its properties are stated by Builtins.ChangeOwnerArguments. |
| Builtins.ChangeOwnerNotice | simple_shell.c:120-124 | Definition of what change_owner prints. Its properties are stated by Builtins.ChangeOwnerArguments. |
| Builtins.ChangeOwnerArguments | simple_shell.c:116-134 | chown always gets args[1] and gid -1. The uid changes only when args[1] and args[2] are given and args[2] is a known user, and it is then that user's uid. "User not found. " is printed exactly when args[1] and args[2] are given and args[2] is unknown. |
| Builtins.BuiltinAction | simple_shell.c:154 | Definition of the call built_in_functions[i](args) as an Action. Its properties are stated by Dispatcher.BuiltinPrecedence and Dispatcher.StopsIffSurt. |
| Builtins.BuiltinOutput | simple_shell.c:154-155 | Definition of what a built-in prints, followed by "\n". Its properties are stated by Dispatcher.BuiltinPrecedence. |
| Dispatcher.Dispatch | simple_shell.c:143-186 | Definition of one execute_command call. Its properties are stated by Dispatcher.BuiltinPrecedence, Dispatcher.ExternalLaunch and Dispatcher.StopsIffSurt, and Interpreter.Shell.ExecuteCommand is proved against it. |
| Dispatcher.BuiltinPrecedence | simple_shell.c:151-158 | A vector runs a built-in if and only if its first word is a built-in name. That built-in has the same table index. Its output ends in "\n". The outcome is the same whether or not fork would fail. |
| Dispatcher.ExternalLaunch | simple_shell.c:160-184 | For any other first word, and when fork succeeds, the parent waits if and only if the last word is not "&". The child's argv is the same words in the same order, with only a final "&" dropped. |
| Dispatcher.StopsIffSurt | simple_shell.c:136-139 | Only a vector whose first word is "surt" stops the shell. |
| Dispatcher.BuiltinReadsWithinVector | simple_shell.c:154 | A built-in reads the array `main` filled no further than the sentinel, so it computes the same action and output as on the abstract vector. |
| Dispatcher.DispatchableCanCall | simple_shell.c:104-134 | On a vector that can be dispatched, each built-in stays within the entries it reads. |
| Dispatcher.StepOutcome | simple_shell.c:204-231 | Definition of one loop iteration. Its properties are stated by Dispatcher.StepStopsIffSurt, and Interpreter.Shell.Step is proved against it. |
| Dispatcher.StepStopsIffSurt | simple_shell.c:197-233 | An input line stops the loop exactly when it is dispatched and its first token is "surt". An empty line never stops it. |
| Dispatcher.BackgroundLine | simple_shell.c:204-226 | End to end, for a line without NUL bytes: a line that ends in '&' runs the tokens of the rest of the line, without waiting. |
| Dispatcher.ForegroundLine | simple_shell.c:204-226 | End to end, for a line without NUL bytes: a line whose last token is not "&" runs all its tokens, and the shell waits. |
| Dispatcher.LineSteps | simple_shell.c:197-233 | One step per input line, whether the loop reaches that line or not. Line k is taken in its own environment, since `fork`, `getpwnam` and `getlogin` are called again on every turn. |
| Dispatcher.LineStepsAt | simple_shell.c:197-233 | Entry i of the steps is what the loop can do with line i in environment i: nothing when `main` cannot handle it, otherwise handle it with that line's outcome. |
| Dispatcher.LineStepsAppend | simple_shell.c:197-233 | The steps of two inputs, each line with its environment, one after the other, are the steps of the first followed by those of the second. |
| Dispatcher.UntilStop | simple_shell.c:197 | Definition of the loop on steps: one outcome per step, up to and including the first one that stops the shell. Its properties are stated by Dispatcher.UntilStopShape and Dispatcher.UntilStopIgnoresRest. |
| Dispatcher.UntilStopShape | simple_shell.c:197 | The loop takes the steps in order, and outcome i is that of step i. It stops right after the first stopping step and nowhere earlier, and it takes every step when none stops it. |
| Dispatcher.UntilStopIgnoresRest | simple_shell.c:197 | Steps after the one that stops the shell are never taken: appending any steps, even ones that cannot be handled, leaves the run unchanged. |
| Dispatcher.AllHandledRunnable | simple_shell.c:197 | Steps that can all be handled can be run. |
| Dispatcher.RunOutcomes | simple_shell.c:197 | Definition of the `while (should_run)` loop: UntilStop of the lines' steps, line k handled in environment k. Only the lines the loop reads must be ones it can handle. Its properties are stated by Dispatcher.RunStopsAtFirstStop and Dispatcher.RunIgnoresLinesAfterStop. |
| Dispatcher.RunStopsAtFirstStop | simple_shell.c:197-233 | The loop handles the lines in order, one outcome each, equal to that line's own outcome in that line's own environment. It ends right after the first `surt` line and only there, or when the input ends. |
| Dispatcher.RunIgnoresLinesAfterStop | simple_shell.c:197 | Lines after the one that stops the shell are never read: appending any lines at all, in any environments, even lines the loop could not handle, leaves the run unchanged. |
| Dispatcher.AllReadyRunReady | simple_shell.c:197-233 | An input whose every line can be handled is one the loop can run. |
| Interpreter.Shell.constructor | simple_shell.c:31 | should_run starts set. |
| Interpreter.Shell.Surt | simple_shell.c:136-139 | surt clears should_run. |
| Interpreter.Shell.ExecuteCommand | simple_shell.c:143-186 | Working on the array `main` filled, execute_command produces exactly the outcome `Dispatch` specifies. should_run stays set unless that outcome is `surt`. |
| Interpreter.Shell.Step | simple_shell.c:204-231 | One iteration produces StepOutcome(line). should_run stays set unless the line is a `surt`. |
| Interpreter.Shell.Run | simple_shell.c:197-233 | For any input whose lines up to the first `surt` can be handled (what follows it is never read), each line handled in its own environment, the loop's outcomes are RunOutcomes(lines, envs). The shell ends stopped exactly when the last line it handled was a `surt`. |
| Scenarios.ChangeModeWithMode | simple_shell.c:104-114 | "cm secret.txt 600" calls chmod("secret.txt", 0600) and prints "\n". |
| Scenarios.ChangeModeDefault | simple_shell.c:104-114 | "cm secret.txt" calls chmod("secret.txt", 0600) as well. |
| Scenarios.ChangeOwnerUnknownUser | simple_shell.c:116-134 | "co file.txt nonexistentuser" with no such user prints "User not found. " and calls chown("file.txt", -1, -1). |
| Scenarios.ChangeOwnerKnownUser | simple_shell.c:116-134 | "co file.txt ana" with ana a known user calls chown("file.txt", uid of ana, -1). |
| Scenarios.ChangeDirToPath | simple_shell.c:99-101 | "cd /tmp" calls chdir("/tmp"). |
| Scenarios.ChangeDirHome | simple_shell.c:94-97 | "cd" alone calls chdir("/home/<login>"), taking the corrected reading of lines 93-96. |
| Scenarios.SurtLine | simple_shell.c:136-139 | "surt" stops the shell. |
| Scenarios.ForegroundLs | simple_shell.c:160-184 | "ls -la" runs ls with argv ls, -la, and the shell waits. |
| Scenarios.BackgroundLs | simple_shell.c:160-184 | "ls -la &" runs ls with argv ls, -la, and the shell does not wait. |
| Scenarios.EmptyLine | simple_shell.c:205 | An empty line is not dispatched. |
| Scenarios.SurtEndsTheRun | simple_shell.c:197-233 | Given "cd /tmp", "surt" and any third line, the loop changes directory, stops, and never reads the third line. |
| Scenarios.StopOnSecondOfThree | simple_shell.c:197 | When the second of three lines stops the shell, the loop yields the outcomes of the first two lines, each in its own environment, whatever the third line and its environment hold. |
| Scenarios.BlankLineNotReady | simple_shell.c:205-226 | A line of spaces gives an empty vector, which execute_command cannot be given. |
| Scenarios.SurtBeforeBlankLine | simple_shell.c:197-233 | "surt" followed by a line of spaces: the loop stops before reaching the line it could not handle. |

## Left out

- Process creation and execution are not modelled; they appear only as the outcome `External(argv, wait)`. This covers `fork`, `execvp`, `wait`, the child's `exit(1)` and what the external program does.
- The `wait` of `External(argv, true)` stands for the call `wait(NULL)` at line 182. That call returns when any child ends, so it may reap an earlier background child instead of the one just started. The model does not capture which child is reaped.
- The system calls `chdir`, `chmod`, `chown` and `getcwd` appear only as `Action` values carrying the arguments the shell computes. Their results and the `perror` messages are left out. The directory that `ic` prints is not modelled.
- `getlogin`, `getpwnam` and whether `fork` fails are inputs, given in `Env`. A run takes one `Env` per line, so these answers may change from one line to the next; how they change is not modelled.
- The prompt (lines 199-201), the greeting (line 195) and `fflush` are I/O. They are not modelled.
- The model does not cover `fgets` returning NULL at end of input. In that case the C loop re-reads a stale buffer. The model's input is a finite sequence of lines.
- Line-length limit: a line that `fgets` would split across two calls (79 characters or more) is given as the pieces fgets would return. Each piece must satisfy `Tokenizer.IsInputLine`.
- Tokenizer.IsInputLine excludes a line whose first byte is NUL. strlen is then 0, and line 207 reads `aux_args[-1]`, which is undefined.
- Tokenizer.IsInputLine also excludes a line with neither a NUL byte nor a newline that ends in '&'. Line 213 then writes '&' over the terminator, so the strlen at line 214 reads on into bytes of `aux_args` that this read did not write. The result depends on what earlier lines left there, and the per-line model does not keep those bytes. For a line of MAX_LINE - 1 bytes, where strlen runs past the end of `aux_args`, or where no line ever wrote those bytes, the result is undefined.
- Tokenizer.NormaliseDropsNewline, Tokenizer.TrailingAmpIsOwnToken, Tokenizer.NoTrailingAmpUnchanged, Tokenizer.BackgroundOfJoin and Tokenizer.PlainLineTokens are stated only for lines without NUL bytes. Those bytes are covered by Tokenizer.Normalise, Tokenizer.Tokenize, Tokenizer.NulByteExample and Tokenizer.NulAfterAmpExample.
- Dispatcher.BackgroundLine and Dispatcher.ForegroundLine are stated only for lines without NUL bytes, for the same reason.
- Dispatcher.Dispatchable excludes two vectors whose C behaviour is undefined:
  - A line of spaces only gives an empty vector, and `strcmp(NULL, ...)` at line 153 is undefined.
  - `cm` with no path makes change_mode read `args[2]` past the sentinel.
- When the vector is just "&", the child calls `execvp(NULL, ...)`. The model records that outcome as `External([], false)` and does not model the crash.
- Each line is modelled with its own `aux_args` and `args`. In the C program these are variables of `main` reused across lines. Entries after the sentinel are never read, so the outcomes are the same.
- Builtins.ChangeDirAction: models the intended target "/home/<login>", not the strcat into the uninitialised `path` (see Findings). It also does not model a `path[50]` overflow when the login name has more than 43 characters.
- Builtins.OctalMode: assumes a 64-bit `long` and a 32-bit `mode_t`.

## Findings

| source | as written | input that shows it | evidently intended | confidence | as-written member | corrected member |
|---|---|---|---|---|---|---|
| simple_shell.c:93-96 | `path` is an uninitialised `char[50]`, and `cd` with no argument appends "/home/" and the login name to whatever C string its stale bytes form | `cd` with the stale bytes "x\0" in `path` and login "ana" goes to "x/home/ana" | `cd` with no argument goes to "/home/" followed by the login name | likely (not executed; depends on stack contents) | Builtins.HomePathAsWritten (Builtins.HomePathAsWrittenCounterexample) | Builtins.ChangeDirAction (Builtins.ChangeDirArguments, Builtins.HomePathAsWrittenAgrees) |

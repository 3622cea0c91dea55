/** The NULL-terminated argument vector `char *args[MAX_LINE]` of simple_shell.c and
    the in-place operations the dispatcher performs on it. */
module ArgVector {
  import opened Common

  /** `args` holds `tokens` in `args[0..|tokens|)` followed by the NULL sentinel. The
      entries after the sentinel are whatever an earlier line left there. */
  predicate IsArgv(args: array<Option<string>>, tokens: seq<string>)
    reads args
  {
    |tokens| < args.Length
    && (forall i :: 0 <= i < |tokens| ==> args[i] == Some(tokens[i]))
    && args[|tokens|] == None
  }

  /** The vector up to and including its sentinel, as a value. */
  function Vector(tokens: seq<string>): (v: seq<Option<string>>)
    ensures |v| == |tokens| + 1 && v[|tokens|] == None
    ensures forall i :: 0 <= i < |tokens| ==> v[i] == Some(tokens[i])
  {
    if tokens == [] then [None] else [Some(tokens[0])] + Vector(tokens[1..])
  }

  /** The tokens the child hands to execvp: a final "&" is dropped, nothing else changes. */
  function StripBackground(tokens: seq<string>): seq<string>
  {
    if |tokens| > 0 && tokens[|tokens| - 1] == "&" then tokens[..|tokens| - 1] else tokens
  }

  /** get_last_arg: counts up to the first NULL and returns one less, so the result is
      the index of the last non-NULL entry (-1 when args[0] is NULL). */
  method GetLastArg(args: array<Option<string>>) returns (last: int)
    requires exists k :: 0 <= k < args.Length && args[k] == None
    ensures -1 <= last && last + 1 < args.Length
    ensures args[last + 1] == None
    ensures forall i :: 0 <= i <= last ==> args[i] != None
  {
    var i := 0;
    while args[i] != None
      invariant 0 <= i
      invariant exists k :: i <= k < args.Length && args[k] == None
      invariant forall j :: 0 <= j < i ==> args[j] != None
      decreases args.Length - i
    {
      i := i + 1;
    }
    last := i - 1;
  }

  /** On a vector built by the tokenizer, the last non-NULL entry is at count - 1. */
  lemma LastArgOfArgv(args: array<Option<string>>, tokens: seq<string>, last: int)
    requires IsArgv(args, tokens)
    requires -1 <= last && last + 1 < args.Length && args[last + 1] == None
    requires forall i :: 0 <= i <= last ==> args[i] != None
    ensures last == |tokens| - 1
  {
  }

  /** The child's copy of `args` after lines 168-170: the process image is copied by
      fork, then a final "&" entry is overwritten with NULL. The parent's `args` is not
      touched. */
  method DropBackgroundMarker(args: array<Option<string>>, ghost tokens: seq<string>)
    returns (child: array<Option<string>>)
    requires IsArgv(args, tokens) && |tokens| > 0
    ensures child.Length == args.Length
    ensures child[..] == if tokens[|tokens| - 1] == "&" then args[..][|tokens| - 1 := None] else args[..]
    ensures IsArgv(child, StripBackground(tokens))
  {
    child := new Option<string>[args.Length];
    forall i | 0 <= i < args.Length {
      child[i] := args[i];
    }
    assert child[..] == args[..];
    assert child[|tokens|] == None && IsArgv(child, tokens);
    var last := GetLastArg(child);
    LastArgOfArgv(child, tokens, last);
    if child[last] == Some("&") {
      child[last] := None;
    }
  }

  /** The argument list execvp reads from a vector: every entry before the sentinel. */
  method ReadArgv(args: array<Option<string>>, ghost tokens: seq<string>) returns (argv: seq<string>)
    requires IsArgv(args, tokens)
    ensures argv == tokens
  {
    argv := [];
    var i := 0;
    while args[i].Some?
      invariant 0 <= i <= |tokens|
      invariant argv == tokens[..i]
      decreases |tokens| - i
    {
      argv := argv + [args[i].value];
      i := i + 1;
    }
  }
}

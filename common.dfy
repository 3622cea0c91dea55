/** Definitions shared by the whole shell model. */
module Common {

  /** A C pointer that may be NULL: `None` is NULL, `Some(s)` points at the string `s`. */
  datatype Option<+T> = None | Some(value: T)

  /** MAX_LINE (simple_shell.c:19): the size of the input buffer `aux_args` and of
      the argument vector `args` in `main`. */
  const MAX_LINE: nat := 80

  /** A C string holds no NUL character before its terminator. */
  predicate NoNul(s: string) {
    forall i :: 0 <= i < |s| ==> s[i] != '\0'
  }

  /** The C string that a buffer holds: its characters before the first NUL, which is
      what strlen measures. */
  function CStringOf(bytes: seq<char>): (s: string)
    ensures NoNul(s) && |s| <= |bytes| && s == bytes[..|s|]
    ensures |s| < |bytes| ==> bytes[|s|] == '\0'
  {
    if bytes == [] || bytes[0] == '\0' then [] else [bytes[0]] + CStringOf(bytes[1..])
  }

  /** The C string is the part before the first NUL, or everything when there is none. */
  lemma CStringOfAt(bytes: seq<char>, n: nat)
    requires n <= |bytes| && (n == |bytes| || bytes[n] == '\0')
    requires forall i :: 0 <= i < n ==> bytes[i] != '\0'
    ensures CStringOf(bytes) == bytes[..n]
  {
  }
}

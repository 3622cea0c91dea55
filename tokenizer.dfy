/** The line normalisation and the strtok loop of `main` (simple_shell.c:204-226):
    specification functions on strings, the properties proved about them, and the
    in-place buffer methods that `main` performs, proved against them. */
module Tokenizer {
  import opened Common
  import opened ArgVector

  /** A line as fgets(aux_args, MAX_LINE, stdin) stores it (line 204): at least one and
      at most MAX_LINE - 1 characters, a newline only as the last one, since fgets stops
      after it. NUL bytes are stored like any other byte. Two lines are excluded:
      - one that starts with NUL: strlen is 0 and line 207 reads aux_args[-1], which is
        undefined;
      - one with neither a NUL nor a newline that ends in '&': line 213 writes over the
        terminator, so what the strlen call at line 214 finds depends on bytes that
        earlier lines left in aux_args, which this per-line model does not keep. Where
        no line wrote those bytes, or when the line has MAX_LINE - 1 bytes and the
        strlen runs past aux_args[MAX_LINE - 1], the result is undefined. */
  predicate IsInputLine(line: string) {
    0 < |line| < MAX_LINE
    && (forall i :: 0 <= i < |line| - 1 ==> line[i] != '\n')
    && line[0] != '\0'
    && (|CStringOf(line)| < |line| || line[|line| - 1] != '&')
  }

  /** Lines 207-209: one trailing newline is removed. */
  function StripNewline(line: string): string {
    if |line| > 0 && line[|line| - 1] == '\n' then line[..|line| - 1] else line
  }

  /** Lines 211-214 on a string without NUL: a final '&' becomes " &", so it is always a
      token of its own. */
  function SplitTrailingAmp(s: string): string {
    if |s| > 0 && s[|s| - 1] == '&' then s[..|s| - 1] + " &" else s
  }

  /** What strlen sees at lines 207-211: the line up to its first NUL, less a final
      newline. */
  function Visible(line: string): string {
    StripNewline(CStringOf(line))
  }

  /** The buffer contents handed to strtok (lines 207-215). A final '&' of the visible
      line becomes " &". The '&' goes over the terminator, so the string runs on into
      the bytes fgets stored after it. That is nothing when the terminator was the
      newline's, and the rest of the line, up to its next NUL, when the terminator was
      a NUL byte of the line. Line 214 writes a NUL where there already is one. */
  function Normalise(line: string): (r: string)
    requires IsInputLine(line) && line[0] != '\n'
    ensures NoNul(r) && 0 < |r| <= |line|
  {
    var c := CStringOf(line);
    var s := Visible(line);
    assert |c| > 0 && c[0] == line[0];
    if s[|s| - 1] == '&' then
      assert |s| < |line|;
      s[..|s| - 1] + " &" + CStringOf(line[|s| + 1..])
    else s
  }

  /** On a line without NUL bytes, lines 207-214 only strip the newline and split off a
      final '&'. */
  lemma NormaliseOfNulFree(line: string)
    requires IsInputLine(line) && line[0] != '\n' && NoNul(line)
    ensures Normalise(line) == SplitTrailingAmp(StripNewline(line))
  {
    CStringOfAt(line, |line|);
    assert line[..|line|] == line;
    assert Visible(line) == StripNewline(line);
    var s := StripNewline(line);
    if s[|s| - 1] == '&' {
      assert line[|line| - 1] == '\n' && |s| + 1 == |line|;
      assert line[|s| + 1..] == [];
    }
  }

  /** A token: a non-empty run of characters other than ' '. */
  predicate IsWord(w: string) {
    |w| > 0 && forall j :: 0 <= j < |w| ==> w[j] != ' '
  }

  predicate AllWords(ws: seq<string>) {
    forall i :: 0 <= i < |ws| ==> IsWord(ws[i])
  }

  /** The length of the leading run of non-' ' characters of `s`. */
  function WordLen(s: string): (k: nat)
    ensures k <= |s|
    ensures forall i :: 0 <= i < k ==> s[i] != ' '
    ensures k < |s| ==> s[k] == ' '
    decreases |s|
  {
    if s == [] || s[0] == ' ' then 0 else 1 + WordLen(s[1..])
  }

  /** What repeated strtok(., " ") returns: the maximal runs of non-' ' characters, in
      order. Only ' ' separates; a tab is an ordinary character. */
  function Tokens(s: string): seq<string>
    decreases |s|
  {
    if s == [] then []
    else if s[0] == ' ' then Tokens(s[1..])
    else
      var k := WordLen(s);
      [s[..k]] + Tokens(s[k..])
  }

  /** The tokens joined with one ' ' between each two. */
  function Join(ws: seq<string>): string
    decreases |ws|
  {
    if |ws| == 0 then ""
    else if |ws| == 1 then ws[0]
    else ws[0] + " " + Join(ws[1..])
  }

  /** Every token is non-empty and contains no ' '. */
  lemma {:induction false} TokensAreWords(s: string)
    ensures AllWords(Tokens(s))
    decreases |s|
  {
    if s == [] {
    } else if s[0] == ' ' {
      TokensAreWords(s[1..]);
    } else {
      var k := WordLen(s);
      TokensAreWords(s[k..]);
      assert Tokens(s) == [s[..k]] + Tokens(s[k..]);
    }
  }

  /** The comment at line 192: a line of n characters has at most (n + 1) / 2 tokens,
      so an 80-character buffer gives at most 40 of them. */
  lemma {:induction false} TokensCount(s: string)
    ensures 2 * |Tokens(s)| <= |s| + 1
    decreases |s|
  {
    if s == [] {
    } else if s[0] == ' ' {
      TokensCount(s[1..]);
    } else {
      var k := WordLen(s);
      if k < |s| {
        assert s[k..][0] == ' ';
        assert s[k..][1..] == s[k + 1..];
        TokensCount(s[k + 1..]);
      }
    }
  }

  /** A ' ' splits the token list: the tokens of a + " " + b are those of a, then those
      of b, so no token spans a space. */
  lemma {:induction false} TokensSplitAtSpace(a: string, b: string)
    ensures Tokens(a + " " + b) == Tokens(a) + Tokens(b)
    decreases |a|
  {
    var s := a + " " + b;
    if a == [] {
      assert s[1..] == b;
    } else if a[0] == ' ' {
      assert s[1..] == a[1..] + " " + b;
      TokensSplitAtSpace(a[1..], b);
    } else {
      var k := WordLen(a);
      WordLenOfConcat(a, " " + b);
      assert s == a + (" " + b);
      if k < |a| {
        assert s[..k] == a[..k];
        assert s[k..] == a[k..] + " " + b;
        TokensSplitAtSpace(a[k..], b);
      } else {
        assert s[..k] == a;
        assert s[k..] == " " + b;
        assert (" " + b)[1..] == b;
        assert Tokens(" " + b) == Tokens(b);
        assert a[..k] == a && a[k..] == [];
        assert Tokens(a) == [a];
        assert WordLen(" " + b) == 0 && WordLen(s) == k;
        assert s[0] == a[0] != ' ';
        assert Tokens(s) == [s[..k]] + Tokens(s[k..]);
      }
    }
  }

  /** The leading run is determined by where the first ' ' stands. */
  lemma WordLenIs(t: string, k: nat)
    requires k <= |t| && (k == |t| || t[k] == ' ')
    requires forall i :: 0 <= i < k ==> t[i] != ' '
    ensures WordLen(t) == k
  {
  }

  /** The leading run of a + c stops inside a when a holds a ' ', and reaches into c
      otherwise. */
  lemma WordLenOfConcat(a: string, c: string)
    ensures WordLen(a) < |a| ==> WordLen(a + c) == WordLen(a)
    ensures WordLen(a) == |a| ==> WordLen(a + c) == |a| + WordLen(c)
  {
    var k := WordLen(a);
    if k < |a| {
      WordLenIs(a + c, k);
    } else {
      var w := WordLen(c);
      assert forall i :: 0 <= i < |a| ==> (a + c)[i] == a[i];
      assert forall i :: |a| <= i < |a| + |c| ==> (a + c)[i] == c[i - |a|];
      WordLenIs(a + c, |a| + w);
    }
  }

  /** A single word is a single token. */
  lemma TokensOfWord(w: string)
    requires IsWord(w)
    ensures Tokens(w) == [w]
  {
    WordLenIs(w, |w|);
    assert w[..|w|] == w;
    assert w[|w|..] == [];
  }

  /** Round trip: tokenizing words joined by single spaces gives the words back. */
  lemma {:induction false} TokensOfJoin(ws: seq<string>)
    requires AllWords(ws)
    ensures Tokens(Join(ws)) == ws
    decreases |ws|
  {
    if |ws| == 0 {
    } else if |ws| == 1 {
      TokensOfWord(ws[0]);
    } else {
      assert IsWord(ws[0]);
      TokensOfJoin(ws[1..]);
      TokensSplitAtSpace(ws[0], Join(ws[1..]));
      TokensOfWord(ws[0]);
      assert [ws[0]] + ws[1..] == ws;
    }
  }

  /** Exactly one final newline is removed, and no newline remains for strtok. */
  lemma NormaliseDropsNewline(line: string)
    requires IsInputLine(line) && line[0] != '\n' && NoNul(line)
    ensures line[|line| - 1] == '\n' ==> StripNewline(line) == line[..|line| - 1]
    ensures line[|line| - 1] != '\n' ==> StripNewline(line) == line
    ensures forall i :: 0 <= i < |Normalise(line)| ==> Normalise(line)[i] != '\n'
  {
    NormaliseOfNulFree(line);
  }

  /** Lines 211-215: a final '&', glued to a word or not, ends up as the last token, and
      the tokens before it are those of the rest of the line. */
  lemma TrailingAmpIsOwnToken(line: string)
    requires IsInputLine(line) && line[0] != '\n' && NoNul(line)
    requires var s := StripNewline(line); |s| > 0 && s[|s| - 1] == '&'
    ensures var s := StripNewline(line);
      Tokens(Normalise(line)) == Tokens(s[..|s| - 1]) + ["&"]
  {
    NormaliseOfNulFree(line);
    var s := StripNewline(line);
    assert Normalise(line) == s[..|s| - 1] + " " + "&";
    TokensSplitAtSpace(s[..|s| - 1], "&");
    TokensOfWord("&");
  }

  /** A line that does not end in '&' reaches strtok as it is, less its newline. */
  lemma NoTrailingAmpUnchanged(line: string)
    requires IsInputLine(line) && line[0] != '\n' && NoNul(line)
    requires var s := StripNewline(line); |s| == 0 || s[|s| - 1] != '&'
    ensures Normalise(line) == StripNewline(line)
  {
    NormaliseOfNulFree(line);
  }

  /** Joined words followed by '&', glued or after a space: without the '&' they
      tokenize back to the words. */
  lemma TokensBeforeAmp(s: string, ws: seq<string>)
    requires AllWords(ws)
    requires s == Join(ws) + "&" || s == Join(ws) + " &"
    ensures Tokens(s[..|s| - 1]) == ws
  {
    TokensOfJoin(ws);
    if s == Join(ws) + " &" {
      assert s[..|s| - 1] == Join(ws) + " " + "";
      TokensSplitAtSpace(Join(ws), "");
      assert Tokens("") == [];
    } else {
      assert s[..|s| - 1] == Join(ws);
    }
  }

  /** "w1 w2 ... wn&" and "w1 w2 ... wn &" both give the vector w1, ..., wn, "&". */
  lemma BackgroundOfJoin(line: string, ws: seq<string>)
    requires IsInputLine(line) && line[0] != '\n' && NoNul(line) && AllWords(ws)
    requires StripNewline(line) == Join(ws) + "&" || StripNewline(line) == Join(ws) + " &"
    ensures Tokens(Normalise(line)) == ws + ["&"]
  {
    var s := StripNewline(line);
    TrailingAmpIsOwnToken(line);
    TokensBeforeAmp(s, ws);
  }

  /** A line "w1 w2 ... wn" (with or without its newline) not ending in '&' gives the
      vector w1, ..., wn. */
  lemma PlainLineTokens(line: string, ws: seq<string>)
    requires IsInputLine(line) && line[0] != '\n' && NoNul(line)
    requires AllWords(ws) && |ws| > 0 && ws[|ws| - 1] != "&"
    requires StripNewline(line) == Join(ws)
    requires |Join(ws)| > 0 && Join(ws)[|Join(ws)| - 1] != '&'
    ensures Tokens(Normalise(line)) == ws
  {
    NormaliseOfNulFree(line);
    TokensOfJoin(ws);
  }

  /** A '&' glued to the command word is split off. */
  lemma GluedAmpExample()
    ensures Tokens(Normalise("ls&\n")) == ["ls", "&"]
  {
    assert Join(["ls"]) == "ls";
    BackgroundOfJoin("ls&\n", ["ls"]);
  }

  /** A '&' that already stands apart is kept as the last token. */
  lemma SeparateAmpExample()
    ensures Tokens(Normalise("ls -la &\n")) == ["ls", "-la", "&"]
  {
    var ws := ["ls", "-la"];
    assert ws[1..] == ["-la"];
    assert Join(ws) == "ls" + " " + "-la";
    var line := "ls -la &\n";
    assert line[..|line| - 1] == "ls -la &";
    BackgroundOfJoin(line, ws);
  }

  /** strlen stops at a NUL byte, so nothing after it is tokenized. */
  lemma NulByteExample(line: string)
    requires line == "ls\0 -la\n"
    ensures IsInputLine(line) && Tokens(Normalise(line)) == ["ls"]
  {
    CStringOfAt(line, 2);
    assert Visible(line) == "ls";
    TokensOfWord("ls");
  }

  /** The tokens of "a &b c\n": the newline stays in the last one. */
  lemma TokensOfSplicedExample(t: string)
    requires t == "a &b c\n"
    ensures Tokens(t) == ["a", "&b", "c\n"]
  {
    assert t == "a" + " " + ("&b" + " " + "c\n");
    TokensOfWord("a");
    TokensOfWord("&b");
    TokensOfWord("c\n");
    TokensSplitAtSpace("&b", "c\n");
    TokensSplitAtSpace("a", "&b" + " " + "c\n");
  }

  /** When the visible line ends in '&' before a NUL byte, the '&' written over that
      NUL joins the rest of the line, newline included: "a&\0b c\n" reaches strtok as
      "a &b c\n". */
  lemma NulAfterAmpExample(line: string)
    requires line == "a&\0b c\n"
    ensures IsInputLine(line) && Normalise(line) == "a &b c\n"
    ensures Tokens(Normalise(line)) == ["a", "&b", "c\n"]
  {
    CStringOfAt(line, 2);
    assert Visible(line) == "a&";
    NormaliseSplice(line, 7);
    assert line[3..7] == "b c\n";
    TokensOfSplicedExample(Normalise(line));
  }

  /** Splitting is on ' ' only: a tab stays inside its token. */
  lemma TabIsNotASeparator()
    ensures Tokens("a\tb") == ["a\tb"]
  {
    TokensOfWord("a\tb");
  }

  /** The characters of `buf` from `from` on agree with `s`, and buf[|s|] is the
      terminating NUL. */
  predicate BufferHolds(buf: array<char>, s: string, from: nat)
    reads buf
  {
    |s| < buf.Length && buf[|s|] == '\0'
    && forall i :: from <= i < |s| ==> buf[i] == s[i]
  }

  /** strlen: the position of the first NUL in the buffer. */
  method Strlen(buf: array<char>) returns (n: nat)
    requires exists k :: 0 <= k < buf.Length && buf[k] == '\0'
    ensures n < buf.Length && buf[n] == '\0'
    ensures forall i :: 0 <= i < n ==> buf[i] != '\0'
  {
    n := 0;
    while buf[n] != '\0'
      invariant exists k :: n <= k < buf.Length && buf[k] == '\0'
      invariant forall i :: 0 <= i < n ==> buf[i] != '\0'
      decreases buf.Length - n
    {
      n := n + 1;
    }
  }

  /** fgets(aux_args, MAX_LINE, stdin) (line 204): the line, then its terminator. */
  method Fgets(buf: array<char>, line: string)
    requires buf.Length == MAX_LINE && IsInputLine(line)
    modifies buf
    ensures BufferHolds(buf, line, 0)
  {
    var j := 0;
    while j < |line|
      invariant 0 <= j <= |line|
      invariant forall i :: 0 <= i < j ==> buf[i] == line[i]
    {
      buf[j] := line[j];
      j := j + 1;
    }
    buf[|line|] := '\0';
  }

  /** Lines 207-209: strlen finds the first NUL, and a newline just before it becomes
      NUL. The buffer then holds the visible line, and after its terminator the bytes
      of the line are untouched. */
  method DropNewline(buf: array<char>, ghost line: string) returns (len: nat)
    requires IsInputLine(line) && line[0] != '\n' && BufferHolds(buf, line, 0)
    modifies buf
    ensures len == |Visible(line)| && len < |line| + 1
    ensures BufferHolds(buf, Visible(line), 0) && BufferHolds(buf, line, len + 1)
  {
    len := Strlen(buf);
    assert len <= |line| && (len == |line| || line[len] == '\0');
    CStringOfAt(line, len);
    if buf[len - 1] == '\n' {
      buf[len - 1] := '\0';
      len := len - 1;
    }
    assert Visible(line) == line[..len];
  }

  /** The string strtok sees after line 213, given where the strlen that follows it
      stops. */
  lemma NormaliseSplice(line: string, n: nat)
    requires IsInputLine(line) && line[0] != '\n'
    requires var s := Visible(line); s[|s| - 1] == '&' && |s| < n <= |line|
    requires n == |line| || line[n] == '\0'
    requires forall i :: |Visible(line)| < i < n ==> line[i] != '\0'
    ensures var s := Visible(line); Normalise(line) == s[..|s| - 1] + " &" + line[|s| + 1..n]
  {
    var s := Visible(line);
    var rest := line[|s| + 1..];
    assert forall i :: 0 <= i < n - |s| - 1 ==> rest[i] == line[|s| + 1 + i];
    CStringOfAt(rest, n - |s| - 1);
    assert rest[..n - |s| - 1] == line[|s| + 1..n];
  }

  /** The visible line is a NUL-free prefix of the line. */
  lemma VisibleIsPrefix(line: string)
    ensures var s := Visible(line); NoNul(s) && |s| <= |line| && s == line[..|s|]
  {
    var c := CStringOf(line);
    var s := Visible(line);
    assert s == c[..|s|];
  }

  /** The buffer after line 213 and the strlen that follows it, character by
      character. */
  lemma SplicedBuffer(buf: array<char>, s: string, line: string, n: nat)
    requires 0 < |s| < n <= |line| < buf.Length
    requires forall i :: 0 <= i < |s| - 1 ==> buf[i] == s[i]
    requires buf[|s| - 1] == ' ' && buf[|s|] == '&'
    requires forall i :: |s| < i < n ==> buf[i] == line[i]
    ensures forall i :: 0 <= i < n ==> buf[i] == (s[..|s| - 1] + " &" + line[|s| + 1..n])[i]
  {
  }

  /** Lines 212-214 on a buffer holding the NUL-free string `s`, ending in '&', with
      the bytes of `line` after its terminator: the '&' becomes ' ', the terminator
      becomes '&', and strlen runs on to the next NUL. */
  method SpliceAmp(buf: array<char>, ghost s: string, ghost line: string, len: nat) returns (n: nat)
    requires 0 < len == |s| < |line| < buf.Length && NoNul(s)
    requires BufferHolds(buf, s, 0) && BufferHolds(buf, line, |s| + 1)
    modifies buf
    ensures |s| < n <= |line| && (n == |line| || line[n] == '\0')
    ensures forall i :: |s| < i < n ==> line[i] != '\0'
    ensures BufferHolds(buf, s[..|s| - 1] + " &" + line[|s| + 1..n], 0)
  {
    buf[len - 1] := ' ';
    buf[len] := '&';
    assert buf[|line|] == '\0' && forall i :: len < i < |line| ==> buf[i] == line[i];
    assert forall i :: 0 <= i <= len ==> buf[i] != '\0';
    n := Strlen(buf);
    SplicedBuffer(buf, s, line, n);
    buf[n] := '\0';
  }

  /** Lines 211-214: a final '&' of the visible line becomes ' ', the terminator after
      it becomes '&', and strlen then runs on to the next NUL that fgets left. */
  method SplitAmp(buf: array<char>, ghost line: string, len: nat) returns (n: nat)
    requires IsInputLine(line) && line[0] != '\n' && len == |Visible(line)|
    requires BufferHolds(buf, Visible(line), 0) && BufferHolds(buf, line, len + 1)
    modifies buf
    ensures n == |Normalise(line)| && BufferHolds(buf, Normalise(line), 0)
  {
    n := len;
    VisibleIsPrefix(line);
    if buf[len - 1] == '&' {
      assert len < |line| && |Normalise(line)| > 0;
      n := SpliceAmp(buf, Visible(line), line, len);
      NormaliseSplice(line, n);
    }
  }

  /** fgets followed by lines 207-214, on the buffer aux_args. */
  method ReadAndNormalise(buf: array<char>, line: string) returns (len: nat)
    requires buf.Length == MAX_LINE && IsInputLine(line) && line[0] != '\n'
    modifies buf
    ensures len == |Normalise(line)|
    ensures BufferHolds(buf, Normalise(line), 0)
  {
    Fgets(buf, line);
    var visible := DropNewline(buf, line);
    len := SplitAmp(buf, line, visible);
  }

  /** Skipping a ' ' does not change the remaining tokens. */
  lemma TokensSkipSpace(s: string, q: nat)
    requires q < |s| && s[q] == ' '
    ensures Tokens(s[q..]) == Tokens(s[q + 1..])
  {
    assert s[q..][1..] == s[q + 1..];
  }

  /** A maximal run s[q..e) is the next token. */
  lemma TokensAtWord(s: string, q: nat, e: nat)
    requires q < e <= |s|
    requires forall i :: q <= i < e ==> s[i] != ' '
    requires e == |s| || s[e] == ' '
    ensures Tokens(s[q..]) == [s[q..e]] + Tokens(s[e..])
  {
    var t := s[q..];
    WordLenIs(t, e - q);
    assert t[..e - q] == s[q..e];
    assert t[e - q..] == s[e..];
  }

  /** The first part of strtok: the position of the first character at or after
      `pos` that is not ' '. */
  method SkipSpaces(buf: array<char>, pos: nat, ghost s: string) returns (q: nat)
    requires pos <= |s| && BufferHolds(buf, s, pos)
    ensures pos <= q <= |s| && (q == |s| || s[q] != ' ')
    ensures Tokens(s[pos..]) == Tokens(s[q..])
  {
    q := pos;
    while buf[q] == ' '
      invariant pos <= q <= |s|
      invariant Tokens(s[pos..]) == Tokens(s[q..])
      decreases |s| - q
    {
      TokensSkipSpace(s, q);
      q := q + 1;
    }
  }

  /** The second part of strtok: the end of the run of characters that are neither
      ' ' nor NUL starting at `q`. */
  method ScanWord(buf: array<char>, q: nat, ghost s: string) returns (e: nat)
    requires q <= |s| && NoNul(s) && BufferHolds(buf, s, q)
    ensures q <= e <= |s| && (e == |s| || s[e] == ' ')
    ensures forall i :: q <= i < e ==> s[i] != ' '
  {
    e := q;
    while buf[e] != ' ' && buf[e] != '\0'
      invariant q <= e <= |s|
      invariant forall i :: q <= i < e ==> s[i] != ' '
      decreases |s| - e
    {
      e := e + 1;
    }
  }

  /** One call of strtok(., " ") continuing at `pos`: skips ' ', returns the run up to
      the next ' ' or NUL and overwrites that ' ' with NUL; `next` is where the following
      call resumes. */
  method StrTok(buf: array<char>, pos: nat, ghost s: string) returns (tok: Option<string>, next: nat)
    requires pos <= |s| && NoNul(s) && BufferHolds(buf, s, pos)
    modifies buf
    ensures pos <= next <= |s| && BufferHolds(buf, s, next)
    ensures tok.None? ==> Tokens(s[pos..]) == [] && next == |s|
    ensures tok.Some? ==> pos < next && Tokens(s[pos..]) == [tok.value] + Tokens(s[next..])
  {
    var q := SkipSpaces(buf, pos, s);
    if buf[q] == '\0' {
      return None, q;
    }
    var e := ScanWord(buf, q, s);
    TokensAtWord(s, q, e);
    assert buf[q..e] == s[q..e];
    tok := Some(buf[q..e]);
    if buf[e] == ' ' {
      TokensSkipSpace(s, e);
      buf[e] := '\0';
      next := e + 1;
    } else {
      next := e;
    }
  }

  /** Lines 217-226: strtok over the buffer, storing each token in args[i], then the
      NULL sentinel at args[i]. */
  method SplitIntoArgs(buf: array<char>, ghost s: string, args: array<Option<string>>)
    returns (count: nat)
    requires NoNul(s) && buf.Length == MAX_LINE && BufferHolds(buf, s, 0) && args.Length == MAX_LINE
    modifies buf, args
    ensures count == |Tokens(s)|
    ensures IsArgv(args, Tokens(s))
  {
    ghost var all := Tokens(s);
    TokensCount(s);
    var token, pos := StrTok(buf, 0, s);
    var i := 0;
    while token.Some?
      invariant pos <= |s| && BufferHolds(buf, s, pos)
      invariant token.Some? ==> i < |all| && all[i] == token.value && all[i + 1..] == Tokens(s[pos..])
      invariant token.None? ==> i == |all|
      invariant i <= |all|
      invariant forall j :: 0 <= j < i ==> args[j] == Some(all[j])
      decreases |s| - pos + (if token.Some? then 1 else 0)
    {
      args[i] := token;
      token, pos := StrTok(buf, pos, s);
      i := i + 1;
    }
    args[i] := None;
    count := i;
  }

  /** The whole of lines 204-226: the vector that `main` hands to execute_command holds
      the tokens of the normalised line, with the sentinel after them. */
  method Tokenize(line: string) returns (args: array<Option<string>>, count: nat)
    requires IsInputLine(line) && line[0] != '\n'
    ensures args.Length == MAX_LINE
    ensures count == |Tokens(Normalise(line))|
    ensures IsArgv(args, Tokens(Normalise(line)))
  {
    var buf := new char[MAX_LINE];
    args := new Option<string>[MAX_LINE];
    var len := ReadAndNormalise(buf, line);
    count := SplitIntoArgs(buf, Normalise(line), args);
  }
}

/** Tokenizing a command line: `string.Split(' ')`, which keeps empty
    tokens, its inverse `string.Join(" ", ...)`, and ASCII lower-casing. */
module Tokens {

  /** The one separator the interpreter splits on. */
  const Sep: char := ' '

  /** Joins tokens with single separators; the inverse of `Split`. */
  function Join(parts: seq<string>): string
    requires |parts| >= 1
    decreases |parts|
  {
    if |parts| == 1 then parts[0] else parts[0] + [Sep] + Join(parts[1..])
  }

  /** Number of separators in `s`. */
  function SepCount(s: string): nat
    decreases |s|
  {
    if |s| == 0 then 0 else (if s[0] == Sep then 1 else 0) + SepCount(s[1..])
  }

  /** `s.Split(' ')`: every separator ends a token, so a run of separators
      yields empty tokens and the empty line yields one empty token. */
  function Split(s: string): (parts: seq<string>)
    ensures |parts| == SepCount(s) + 1
    ensures forall i :: 0 <= i < |parts| ==> Sep !in parts[i]
    decreases |s|
  {
    if |s| == 0 then [""]
    else
      var rest := Split(s[1..]);
      if s[0] == Sep then [""] + rest
      else [[s[0]] + rest[0]] + rest[1..]
  }

  /** Joining the tokens of a line gives the line back. */
  lemma {:induction false} JoinSplit(s: string)
    ensures Join(Split(s)) == s
    decreases |s|
  {
    if |s| > 0 {
      var rest := Split(s[1..]);
      JoinSplit(s[1..]);
      if s[0] == Sep {
        assert ([""] + rest)[1..] == rest;
        assert s == [Sep] + s[1..];
      } else {
        var parts := [[s[0]] + rest[0]] + rest[1..];
        if |rest| == 1 {
          assert s == [s[0]] + s[1..];
        } else {
          assert parts[1..] == rest[1..];
          assert Join(rest) == rest[0] + [Sep] + Join(rest[1..]);
          assert s == [s[0]] + s[1..];
        }
      }
    }
  }

  /** A separator-free prefix extends the first token of what follows. */
  lemma {:induction false} SplitPrefix(t: string, u: string)
    requires Sep !in t
    ensures Split(t + u) == [t + Split(u)[0]] + Split(u)[1..]
    decreases |t|
  {
    if |t| == 0 {
      assert t + u == u;
      assert t + Split(u)[0] == Split(u)[0];
      assert Split(u) == [Split(u)[0]] + Split(u)[1..];
    } else {
      assert (t + u)[0] == t[0];
      assert (t + u)[1..] == t[1..] + u;
      SplitPrefix(t[1..], u);
      assert [t[0]] + (t[1..] + Split(u)[0]) == t + Split(u)[0];
    }
  }

  /** Splitting joined separator-free tokens gives the tokens back. */
  lemma {:induction false} SplitJoin(parts: seq<string>)
    requires |parts| >= 1
    requires forall i :: 0 <= i < |parts| ==> Sep !in parts[i]
    ensures Split(Join(parts)) == parts
    decreases |parts|
  {
    if |parts| == 1 {
      SplitPrefix(parts[0], "");
      assert parts[0] + "" == parts[0];
    } else {
      var u := [Sep] + Join(parts[1..]);
      SplitJoin(parts[1..]);
      assert u[1..] == Join(parts[1..]);
      assert Split(u) == [""] + parts[1..];
      assert Split(u)[0] == "" && Split(u)[1..] == parts[1..];
      SplitPrefix(parts[0], u);
      assert parts[0] + "" == parts[0];
      assert parts[0] + [Sep] + Join(parts[1..]) == parts[0] + u;
      assert parts == [parts[0]] + parts[1..];
    }
  }

  /** `Char.ToLower` restricted to ASCII letters. */
  function LowerChar(c: char): char {
    if 'A' <= c <= 'Z' then (c as int + 32) as char else c
  }

  /** `string.ToLower`, letter by letter. */
  function Lower(s: string): (r: string)
    ensures |r| == |s|
    ensures forall i :: 0 <= i < |r| ==> !('A' <= r[i] <= 'Z')
    ensures forall i :: 0 <= i < |r| && !('A' <= s[i] <= 'Z') ==> r[i] == s[i]
    ensures forall i :: 0 <= i < |r| && 'A' <= s[i] <= 'Z' ==> r[i] as int == s[i] as int + ('a' as int - 'A' as int)
  {
    seq(|s|, i requires 0 <= i < |s| => LowerChar(s[i]))
  }

  /** Lower-casing twice is lower-casing once. */
  lemma LowerIdempotent(s: string)
    ensures Lower(Lower(s)) == Lower(s)
  {
  }
}

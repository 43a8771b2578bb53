/**
 * The string operations the telemetry protocol and the variable tables rely on, with the
 * semantics of the library calls the source uses: Python's `str.split(sep)`, `str.strip(c)`,
 * `str.replace`, `str.startswith`, `str(int)`, and C++'s `std::getline` tokenising.
 */
module Text {

  /** Concatenation regroups freely; stated once for the proofs that build texts piece by piece. */
  lemma ConcatAssoc<T>(a: seq<T>, b: seq<T>, c: seq<T>)
    ensures a + (b + c) == (a + b) + c
  {
  }

  /** Python `sep.join(parts)`. */
  function Join(parts: seq<string>, sep: char): (s: string)
    ensures |parts| == 1 ==> s == parts[0]
  {
    if parts == [] then ""
    else if |parts| == 1 then parts[0]
    else parts[0] + [sep] + Join(parts[1..], sep)
  }

  /** Python `s.split(sep)` for a one-character separator: always at least one piece. */
  function Split(s: string, sep: char): (parts: seq<string>)
    ensures |parts| >= 1
    ensures forall i :: 0 <= i < |parts| ==> sep !in parts[i]
    ensures sep in s ==> forall i :: 0 <= i < |parts| ==> |parts[i]| < |s|
    decreases |s|
  {
    if sep !in s then [s]
    else
      var i := FirstIndex(s, sep);
      [s[..i]] + Split(s[i + 1..], sep)
  }

  /** Position of the first `c` in `s` (`s.index(c)`, `std::string::find`). */
  function FirstIndex(s: string, c: char): (i: nat)
    requires c in s
    ensures i < |s| && s[i] == c && c !in s[..i]
  {
    if s[0] == c then 0
    else
      var j := FirstIndex(s[1..], c);
      assert s[..j + 1] == [s[0]] + s[1..][..j];
      j + 1
  }

  /** The text before the first `c` (`s.split(c, 1)[0]`, `s.substr(0, s.find(c))`). */
  function Before(s: string, c: char): (r: string)
    requires c in s
    ensures c !in r && |r| < |s|
  {
    s[..FirstIndex(s, c)]
  }

  /** The text after the first `c` (`s.split(c, 1)[1]`, `s.substr(s.find(c) + 1)`). */
  function After(s: string, c: char): (r: string)
    requires c in s
    ensures |r| < |s|
    ensures s == Before(s, c) + [c] + r
  {
    s[FirstIndex(s, c) + 1..]
  }

  /** When `a` holds no `c`, the first `c` of `a + [c] + b` is the one after `a`. */
  lemma FirstIndexAfter(a: string, c: char, b: string)
    requires c !in a
    ensures c in a + [c] + b
    ensures Before(a + [c] + b, c) == a && After(a + [c] + b, c) == b
  {
    var s := a + [c] + b;
    assert s[|a|] == c;
    assert s[..|a|] == a;
    var i := FirstIndex(s, c);
    assert i <= |a| ==> s[..i] == a[..i];
  }

  /** Splitting and joining back gives the original string. */
  lemma {:induction false} JoinSplit(s: string, sep: char)
    ensures Join(Split(s, sep), sep) == s
    decreases |s|
  {
    if sep in s {
      var i := FirstIndex(s, sep);
      var tail := Split(s[i + 1..], sep);
      calc {
        Join(Split(s, sep), sep);
        Join([s[..i]] + tail, sep);
        { assert ([s[..i]] + tail)[1..] == tail; }
        s[..i] + [sep] + Join(tail, sep);
        { JoinSplit(s[i + 1..], sep); }
        s[..i] + [sep] + s[i + 1..];
        s;
      }
    }
  }

  /** Joining pieces free of the separator and splitting again recovers the pieces. */
  lemma {:induction false} SplitJoin(parts: seq<string>, sep: char)
    requires |parts| >= 1
    requires forall i :: 0 <= i < |parts| ==> sep !in parts[i]
    ensures Split(Join(parts, sep), sep) == parts
    decreases |parts|
  {
    if |parts| > 1 {
      var s := Join(parts, sep);
      var rest := Join(parts[1..], sep);
      assert sep in s && Before(s, sep) == parts[0] && After(s, sep) == rest by {
        assert s == parts[0] + [sep] + rest;
        FirstIndexAfter(parts[0], sep, rest);
      }
      assert Split(s, sep) == [parts[0]] + Split(rest, sep);
      SplitJoin(parts[1..], sep);
      assert parts == [parts[0]] + parts[1..];
    }
  }

  /** Appending one more piece to a non-empty join. */
  lemma {:induction false} JoinSnoc(parts: seq<string>, x: string, sep: char)
    requires |parts| >= 1
    ensures Join(parts + [x], sep) == Join(parts, sep) + [sep] + x
    decreases |parts|
  {
    if |parts| > 1 {
      assert (parts + [x])[1..] == parts[1..] + [x];
      JoinSnoc(parts[1..], x, sep);
    }
  }

  /** A character that is neither in any piece nor the separator is not in the join. */
  lemma {:induction false} JoinExcludes(parts: seq<string>, sep: char, c: char)
    requires c != sep
    requires forall i :: 0 <= i < |parts| ==> c !in parts[i]
    ensures c !in Join(parts, sep)
    decreases |parts|
  {
    if |parts| > 1 {
      JoinExcludes(parts[1..], sep, c);
      assert Join(parts, sep) == parts[0] + [sep] + Join(parts[1..], sep);
    }
  }

  /** A join of non-empty pieces starts with the first piece's first character. */
  lemma JoinHead(parts: seq<string>, sep: char)
    requires |parts| >= 1 && parts[0] != ""
    ensures Join(parts, sep) != "" && Join(parts, sep)[0] == parts[0][0]
  {
  }

  /** Python `s.strip(c)`: every leading and trailing `c` removed. */
  function Strip(s: string, c: char): (r: string)
    ensures r == "" || (r[0] != c && r[|r| - 1] != c)
  {
    StripRight(StripLeft(s, c), c)
  }

  function StripLeft(s: string, c: char): (r: string)
    ensures |r| <= |s| && r == s[|s| - |r|..]
    ensures r == "" || r[0] != c
    ensures forall i :: 0 <= i < |s| - |r| ==> s[i] == c
  {
    if s != [] && s[0] == c then StripLeft(s[1..], c) else s
  }

  function StripRight(s: string, c: char): (r: string)
    ensures |r| <= |s| && r == s[..|r|]
    ensures r == "" || r[|r| - 1] != c
    ensures forall i :: |r| <= i < |s| ==> s[i] == c
  {
    if s != [] && s[|s| - 1] == c then StripRight(s[..|s| - 1], c) else s
  }

  /** `strip` leaves a string that neither starts nor ends with `c` unchanged. */
  lemma StripNoop(s: string, c: char)
    requires s == "" || (s[0] != c && s[|s| - 1] != c)
    ensures Strip(s, c) == s
  {
  }

  /** `strip` removes one trailing `c` from a string that neither starts nor ends with `c`. */
  lemma StripTrailingSep(s: string, c: char)
    requires s != "" && s[0] != c && s[|s| - 1] != c
    ensures Strip(s + [c], c) == s
  {
    var t := s + [c];
    assert t[0] == s[0];
    assert StripLeft(t, c) == t;
    assert t[..|t| - 1] == s;
    assert StripRight(t, c) == StripRight(s, c);
  }

  /** Python `s.startswith(p)`. */
  predicate StartsWith(s: string, p: string) {
    |p| <= |s| && s[..|p|] == p
  }

  /**
   * The tokens `while (std::getline(stream, token, sep))` yields: the pieces of `Split`,
   * except that an empty input yields none and a trailing separator yields no empty piece.
   */
  function GetlineTokens(s: string, sep: char): (tokens: seq<string>)
    ensures s == "" ==> tokens == []
    ensures s != "" ==> |tokens| >= 1 && Join(tokens, sep) + (if s[|s| - 1] == sep then [sep] else []) == s
    ensures forall i :: 0 <= i < |tokens| ==> sep !in tokens[i]
  {
    if s == "" then []
    else
      var parts := Split(s, sep);
      JoinSplit(s, sep);
      JoinLastPiece(parts, sep);
      if parts[|parts| - 1] == "" then
        JoinLast(parts, sep);
        parts[..|parts| - 1]
      else
        parts
  }

  lemma {:induction false} JoinLast(parts: seq<string>, sep: char)
    requires |parts| >= 2 && parts[|parts| - 1] == ""
    ensures Join(parts, sep) == Join(parts[..|parts| - 1], sep) + [sep]
    decreases |parts|
  {
    if |parts| > 2 {
      JoinLast(parts[1..], sep);
      assert parts[1..][..|parts[1..]| - 1] == parts[..|parts| - 1][1..];
    }
  }

  /** A non-empty join of separator-free pieces ends with the separator exactly when its last piece is empty. */
  lemma JoinLastPiece(parts: seq<string>, sep: char)
    requires |parts| >= 1 && Join(parts, sep) != ""
    requires forall i :: 0 <= i < |parts| ==> sep !in parts[i]
    ensures var s := Join(parts, sep); (parts[|parts| - 1] == "") <==> s[|s| - 1] == sep
  {
    var s := Join(parts, sep);
    var last := parts[|parts| - 1];
    if last == "" {
      JoinLast(parts, sep);
      assert s == Join(parts[..|parts| - 1], sep) + [sep];
    } else {
      JoinEndsWithLast(parts, sep);
      assert last[|last| - 1] in last;
    }
  }

  /** A non-empty join ends with the last piece. */
  lemma JoinEndsWithLast(parts: seq<string>, sep: char)
    requires |parts| >= 1 && parts[|parts| - 1] != ""
    ensures var s := Join(parts, sep); s != "" && s[|s| - 1] == parts[|parts| - 1][|parts[|parts| - 1]| - 1]
  {
    if |parts| > 1 {
      JoinSnoc(parts[..|parts| - 1], parts[|parts| - 1], sep);
      assert parts[..|parts| - 1] + [parts[|parts| - 1]] == parts;
    }
  }

  /** `pat` occurs in `s` at position `i`. */
  predicate OccursAt(s: string, pat: string, i: int) {
    0 <= i && i + |pat| <= |s| && s[i..i + |pat|] == pat
  }

  /**
   * Python `s.replace(pat, rep)`: every non-overlapping occurrence of `pat`, scanning left
   * to right, replaced by `rep`. `pat` is non-empty at every call site.
   */
  function Replace(s: string, pat: string, rep: string): (r: string)
    requires pat != ""
    ensures OccursAt(s, pat, 0) ==> |rep| <= |r| && r[..|rep|] == rep
    decreases |s|
  {
    if |s| < |pat| then s
    else if s[..|pat|] == pat then rep + Replace(s[|pat|..], pat, rep)
    else [s[0]] + Replace(s[1..], pat, rep)
  }

  /** A string without an occurrence of the pattern is left unchanged. */
  lemma {:induction false} ReplaceAbsent(s: string, pat: string, rep: string)
    requires pat != ""
    requires forall i :: !OccursAt(s, pat, i)
    ensures Replace(s, pat, rep) == s
    decreases |s|
  {
    if |s| >= |pat| {
      assert !OccursAt(s, pat, 0);
      forall i ensures !OccursAt(s[1..], pat, i) {
        if OccursAt(s[1..], pat, i) {
          assert s[1..][i..i + |pat|] == s[i + 1..i + 1 + |pat|];
          assert OccursAt(s, pat, i + 1);
        }
      }
      ReplaceAbsent(s[1..], pat, rep);
    }
  }

  function DigitChar(d: nat): (c: char)
    requires d < 10
    ensures '0' <= c <= '9' && c as int - '0' as int == d
  {
    "0123456789"[d]
  }

  function DigitValue(c: char): (d: nat)
    requires '0' <= c <= '9'
  {
    c as int - '0' as int
  }

  /** Decimal digits of a natural number, most significant first, no leading zeros. */
  function NatToString(n: nat): (s: string)
    ensures |s| >= 1 && forall i :: 0 <= i < |s| ==> '0' <= s[i] <= '9'
    ensures |s| > 1 ==> s[0] != '0'
    decreases n
  {
    if n < 10 then [DigitChar(n)] else NatToString(n / 10) + [DigitChar(n % 10)]
  }

  /** Reading decimal digits. */
  function ParseNat(s: string): (n: nat)
    requires forall i :: 0 <= i < |s| ==> '0' <= s[i] <= '9'
    decreases |s|
  {
    if s == [] then 0 else 10 * ParseNat(s[..|s| - 1]) + DigitValue(s[|s| - 1])
  }

  /** Printing a number and reading it back is the identity. */
  lemma {:induction false} ParseNatToString(n: nat)
    ensures ParseNat(NatToString(n)) == n
    decreases n
  {
    if n >= 10 {
      var s := NatToString(n);
      assert s[..|s| - 1] == NatToString(n / 10);
      ParseNatToString(n / 10);
    }
  }

  /** Python `str(i)` / C++ `std::to_string(i)` for an integer. */
  function IntToString(i: int): (s: string)
    ensures i >= 0 ==> s == NatToString(i)
    ensures i < 0 ==> s == "-" + NatToString(-i)
  {
    if i >= 0 then NatToString(i) else "-" + NatToString(-i)
  }

  /** ASCII `lower()`; the unit names the tables compare are ASCII. */
  function Lower(s: string): (r: string)
    ensures |r| == |s|
    ensures forall i :: 0 <= i < |s| ==> r[i] == LowerChar(s[i])
  {
    if s == [] then [] else [LowerChar(s[0])] + Lower(s[1..])
  }

  function LowerChar(c: char): (r: char)
    ensures 'A' <= c <= 'Z' ==> 'a' <= r <= 'z'
    ensures !('A' <= c <= 'Z') ==> r == c
  {
    if 'A' <= c <= 'Z' then (c as int - 'A' as int + 'a' as int) as char else c
  }
}

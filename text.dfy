/**
 * The Python string builtins the source relies on (`in`, `strip`, `replace`,
 * `split`, `join`, `capitalize`, `str(int)`), written out over `seq<char>`
 * for ASCII text, with the facts about them the rest of the model uses.
 */
module Text {
  import opened Wrappers

  predicate IsPrefix(p: string, s: string)
  {
    |p| <= |s| && s[..|p|] == p
  }

  /** Python's `sub in s`. */
  predicate Contains(s: string, sub: string)
    decreases |s|
  {
    IsPrefix(sub, s) || (|s| > 0 && Contains(s[1..], sub))
  }

  /** The end of the run of copies of `c` that starts at position `i`. */
  function RunEnd(s: string, c: char, i: nat): (n: nat)
    requires i <= |s|
    ensures i <= n <= |s|
    ensures n == |s| || s[n] != c
    ensures forall j :: i <= j < n ==> s[j] == c
    decreases |s| - i
  {
    if i < |s| && s[i] == c then RunEnd(s, c, i + 1) else i
  }

  /** The start of the run of copies of `c` that ends just before position `i`. */
  function RunStart(s: string, c: char, i: nat): (n: nat)
    requires i <= |s|
    ensures n <= i
    ensures n == 0 || s[n - 1] != c
    ensures forall j :: n <= j < i ==> s[j] == c
  {
    if i > 0 && s[i - 1] == c then RunStart(s, c, i - 1) else i
  }

  /** How many leading copies of `c` `s.strip(c)` drops. */
  function LeadingRun(s: string, c: char): nat
  {
    RunEnd(s, c, 0)
  }

  /**
   * `s.strip(c)`: the result is the piece of `s` starting after its leading
   * run of `c`; it neither starts nor ends with `c`, and everything cut away
   * on either side is `c`.
   */
  function Strip(s: string, c: char): (r: string)
    ensures r == [] || (r[0] != c && r[|r| - 1] != c)
    ensures LeadingRun(s, c) + |r| <= |s|
    ensures r == s[LeadingRun(s, c)..LeadingRun(s, c) + |r|]
    ensures forall j :: 0 <= j < LeadingRun(s, c) ==> s[j] == c
    ensures forall j :: LeadingRun(s, c) + |r| <= j < |s| ==> s[j] == c
  {
    var n := RunEnd(s, c, 0);
    if n == |s| then []
    else
      var m := RunStart(s, c, |s|);
      assert n < m;
      s[n..m]
  }

  /** `s.replace(c, "")` for a one-character `c`. */
  function RemoveChar(s: string, c: char): (r: string)
    ensures c !in r
    ensures forall x :: x in r <==> x in s && x != c
    ensures |r| <= |s|
    ensures c !in s ==> r == s
    ensures multiset(r) == multiset(s)[c := 0]
  {
    if |s| == 0 then []
    else
      assert s == [s[0]] + s[1..];
      if s[0] == c then RemoveChar(s[1..], c)
      else [s[0]] + RemoveChar(s[1..], c)
  }

  /**
   * Removing a character distributes over concatenation: the characters
   * that stay keep their order, piece by piece.
   */
  lemma {:induction false} RemoveCharAppend(a: string, b: string, c: char)
    ensures RemoveChar(a + b, c) == RemoveChar(a, c) + RemoveChar(b, c)
    decreases |a|
  {
    if |a| > 0 {
      assert (a + b)[0] == a[0];
      assert (a + b)[1..] == a[1..] + b;
      RemoveCharAppend(a[1..], b, c);
    } else {
      assert a + b == b;
    }
  }

  /**
   * `s.split(c)`: the pieces between the separators, so at least one piece,
   * and no piece contains the separator.
   */
  function Split(s: string, c: char): (r: seq<string>)
    ensures |r| >= 1
    ensures forall i :: 0 <= i < |r| ==> c !in r[i]
  {
    if |s| == 0 then [""]
    else
      var rest := Split(s[1..], c);
      if s[0] == c then [""] + rest
      else [[s[0]] + rest[0]] + rest[1..]
  }

  /** Every character of a piece is a character of the string that was split. */
  lemma {:induction false} SplitPiecesFrom(s: string, c: char, i: nat, ch: char)
    requires i < |Split(s, c)| && ch in Split(s, c)[i]
    ensures ch in s
  {
    if |s| > 0 {
      var rest := Split(s[1..], c);
      if s[0] == c {
        if i > 0 {
          SplitPiecesFrom(s[1..], c, i - 1, ch);
        }
      } else if i > 0 {
        SplitPiecesFrom(s[1..], c, i, ch);
      } else if ch != s[0] {
        assert ch in rest[0];
        SplitPiecesFrom(s[1..], c, 0, ch);
      }
    }
  }

  /** `c.join(ts)`. */
  function Join(ts: seq<string>, c: char): string
    requires |ts| >= 1
  {
    if |ts| == 1 then ts[0] else ts[0] + [c] + Join(ts[1..], c)
  }

  /** Joining the pieces of a split gives back the string that was split. */
  lemma {:induction false} JoinSplit(s: string, c: char)
    ensures Join(Split(s, c), c) == s
  {
    if |s| > 0 {
      var rest := Split(s[1..], c);
      JoinSplit(s[1..], c);
      if s[0] == c {
        assert Split(s, c) == [""] + rest;
        assert Join([""] + rest, c) == "" + [c] + Join(rest, c);
      } else {
        JoinHead(s[0], rest, c);
      }
    }
  }

  lemma {:induction false} JoinHead(x: char, ts: seq<string>, c: char)
    requires |ts| >= 1
    ensures Join([[x] + ts[0]] + ts[1..], c) == [x] + Join(ts, c)
  {
    var ts' := [[x] + ts[0]] + ts[1..];
    assert ts'[1..] == ts[1..];
  }

  /** A piece without the separator splits to itself. */
  lemma {:induction false} SplitNoSeparator(t: string, c: char)
    requires c !in t
    ensures Split(t, c) == [t]
  {
    if |t| > 0 {
      assert t[0] != c;
      SplitNoSeparator(t[1..], c);
      assert [t[0]] + t[1..] == t;
    }
  }

  /** Splitting `t + [c] + u`, where `t` has no separator, peels off `t`. */
  lemma {:induction false} SplitAfterPiece(t: string, u: string, c: char)
    requires c !in t
    ensures Split(t + [c] + u, c) == [t] + Split(u, c)
  {
    if |t| == 0 {
      assert t + [c] + u == [c] + u;
      assert ([c] + u)[1..] == u;
    } else {
      var s := t + [c] + u;
      assert s[0] == t[0] && s[1..] == t[1..] + [c] + u;
      SplitAfterPiece(t[1..], u, c);
      assert [t[0]] + t[1..] == t;
    }
  }

  /** Splitting a join of separator-free pieces gives back the pieces. */
  lemma {:induction false} SplitJoin(ts: seq<string>, c: char)
    requires |ts| >= 1
    requires forall i :: 0 <= i < |ts| ==> c !in ts[i]
    ensures Split(Join(ts, c), c) == ts
  {
    if |ts| == 1 {
      SplitNoSeparator(ts[0], c);
    } else {
      SplitJoin(ts[1..], c);
      SplitAfterPiece(ts[0], Join(ts[1..], c), c);
      assert [ts[0]] + ts[1..] == ts;
    }
  }

  predicate IsDigit(ch: char)
  {
    '0' <= ch <= '9'
  }

  function DigitChar(d: nat): (ch: char)
    requires d < 10
    ensures IsDigit(ch)
  {
    ('0' as int + d) as char
  }

  function DigitValue(ch: char): (d: nat)
    requires IsDigit(ch)
    ensures d < 10
  {
    ch as int - '0' as int
  }

  /** `str(n)` for a natural number: its decimal digits, without leading zeros. */
  function NatToString(n: nat): (s: string)
    ensures |s| >= 1
    ensures forall i :: 0 <= i < |s| ==> IsDigit(s[i])
  {
    if n < 10 then [DigitChar(n)] else NatToString(n / 10) + [DigitChar(n % 10)]
  }

  /** The number a non-empty string of decimal digits denotes, or None. */
  function ParseDigits(s: string): Option<nat>
  {
    if |s| == 0 || !IsDigit(s[|s| - 1]) then None
    else if |s| == 1 then Some(DigitValue(s[0]))
    else match ParseDigits(s[..|s| - 1])
      case None => None
      case Some(v) => Some(v * 10 + DigitValue(s[|s| - 1]))
  }

  /** Reading back the digits `str(n)` writes gives `n`. */
  lemma {:induction false} ParseNatToString(n: nat)
    ensures ParseDigits(NatToString(n)) == Some(n)
  {
    if n >= 10 {
      var s := NatToString(n);
      assert s[..|s| - 1] == NatToString(n / 10);
      ParseNatToString(n / 10);
    }
  }

  /** Different numbers have different decimal forms. */
  lemma NatToStringInjective(m: nat, n: nat)
    requires NatToString(m) == NatToString(n)
    ensures m == n
  {
    ParseNatToString(m);
    ParseNatToString(n);
  }

  function Upper(ch: char): char
  {
    if 'a' <= ch <= 'z' then (ch as int - 32) as char else ch
  }

  function Lower(ch: char): char
  {
    if 'A' <= ch <= 'Z' then (ch as int + 32) as char else ch
  }

  function LowerAll(s: string): (r: string)
    ensures |r| == |s|
    ensures forall i :: 0 <= i < |s| ==> r[i] == Lower(s[i])
  {
    if |s| == 0 then [] else [Lower(s[0])] + LowerAll(s[1..])
  }

  /** `s.capitalize()`: the first character upper-cased, the rest lower-cased. */
  function Capitalize(s: string): (r: string)
    ensures |r| == |s|
    ensures |s| > 0 ==> r[0] == Upper(s[0])
    ensures forall i :: 1 <= i < |s| ==> r[i] == Lower(s[i])
  {
    if |s| == 0 then [] else [Upper(s[0])] + LowerAll(s[1..])
  }

  /** Capitalizing twice changes nothing more. */
  lemma CapitalizeIdempotent(s: string)
    ensures Capitalize(Capitalize(s)) == Capitalize(s)
  {
    var r := Capitalize(s);
    var rr := Capitalize(r);
    assert |rr| == |r|;
    forall i | 0 <= i < |r|
      ensures rr[i] == r[i]
    {
      if i == 0 {
        assert r[0] == Upper(s[0]);
      } else {
        assert r[i] == Lower(s[i]);
      }
    }
  }
}

/** The Python string operations the catalogue scrapers use, over `seq<char>`.
    Only ASCII letters are case-folded. */
module Text {

  /** `s.startswith(p)` / `s.startsWith(p)`. */
  predicate StartsWith(s: string, p: string) {
    |p| <= |s| && s[..|p|] == p
  }

  /** `p` occurs in `s` at index `i`. */
  predicate OccursAt(s: string, p: string, i: int) {
    0 <= i && i + |p| <= |s| && s[i..i + |p|] == p
  }

  /** Python's `p in s`. */
  predicate Contains(s: string, p: string) {
    exists i | 0 <= i <= |s| - |p| :: OccursAt(s, p, i)
  }

  /** `any(w in s for w in words)`. */
  predicate AnyIn(s: string, words: seq<string>) {
    exists i | 0 <= i < |words| :: Contains(s, words[i])
  }

  lemma {:induction false} AnyInOne(s: string, a: string)
    ensures AnyIn(s, [a]) <==> Contains(s, a)
  {
    if Contains(s, a) {
      assert [a][0] == a;
    }
  }

  lemma {:induction false} AnyInTwo(s: string, a: string, b: string)
    ensures AnyIn(s, [a, b]) <==> Contains(s, a) || Contains(s, b)
  {
    var w := [a, b];
    if Contains(s, a) {
      assert w[0] == a;
    } else if Contains(s, b) {
      assert w[1] == b;
    }
  }

  lemma {:induction false} AnyInThree(s: string, a: string, b: string, c: string)
    ensures AnyIn(s, [a, b, c]) <==> Contains(s, a) || Contains(s, b) || Contains(s, c)
  {
    var w := [a, b, c];
    if Contains(s, a) {
      assert w[0] == a;
    } else if Contains(s, b) {
      assert w[1] == b;
    } else if Contains(s, c) {
      assert w[2] == c;
    }
  }

  lemma {:induction false} PrefixContained(s: string, p: string)
    requires StartsWith(s, p)
    ensures Contains(s, p)
  {
    assert OccursAt(s, p, 0);
  }

  lemma {:induction false} ContainsInSuffix(s: string, p: string, k: nat)
    requires k <= |s| && Contains(s[k..], p)
    ensures Contains(s, p)
  {
    var i :| 0 <= i <= |s[k..]| - |p| && OccursAt(s[k..], p, i);
    assert s[k + i..k + i + |p|] == s[k..][i..i + |p|];
    assert OccursAt(s, p, k + i);
  }

  lemma {:induction false} ContainsInPrefix(s: string, p: string, k: nat)
    requires k <= |s| && Contains(s[..k], p)
    ensures Contains(s, p)
  {
    var i :| 0 <= i <= |s[..k]| - |p| && OccursAt(s[..k], p, i);
    assert s[i..i + |p|] == s[..k][i..i + |p|];
    assert OccursAt(s, p, i);
  }

  /** ASCII lower-casing of one character. */
  function LowerChar(c: char): char {
    if 'A' <= c <= 'Z' then (c as int + 32) as char else c
  }

  /** `s.lower()`, restricted to ASCII letters. */
  function Lower(s: string): (r: string)
    ensures |r| == |s|
    ensures forall i :: 0 <= i < |s| ==> r[i] == LowerChar(s[i])
  {
    seq(|s|, i requires 0 <= i < |s| => LowerChar(s[i]))
  }

  /** The white-space characters `str.strip()` removes (`str.isspace`). */
  predicate IsSpace(c: char) {
    ('\t' <= c <= '\r') || ('\U{1C}' <= c <= ' ') || c == '\U{85}' || c == '\U{A0}'
    || c == '\U{1680}' || ('\U{2000}' <= c <= '\U{200A}') || c == '\U{2028}' || c == '\U{2029}'
    || c == '\U{202F}' || c == '\U{205F}' || c == '\U{3000}'
  }

  function TrimStart(s: string): (r: string)
    ensures |r| <= |s| && r == s[|s| - |r|..]
    ensures r == [] || !IsSpace(r[0])
    ensures forall i :: 0 <= i < |s| - |r| ==> IsSpace(s[i])
  {
    if s != [] && IsSpace(s[0]) then TrimStart(s[1..]) else s
  }

  function TrimEnd(s: string): (r: string)
    ensures |r| <= |s| && r == s[..|r|]
    ensures r == [] || !IsSpace(r[|r| - 1])
    ensures forall i :: |r| <= i < |s| ==> IsSpace(s[i])
  {
    if s != [] && IsSpace(s[|s| - 1]) then TrimEnd(s[..|s| - 1]) else s
  }

  /** `s.strip()`: the slice of `s` left once the white space at both ends
      is dropped; only white space is dropped, and none is left at either end. */
  function Strip(s: string): (r: string)
    ensures |r| <= |s|
    ensures r == [] || (!IsSpace(r[0]) && !IsSpace(r[|r| - 1]))
    ensures exists a :: 0 <= a <= |s| - |r| && s[a..][..|r|] == r
                        && (forall i :: 0 <= i < a ==> IsSpace(s[i]))
                        && (forall i :: a + |r| <= i < |s| ==> IsSpace(s[i]))
  {
    TrimmedSlice(s);
    TrimmedLead(s);
    TrimStart(TrimEnd(s))
  }

  /** Trimming both ends keeps a contiguous slice of `s`. */
  lemma {:induction false} TrimmedSlice(s: string)
    ensures var t := TrimEnd(s);
            var r := TrimStart(t);
            s[|t| - |r|..][..|r|] == r
  {
    SuffixOfPrefix(s, TrimEnd(s), TrimStart(TrimEnd(s)));
  }

  /** A suffix of a prefix of `s` is a slice of `s`. */
  lemma {:induction false} SuffixOfPrefix(s: string, t: string, r: string)
    requires |t| <= |s| && t == s[..|t|]
    requires |r| <= |t| && r == t[|t| - |r|..]
    ensures s[|t| - |r|..][..|r|] == r
  {
    assert s[|t| - |r|..][..|r|] == s[..|t|][|t| - |r|..];
  }

  /** Trimming both ends drops only white space in front of the slice kept. */
  lemma {:induction false} TrimmedLead(s: string)
    ensures var t := TrimEnd(s);
            forall i :: 0 <= i < |t| - |TrimStart(t)| ==> IsSpace(s[i])
  {
    var t := TrimEnd(s);
    forall i | 0 <= i < |t| - |TrimStart(t)|
      ensures IsSpace(s[i])
    {
      assert s[i] == t[i];
    }
  }

  /** Lower-casing leaves a string without ASCII capitals unchanged. */
  lemma {:induction false} LowerUnchanged(s: string)
    requires forall i :: 0 <= i < |s| ==> !('A' <= s[i] <= 'Z')
    ensures Lower(s) == s
  {
  }

  /** `s.replace(p, '')`: every occurrence found by a left-to-right scan is removed. */
  function RemoveAll(s: string, p: string): (r: string)
    requires p != []
    ensures |r| <= |s|
    decreases |s|
  {
    if s == [] then []
    else if StartsWith(s, p) then RemoveAll(s[|p|..], p)
    else [s[0]] + RemoveAll(s[1..], p)
  }

  /** `p` at index `|a| + i` of `a + b` is `p` at index `i` of `b`. */
  lemma {:induction false} OccursAtShift(a: string, b: string, p: string, i: int)
    requires 0 <= i
    ensures OccursAt(a + b, p, |a| + i) <==> OccursAt(b, p, i)
  {
    if 0 <= i && i + |p| <= |b| {
      assert (a + b)[|a| + i..|a| + i + |p|] == b[i..i + |p|];
    }
  }

  /** A string without `p` loses nothing to `replace(p, '')`. */
  lemma {:induction false} RemoveAllAbsent(s: string, p: string)
    requires p != [] && !Contains(s, p)
    ensures RemoveAll(s, p) == s
    decreases |s|
  {
    if s != [] {
      if |p| <= |s| { assert s[0..|p|] == s[..|p|]; }
      assert !OccursAt(s, p, 0);
      assert !Contains(s[1..], p) by {
        forall i | 0 <= i <= |s[1..]| - |p| ensures !OccursAt(s[1..], p, i) {
          OccursAtShift([s[0]], s[1..], p, i);
          assert [s[0]] + s[1..] == s;
        }
      }
      RemoveAllAbsent(s[1..], p);
      assert [s[0]] + s[1..] == s;
    }
  }

  /** Removing a one-character pattern drops exactly the copies of that
      character and keeps every other character. */
  lemma {:induction false} RemoveAllCharCounts(s: string, c: char)
    ensures multiset(RemoveAll(s, [c])) == multiset(s)[c := 0]
    decreases |s|
  {
    if s != [] {
      RemoveAllCharCounts(s[1..], c);
      assert s == [s[0]] + s[1..];
      assert multiset(s) == multiset{s[0]} + multiset(s[1..]);
      if StartsWith(s, [c]) {
        assert s[0] == c;
      } else {
        assert s[0] != c;
        assert RemoveAll(s, [c]) == [s[0]] + RemoveAll(s[1..], [c]);
      }
    }
  }

  /** Removing a one-character pattern leaves no occurrence of that character. */
  lemma {:induction false} RemoveAllChar(s: string, c: char)
    ensures forall i :: 0 <= i < |RemoveAll(s, [c])| ==> RemoveAll(s, [c])[i] != c
    decreases |s|
  {
    if s != [] {
      RemoveAllChar(s[1..], c);
      if !StartsWith(s, [c]) {
        assert s[0] != c;
      }
    }
  }

  /** `s[:n]`: the first `n` characters, or all of `s` when it is shorter. */
  function Take(s: string, n: nat): (r: string)
    ensures |r| == if |s| <= n then |s| else n
    ensures StartsWith(s, r)
  {
    if |s| <= n then s else s[..n]
  }

  /** The piece after the last separator of a left-to-right split, with `acc`
      the part of the current piece already scanned: `(acc + s).split(sep)[-1]`
      when `acc` holds no separator. */
  function LastPiece(s: string, sep: string, acc: string): string
    requires sep != []
    decreases |s|
  {
    if s == [] then acc
    else if StartsWith(s, sep) then LastPiece(s[|sep|..], sep, [])
    else LastPiece(s[1..], sep, acc + [s[0]])
  }

  /** `s.split(sep)[-1]`. */
  function AfterLast(s: string, sep: string): string
    requires sep != []
  {
    LastPiece(s, sep, [])
  }

  lemma {:induction false} LastPieceIsSuffix(s: string, sep: string, acc: string)
    requires sep != []
    ensures var r := LastPiece(s, sep, acc);
            |r| <= |acc + s| && r == (acc + s)[|acc + s| - |r|..]
    decreases |s|
  {
    if s == [] {
      assert acc + s == acc;
    } else if StartsWith(s, sep) {
      LastPieceIsSuffix(s[|sep|..], sep, []);
      assert [] + s[|sep|..] == (acc + s)[|acc| + |sep|..];
    } else {
      LastPieceIsSuffix(s[1..], sep, acc + [s[0]]);
      assert (acc + [s[0]]) + s[1..] == acc + s;
    }
  }

  /** The piece after the last `sep` is a suffix of the input. */
  lemma AfterLastIsSuffix(s: string, sep: string)
    requires sep != []
    ensures |AfterLast(s, sep)| <= |s|
    ensures AfterLast(s, sep) == s[|s| - |AfterLast(s, sep)|..]
  {
    LastPieceIsSuffix(s, sep, []);
    assert [] + s == s;
  }

  /** Without a separator in `s`, the last piece is the whole remaining text. */
  lemma {:induction false} LastPieceNoSeparator(s: string, sep: string, acc: string)
    requires sep != [] && !Contains(s, sep)
    ensures LastPiece(s, sep, acc) == acc + s
    decreases |s|
  {
    if s != [] {
      if |sep| <= |s| { assert s[0..|sep|] == s[..|sep|]; }
      assert !OccursAt(s, sep, 0);
      assert !Contains(s[1..], sep) by {
        forall i | 0 <= i <= |s[1..]| - |sep| ensures !OccursAt(s[1..], sep, i) {
          OccursAtShift([s[0]], s[1..], sep, i);
          assert [s[0]] + s[1..] == s;
        }
      }
      LastPieceNoSeparator(s[1..], sep, acc + [s[0]]);
      assert (acc + [s[0]]) + s[1..] == acc + s;
    }
  }

  /** The last piece holds no separator, provided no separator starts in the
      part already scanned. */
  lemma {:induction false} LastPieceHasNoSeparator(s: string, sep: string, acc: string)
    requires sep != []
    requires forall i :: 0 <= i < |acc| ==> !OccursAt(acc + s, sep, i)
    ensures !Contains(LastPiece(s, sep, acc), sep)
    decreases |s|
  {
    if s == [] {
      assert acc + s == acc;
    } else if StartsWith(s, sep) {
      LastPieceHasNoSeparator(s[|sep|..], sep, []);
    } else {
      var acc' := acc + [s[0]];
      assert acc' + s[1..] == acc + s;
      OccursAtShift(acc, s, sep, 0);
      if |sep| <= |s| { assert s[0..|sep|] == s[..|sep|]; }
      LastPieceHasNoSeparator(s[1..], sep, acc');
    }
  }

  /** When `s` holds a separator, the last piece is preceded by one. */
  lemma {:induction false} LastPiecePreceded(s: string, sep: string, acc: string)
    requires sep != [] && Contains(s, sep)
    ensures |LastPiece(s, sep, acc)| + |sep| <= |s|
    ensures OccursAt(s, sep, |s| - |LastPiece(s, sep, acc)| - |sep|)
    decreases |s|, 1
  {
    if StartsWith(s, sep) && Contains(s[|sep|..], sep) {
      PrecededAtStart(s, sep, acc);
    } else if StartsWith(s, sep) {
      FinalSeparator(s, sep, acc);
    } else {
      PrecededLater(s, sep, acc);
    }
  }

  /** `LastPiecePreceded` when `s` starts with a separator and holds another
      one after it. */
  lemma {:induction false} PrecededAtStart(s: string, sep: string, acc: string)
    requires sep != [] && StartsWith(s, sep) && Contains(s[|sep|..], sep)
    ensures |LastPiece(s, sep, acc)| + |sep| <= |s|
    ensures OccursAt(s, sep, |s| - |LastPiece(s, sep, acc)| - |sep|)
    decreases |s|, 0
  {
    var rest := s[|sep|..];
    var r := LastPiece(rest, sep, []);
    assert LastPiece(s, sep, acc) == r;
    LastPiecePreceded(rest, sep, []);
    OccursAfterPrefix(s, |sep|, sep, |rest| - |r| - |sep|);
    assert |sep| + (|rest| - |r| - |sep|) == |s| - |r| - |sep|;
  }

  /** `LastPiecePreceded` when the first separator in `s` starts later. */
  lemma {:induction false} PrecededLater(s: string, sep: string, acc: string)
    requires sep != [] && Contains(s, sep) && !StartsWith(s, sep)
    ensures |LastPiece(s, sep, acc)| + |sep| <= |s|
    ensures OccursAt(s, sep, |s| - |LastPiece(s, sep, acc)| - |sep|)
    decreases |s|, 0
  {
    LaterSeparator(s, sep);
    var r := LastPiece(s[1..], sep, acc + [s[0]]);
    assert LastPiece(s, sep, acc) == r;
    LastPiecePreceded(s[1..], sep, acc + [s[0]]);
    OccursAfterPrefix(s, 1, sep, |s[1..]| - |r| - |sep|);
    assert 1 + (|s[1..]| - |r| - |sep|) == |s| - |r| - |sep|;
  }

  /** When `s` starts with the last separator, the last piece is the rest. */
  lemma {:induction false} FinalSeparator(s: string, sep: string, acc: string)
    requires sep != [] && StartsWith(s, sep) && !Contains(s[|sep|..], sep)
    ensures |LastPiece(s, sep, acc)| + |sep| == |s|
    ensures OccursAt(s, sep, 0)
  {
    LastPieceNoSeparator(s[|sep|..], sep, []);
    assert [] + s[|sep|..] == s[|sep|..];
    assert s[0..|sep|] == s[..|sep|];
  }

  /** An occurrence at `i` in `s[k..]` is one at `k + i` in `s`. */
  lemma {:induction false} OccursAfterPrefix(s: string, k: int, p: string, i: int)
    requires 0 <= k <= |s| && 0 <= i
    ensures OccursAt(s[k..], p, i) <==> OccursAt(s, p, k + i)
  {
    assert s == s[..k] + s[k..];
    OccursAtShift(s[..k], s[k..], p, i);
  }

  /** A separator in `s` that does not start it starts in `s[1..]`. */
  lemma {:induction false} LaterSeparator(s: string, sep: string)
    requires sep != [] && Contains(s, sep) && !StartsWith(s, sep)
    ensures s != [] && Contains(s[1..], sep)
  {
    var i :| 0 <= i <= |s| - |sep| && OccursAt(s, sep, i);
    assert s[0..|sep|] == s[..|sep|];
    assert i != 0;
    assert s == [s[0]] + s[1..];
    OccursAtShift([s[0]], s[1..], sep, i - 1);
    assert OccursAt(s[1..], sep, i - 1);
  }

  /** `s.split(sep)[-1]` holds no `sep`, and when `s` holds one, the piece is
      preceded by it. */
  lemma AfterLastSeparated(s: string, sep: string)
    requires sep != []
    ensures !Contains(AfterLast(s, sep), sep)
    ensures !Contains(s, sep) ==> AfterLast(s, sep) == s
    ensures Contains(s, sep) ==>
              |AfterLast(s, sep)| + |sep| <= |s|
              && OccursAt(s, sep, |s| - |AfterLast(s, sep)| - |sep|)
  {
    LastPieceHasNoSeparator(s, sep, []);
    if Contains(s, sep) {
      LastPiecePreceded(s, sep, []);
    } else {
      LastPieceNoSeparator(s, sep, []);
      assert [] + s == s;
    }
  }
}

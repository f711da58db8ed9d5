/**
 * Shared vocabulary for the cog models: an Option type, the Python list and
 * string operations the cogs rely on (list.remove, negative indexing,
 * lower/upper/strip/split on ASCII text, str(int)), and a stable insertion
 * sort that stands for Python's `sorted`.
 */
module Common {

  datatype Option<T> = None | Some(value: T)

  // ---------------------------------------------------------------- lists

  predicate NoDup<T(==)>(s: seq<T>) {
    forall i, j :: 0 <= i < j < |s| ==> s[i] != s[j]
  }

  /** Python's `list.count(x)`. */
  function Count<T(==)>(s: seq<T>, x: T): (n: nat)
    ensures n <= |s|
    ensures n == 0 <==> x !in s
  {
    if |s| == 0 then 0 else (if s[0] == x then 1 else 0) + Count(s[1..], x)
  }

  /** Python's `list.index(x)`: the position of the first element equal to `x`. */
  function FirstIndex<T(==)>(s: seq<T>, x: T): (i: nat)
    requires x in s
    ensures i < |s| && s[i] == x && x !in s[..i]
  {
    if s[0] == x then 0
    else
      var i := 1 + FirstIndex(s[1..], x);
      assert s[..i] == [s[0]] + s[1..][..i - 1];
      i
  }

  /** Python's `list.remove(x)`: drops the first element equal to `x`. */
  function RemoveFirst<T(==)>(s: seq<T>, x: T): (r: seq<T>)
    ensures x in s ==> |r| == |s| - 1
    ensures x !in s ==> r == s
    ensures multiset(r) == multiset(s) - multiset{x}
  {
    if |s| == 0 then s
    else
      assert s == [s[0]] + s[1..];
      if s[0] == x then s[1..]
      else [s[0]] + RemoveFirst(s[1..], x)
  }

  /** What `list.remove(x)` leaves: everything but the first `x`, in the original order. */
  lemma {:induction false} RemoveFirstAt<T>(s: seq<T>, x: T)
    requires x in s
    ensures var i := FirstIndex(s, x); RemoveFirst(s, x) == s[..i] + s[i + 1..]
  {
    if s[0] == x {
      assert s[..0] + s[1..] == s[1..];
    } else {
      var t := s[1..];
      assert x in t;
      RemoveFirstAt(t, x);
      var j := FirstIndex(t, x);
      assert FirstIndex(s, x) == j + 1;
      assert RemoveFirst(s, x) == [s[0]] + (t[..j] + t[j + 1..]);
      ConsSlices(s, j);
    }
  }

  lemma ConsSlices<T>(s: seq<T>, j: nat)
    requires j + 1 < |s|
    ensures s[..j + 1] + s[j + 2..] == [s[0]] + (s[1..][..j] + s[1..][j + 1..])
  {
    assert s[..j + 1] == [s[0]] + s[1..][..j];
    assert s[j + 2..] == s[1..][j + 1..];
  }

  /** Every element other than `x`, in order. */
  function RemoveAll<T(==)>(s: seq<T>, x: T): (r: seq<T>)
    ensures |r| <= |s|
    ensures x !in r
    ensures forall i :: 0 <= i < |r| ==> r[i] in s
    ensures forall i :: 0 <= i < |s| && s[i] != x ==> s[i] in r
  {
    if |s| == 0 then s
    else if s[0] == x then RemoveAll(s[1..], x)
    else [s[0]] + RemoveAll(s[1..], x)
  }

  lemma {:induction false} RemoveFirstNoDup<T>(s: seq<T>, x: T)
    requires NoDup(s)
    ensures NoDup(RemoveFirst(s, x)) && x !in RemoveFirst(s, x)
  {
    if |s| > 0 {
      var t := s[1..];
      assert NoDup(t) by {
        forall i, j | 0 <= i < j < |t| ensures t[i] != t[j] {
          assert t[i] == s[i + 1] && t[j] == s[j + 1];
        }
      }
      assert s[0] !in t by {
        forall k | 0 <= k < |t| ensures t[k] != s[0] {
          assert t[k] == s[k + 1];
        }
      }
      if s[0] != x {
        RemoveFirstNoDup(t, x);
        var r := RemoveFirst(t, x);
        assert multiset(r) == multiset(t) - multiset{x};
        assert s[0] !in multiset(t);
        assert s[0] !in multiset(r);
      }
    }
  }

  /** A non-empty set has a member (stated for the solver, which does not always find one for `int`). */
  lemma SetMember<T>(s: set<T>) returns (x: T)
    requires s != {}
    ensures x in s
  {
    if forall y :: y !in s {
      assert false;
    }
    x :| x in s;
  }

  /** A subset is no larger than its superset. */
  lemma {:induction false} SubsetCard<T>(a: set<T>, b: set<T>)
    requires a <= b
    ensures |a| <= |b|
  {
    if a != {} {
      var x := SetMember(a);
      SubsetCard(a - {x}, b - {x});
    }
  }

  /** Removing one `x` keeps every other element and adds none. */
  lemma RemoveFirstMembers<T>(s: seq<T>, x: T, y: T)
    ensures y in RemoveFirst(s, x) ==> y in s
    ensures y != x ==> (y in RemoveFirst(s, x) <==> y in s)
  {
    var r := RemoveFirst(s, x);
    assert multiset(r) == multiset(s) - multiset{x};
    assert y in r <==> y in multiset(r);
    assert y in s <==> y in multiset(s);
  }

  lemma AppendNoDup<T>(s: seq<T>, x: T)
    requires NoDup(s) && x !in s
    ensures NoDup(s + [x])
  {
  }

  /**
   * Python indexing `s[i]` for a list of length `n`: non-negative indices
   * count from the front, negative ones from the back, anything else raises
   * IndexError (here: None).
   */
  function PyIndex(n: nat, i: int): (r: Option<nat>)
    ensures r.Some? <==> -(n as int) <= i < n
    ensures r.Some? ==> r.value < n && (r.value == i || r.value == n + i)
  {
    if 0 <= i < n then Some(i)
    else if -(n as int) <= i < 0 then Some(n + i)
    else None
  }

  /** Python slicing `s[:k]`, where a negative `k` counts from the back. */
  function PySliceTo<T>(s: seq<T>, k: int): (r: seq<T>)
    ensures |r| == if k >= 0 then (if k < |s| then k else |s|)
                   else (if |s| + k > 0 then |s| + k else 0)
    ensures r <= s
  {
    if k >= 0 then (if k < |s| then s[..k] else s)
    else (if |s| + k > 0 then s[..|s| + k] else [])
  }

  function Reverse<T>(s: seq<T>): (r: seq<T>)
    ensures |r| == |s|
    ensures forall i :: 0 <= i < |s| ==> r[i] == s[|s| - 1 - i]
  {
    if |s| == 0 then [] else Reverse(s[1..]) + [s[0]]
  }

  function Join(sep: string, parts: seq<string>): string {
    if |parts| == 0 then ""
    else if |parts| == 1 then parts[0]
    else parts[0] + sep + Join(sep, parts[1..])
  }

  function Repeat(s: string, n: nat): (r: string)
    ensures |r| == n * |s|
  {
    if n == 0 then "" else Repeat(s, n - 1) + s
  }

  // --------------------------------------------------------------- strings

  function LowerChar(c: char): char {
    if 'A' <= c <= 'Z' then (c as int + 32) as char else c
  }

  function UpperChar(c: char): char {
    if 'a' <= c <= 'z' then (c as int - 32) as char else c
  }

  /** `str.lower()` on the ASCII range. */
  function Lower(s: string): (r: string)
    ensures |r| == |s| && forall i :: 0 <= i < |s| ==> r[i] == LowerChar(s[i])
  {
    seq(|s|, i requires 0 <= i < |s| => LowerChar(s[i]))
  }

  /** `str.upper()` on the ASCII range. */
  function Upper(s: string): (r: string)
    ensures |r| == |s| && forall i :: 0 <= i < |s| ==> r[i] == UpperChar(s[i])
  {
    seq(|s|, i requires 0 <= i < |s| => UpperChar(s[i]))
  }

  lemma LowerIdempotent(s: string)
    ensures Lower(Lower(s)) == Lower(s)
  {
  }

  /** `str.isspace()` on the ASCII range. */
  predicate IsSpace(c: char) {
    c == ' ' || 9 <= c as int <= 13 || 28 <= c as int <= 31
  }

  predicate IsDigit(c: char) { '0' <= c <= '9' }

  predicate IsAsciiLetter(c: char) { 'a' <= c <= 'z' || 'A' <= c <= 'Z' }

  predicate IsLowerAlnum(c: char) { 'a' <= c <= 'z' || '0' <= c <= '9' }

  function DigitValue(c: char): nat requires IsDigit(c) { c as int - '0' as int }

  /** `str.rstrip(chars)`: drops trailing characters that are in `cs`. */
  function RStripChars(s: string, cs: set<char>): (r: string)
    ensures r <= s
    ensures |r| > 0 ==> r[|r| - 1] !in cs
    ensures forall i :: |r| <= i < |s| ==> s[i] in cs
  {
    if |s| == 0 || s[|s| - 1] !in cs then s else RStripChars(s[..|s| - 1], cs)
  }

  function LStrip(s: string): (r: string)
    ensures |r| <= |s| && r == s[|s| - |r|..]
    ensures |r| > 0 ==> !IsSpace(r[0])
    ensures forall i :: 0 <= i < |s| - |r| ==> IsSpace(s[i])
  {
    if |s| == 0 || !IsSpace(s[0]) then s else LStrip(s[1..])
  }

  function RStrip(s: string): (r: string)
    ensures r <= s
    ensures |r| > 0 ==> !IsSpace(r[|r| - 1])
    ensures forall i :: |r| <= i < |s| ==> IsSpace(s[i])
  {
    if |s| == 0 || !IsSpace(s[|s| - 1]) then s else RStrip(s[..|s| - 1])
  }

  /** `str.strip()`. */
  function Strip(s: string): string { LStrip(RStrip(s)) }

  predicate StartsWith(s: string, p: string) { |p| <= |s| && s[..|p|] == p }

  predicate EndsWith(s: string, p: string) { |p| <= |s| && s[|s| - |p|..] == p }

  /** Python's `sub in s` for strings. */
  predicate Contains(s: string, sub: string) {
    StartsWith(s, sub) || (|s| > 0 && Contains(s[1..], sub))
  }

  /** Python's `str.split()` without arguments: maximal runs of non-space. */
  function SplitWords(s: string): (r: seq<string>)
    ensures forall w :: w in r ==> |w| > 0 && forall c :: c in w ==> !IsSpace(c)
    decreases |s|
  {
    var t := LStrip(s);
    if |t| == 0 then []
    else
      var n := WordLength(t);
      [t[..n]] + SplitWords(t[n..])
  }

  /** Leading whitespace does not change the words. */
  lemma {:induction false} SplitWordsSpaceHead(s: string)
    requires |s| > 0 && IsSpace(s[0])
    ensures SplitWords(s) == SplitWords(s[1..])
  {
    assert LStrip(s) == LStrip(s[1..]);
  }

  lemma {:induction false} SplitWordsWordHead(s: string)
    requires |s| > 0 && !IsSpace(s[0])
    ensures SplitWords(s) == [s[..WordLength(s)]] + SplitWords(s[WordLength(s)..])
  {
    assert LStrip(s) == s;
  }

  /** A string with no whitespace in it is one word, or no word when it is empty. */
  lemma {:induction false} SplitWordsNoSpace(w: string)
    requires forall i :: 0 <= i < |w| ==> !IsSpace(w[i])
    ensures SplitWords(w) == if |w| == 0 then [] else [w]
  {
    if |w| > 0 {
      WordLengthNoSpace(w);
      SplitWordsWordHead(w);
      assert w[..|w|] == w;
      assert SplitWords(w[|w|..]) == [];
    }
  }

  lemma {:induction false} WordLengthNoSpace(w: string)
    requires |w| > 0 && forall i :: 0 <= i < |w| ==> !IsSpace(w[i])
    ensures WordLength(w) == |w|
  {
    if |w| > 1 {
      WordLengthNoSpace(w[1..]);
    }
  }

  /** The word of `a` is the word of `a + u` when `u` starts with whitespace. */
  lemma {:induction false} WordLengthPrefix(a: string, u: string)
    requires |a| > 0 && !IsSpace(a[0]) && |u| > 0 && IsSpace(u[0])
    ensures WordLength(a + u) == WordLength(a)
  {
    if |a| > 1 && !IsSpace(a[1]) {
      assert (a + u)[1..] == a[1..] + u;
      WordLengthPrefix(a[1..], u);
    }
  }

  /**
   * Splitting at any whitespace character splits the words there: together
   * with SplitWordsNoSpace this pins the words down as the maximal runs of
   * non-space, in the order they occur.
   */
  lemma {:induction false} SplitWordsAtSpace(a: string, c: char, b: string)
    requires IsSpace(c)
    ensures SplitWords(a + [c] + b) == SplitWords(a) + SplitWords(b)
    decreases |a|
  {
    var t := a + [c] + b;
    if |a| == 0 {
      assert t == [c] + b;
      SplitWordsSpaceHead(t);
      assert t[1..] == b;
    } else if IsSpace(a[0]) {
      SplitWordsAtSpace(a[1..], c, b);
      SplitWordsAtLeadingSpace(a, c, b);
    } else {
      var n := WordLength(a);
      SplitWordsAtSpace(a[n..], c, b);
      SplitWordsAtWord(a, c, b);
    }
  }

  lemma ConcatAssoc<T>(x: seq<T>, y: seq<T>, z: seq<T>)
    ensures x + y + z == x + (y + z)
  {
  }

  lemma ConcatSlices<T>(a: seq<T>, u: seq<T>, n: nat)
    requires n <= |a|
    ensures (a + u)[..n] == a[..n] && (a + u)[n..] == a[n..] + u
  {
  }

  lemma {:induction false} SplitWordsAtLeadingSpace(a: string, c: char, b: string)
    requires |a| > 0 && IsSpace(a[0]) && IsSpace(c)
    requires SplitWords(a[1..] + [c] + b) == SplitWords(a[1..]) + SplitWords(b)
    ensures SplitWords(a + [c] + b) == SplitWords(a) + SplitWords(b)
  {
    var t := a + [c] + b;
    TailConcat(a, [c] + b);
    ConcatAssoc(a, [c], b);
    ConcatAssoc(a[1..], [c], b);
    calc {
      SplitWords(t);
      { SplitWordsSpaceHead(t); }
      SplitWords(t[1..]);
      SplitWords(a[1..] + [c] + b);
      SplitWords(a[1..]) + SplitWords(b);
      { SplitWordsSpaceHead(a); }
      SplitWords(a) + SplitWords(b);
    }
  }

  lemma TailConcat<T>(a: seq<T>, u: seq<T>)
    requires |a| > 0
    ensures (a + u)[1..] == a[1..] + u
  {
  }

  lemma {:induction false} SplitWordsAtWord(a: string, c: char, b: string)
    requires |a| > 0 && !IsSpace(a[0]) && IsSpace(c)
    requires var n := WordLength(a); SplitWords(a[n..] + [c] + b) == SplitWords(a[n..]) + SplitWords(b)
    ensures SplitWords(a + [c] + b) == SplitWords(a) + SplitWords(b)
  {
    var u := [c] + b;
    var t := a + u;
    ConcatAssoc(a, [c], b);
    WordLengthPrefix(a, u);
    var n := WordLength(a);
    ConcatSlices(a, u, n);
    ConcatAssoc(a[n..], [c], b);
    calc {
      SplitWords(t);
      { SplitWordsWordHead(t); }
      [t[..n]] + SplitWords(t[n..]);
      [a[..n]] + (SplitWords(a[n..]) + SplitWords(b));
      { ConcatAssoc([a[..n]], SplitWords(a[n..]), SplitWords(b)); }
      [a[..n]] + SplitWords(a[n..]) + SplitWords(b);
      { SplitWordsWordHead(a); }
      SplitWords(a) + SplitWords(b);
    }
  }

  function WordLength(t: string): (n: nat)
    requires |t| > 0 && !IsSpace(t[0])
    ensures 0 < n <= |t| && forall i :: 0 <= i < n ==> !IsSpace(t[i])
    ensures n < |t| ==> IsSpace(t[n])
  {
    if |t| == 1 || IsSpace(t[1]) then 1 else 1 + WordLength(t[1..])
  }

  function DigitString(n: nat): (r: string)
    ensures |r| > 0 && forall c :: c in r ==> IsDigit(c)
  {
    if n < 10 then ['0' + n as char] else DigitString(n / 10) + ['0' + (n % 10) as char]
  }

  /** `str(n)` for a Python int. */
  function IntToString(n: int): string {
    if n < 0 then "-" + DigitString(-n) else DigitString(n)
  }

  /** `int(s)` for a string of ASCII digits. */
  function DigitsValue(s: string): nat
    requires forall c :: c in s ==> IsDigit(c)
  {
    if |s| == 0 then 0 else DigitsValue(s[..|s| - 1]) * 10 + DigitValue(s[|s| - 1])
  }

  lemma {:induction false} DigitStringRoundTrip(n: nat)
    ensures DigitsValue(DigitString(n)) == n
  {
    if n >= 10 {
      DigitStringRoundTrip(n / 10);
      var s := DigitString(n / 10) + ['0' + (n % 10) as char];
      assert s[..|s| - 1] == DigitString(n / 10);
    }
  }

  // --------------------------------------------------------------- sorting

  ghost predicate TotalPreorder<T(!new)>(le: (T, T) -> bool) {
    (forall a, b :: le(a, b) || le(b, a)) &&
    (forall a, b, c :: le(a, b) && le(b, c) ==> le(a, c))
  }

  predicate SortedBy<T>(s: seq<T>, le: (T, T) -> bool) {
    forall i, j :: 0 <= i < j < |s| ==> le(s[i], s[j])
  }

  function InsertBy<T>(x: T, s: seq<T>, le: (T, T) -> bool): (r: seq<T>)
    ensures multiset(r) == multiset(s) + multiset{x}
  {
    if |s| == 0 then [x]
    else if le(x, s[0]) then [x] + s
    else
      assert s == [s[0]] + s[1..];
      [s[0]] + InsertBy(x, s[1..], le)
  }

  /**
   * Python's `sorted(s, key=...)`: a stable insertion sort under `le`.
   * Each element goes in front of the first later element it is `le` to.
   */
  function SortBy<T>(s: seq<T>, le: (T, T) -> bool): (r: seq<T>)
    ensures multiset(r) == multiset(s)
  {
    if |s| == 0 then []
    else
      assert s == [s[0]] + s[1..];
      InsertBy(s[0], SortBy(s[1..], le), le)
  }

  lemma SortedTail<T>(s: seq<T>, le: (T, T) -> bool)
    requires |s| > 0 && SortedBy(s, le)
    ensures SortedBy(s[1..], le)
  {
    var t := s[1..];
    forall i, j | 0 <= i < j < |t| ensures le(t[i], t[j]) {
      assert t[i] == s[i + 1] && t[j] == s[j + 1];
    }
  }

  /** A head that is `le` to every element of a sorted sequence keeps it sorted. */
  lemma SortedCons<T>(h: T, r: seq<T>, le: (T, T) -> bool)
    requires SortedBy(r, le) && forall y :: y in r ==> le(h, y)
    ensures SortedBy([h] + r, le)
  {
    var u := [h] + r;
    forall i, j | 0 <= i < j < |u| ensures le(u[i], u[j]) {
      assert u[j] == r[j - 1];
      if i > 0 {
        assert u[i] == r[i - 1];
      } else {
        assert r[j - 1] in r;
      }
    }
  }

  lemma {:induction false} InsertBySorted<T(!new)>(x: T, s: seq<T>, le: (T, T) -> bool)
    requires TotalPreorder(le) && SortedBy(s, le)
    ensures SortedBy(InsertBy(x, s, le), le)
  {
    if |s| > 0 && !le(x, s[0]) {
      var t := s[1..];
      SortedTail(s, le);
      InsertBySorted(x, t, le);
      var r := InsertBy(x, t, le);
      assert le(s[0], x);
      forall y | y in r ensures le(s[0], y) {
        assert y in multiset(r);
        assert y in multiset(t) || y == x;
        if y in multiset(t) {
          var k :| 0 <= k < |t| && t[k] == y;
          assert s[k + 1] == y;
        }
      }
      SortedCons(s[0], r, le);
    } else if |s| > 0 {
      forall y | y in s ensures le(x, y) {
        var k :| 0 <= k < |s| && s[k] == y;
        if k > 0 {
          assert le(s[0], s[k]);
        }
      }
      SortedCons(x, s, le);
    }
  }

  lemma {:induction false} SortBySorted<T(!new)>(s: seq<T>, le: (T, T) -> bool)
    requires TotalPreorder(le)
    ensures SortedBy(SortBy(s, le), le)
  {
    if |s| > 0 {
      SortBySorted(s[1..], le);
      InsertBySorted(s[0], SortBy(s[1..], le), le);
    }
  }

  /** The elements of `s` that `le` ranks equal to `e`, in their order in `s`. */
  function EquivalentTo<T>(s: seq<T>, e: T, le: (T, T) -> bool): (r: seq<T>)
    ensures |r| <= |s|
  {
    if |s| == 0 then []
    else (if le(s[0], e) && le(e, s[0]) then [s[0]] else []) + EquivalentTo(s[1..], e, le)
  }

  lemma {:induction false} InsertByStable<T(!new)>(x: T, s: seq<T>, le: (T, T) -> bool, e: T)
    requires TotalPreorder(le)
    ensures EquivalentTo(InsertBy(x, s, le), e, le) ==
            (if le(x, e) && le(e, x) then [x] else []) + EquivalentTo(s, e, le)
  {
    if |s| == 0 {
      EquivalentToCons(x, s, e, le);
    } else if le(x, s[0]) {
      EquivalentToCons(x, s, e, le);
    } else {
      var t := s[1..];
      InsertByStable(x, t, le, e);
      var hx := if le(x, e) && le(e, x) then [x] else [];
      var hs := if le(s[0], e) && le(e, s[0]) then [s[0]] else [];
      // x goes after s[0] only when s[0] ranks strictly below x, so at most one
      // of the two is equal to `e`
      assert !(le(x, e) && le(e, s[0]));
      assert hx == [] || hs == [];
      EquivalentToCons(s[0], InsertBy(x, t, le), e, le);
      EquivalentToCons(s[0], t, e, le);
      assert s == [s[0]] + t;
      ConcatAssoc(hs, hx, EquivalentTo(t, e, le));
      ConcatAssoc(hx, hs, EquivalentTo(t, e, le));
    }
  }

  lemma EquivalentToCons<T>(h: T, s: seq<T>, e: T, le: (T, T) -> bool)
    ensures EquivalentTo([h] + s, e, le) == (if le(h, e) && le(e, h) then [h] else []) + EquivalentTo(s, e, le)
  {
    assert ([h] + s)[1..] == s;
  }

  /**
   * `sorted` is stable: elements that rank equal under `le` keep the order
   * they had in the input.
   */
  lemma {:induction false} SortByStable<T(!new)>(s: seq<T>, le: (T, T) -> bool, e: T)
    requires TotalPreorder(le)
    ensures EquivalentTo(SortBy(s, le), e, le) == EquivalentTo(s, e, le)
  {
    if |s| > 0 {
      SortByStable(s[1..], le, e);
      InsertByStable(s[0], SortBy(s[1..], le), le, e);
    }
  }

  lemma SortByLength<T>(s: seq<T>, le: (T, T) -> bool)
    ensures |SortBy(s, le)| == |s|
  {
    assert |multiset(SortBy(s, le))| == |multiset(s)|;
  }

  /** Python's `<=` on strings: code-point lexicographic order. */
  predicate StrLe(a: string, b: string) {
    |a| == 0 || (|b| > 0 && (a[0] < b[0] || (a[0] == b[0] && StrLe(a[1..], b[1..]))))
  }

  lemma {:induction false} StrLeTotal(a: string, b: string)
    ensures StrLe(a, b) || StrLe(b, a)
  {
    if |a| > 0 && |b| > 0 && a[0] == b[0] {
      StrLeTotal(a[1..], b[1..]);
    }
  }

  lemma {:induction false} StrLeTrans(a: string, b: string, c: string)
    requires StrLe(a, b) && StrLe(b, c)
    ensures StrLe(a, c)
  {
    if |a| > 0 && a[0] == b[0] && b[0] == c[0] {
      StrLeTrans(a[1..], b[1..], c[1..]);
    }
  }

  lemma StrLeTotalPreorder()
    ensures TotalPreorder(StrLe)
  {
    forall a, b ensures StrLe(a, b) || StrLe(b, a) { StrLeTotal(a, b); }
    forall a, b, c | StrLe(a, b) && StrLe(b, c) ensures StrLe(a, c) { StrLeTrans(a, b, c); }
  }

  /** Python's `sorted` on a list of strings. */
  function SortStrings(s: seq<string>): (r: seq<string>)
    ensures multiset(r) == multiset(s) && |r| == |s|
    ensures SortedBy(r, StrLe)
  {
    StrLeTotalPreorder();
    SortBySorted(s, StrLe);
    SortByLength(s, StrLe);
    SortBy(s, StrLe)
  }
}

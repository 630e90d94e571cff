/**
 * The few `str` methods of Python that the core uses, on `string` (a sequence of
 * Unicode code points, as a Python `str` is).
 */
module Strings {

  /** `s.startswith(p)` */
  predicate StartsWith(s: string, p: string) {
    |p| <= |s| && s[..|p|] == p
  }

  /** `s.endswith(p)` */
  predicate EndsWith(s: string, p: string) {
    |p| <= |s| && s[|s| - |p|..] == p
  }

  /** `s.replace(a, b)` for one-character `a` and `b`: every `a` becomes `b`. */
  function ReplaceChar(s: string, a: char, b: char): (r: string)
    ensures |r| == |s|
  {
    if s == [] then [] else ReplaceChar(s[..|s| - 1], a, b) + [if s[|s| - 1] == a then b else s[|s| - 1]]
  }

  /** Position by position, `a` is now `b` and every other character is unchanged. */
  lemma {:induction false} ReplaceCharAt(s: string, a: char, b: char)
    ensures forall i :: 0 <= i < |s| ==> ReplaceChar(s, a, b)[i] == (if s[i] == a then b else s[i])
  {
    if s != [] {
      ReplaceCharAt(s[..|s| - 1], a, b);
    }
  }

  /** `s.replace(c, "")`: every `c` is dropped, the other characters keep their order. */
  function RemoveChar(s: string, c: char): (r: string)
    ensures |r| <= |s|
  {
    if s == [] then [] else RemoveChar(s[..|s| - 1], c) + (if s[|s| - 1] == c then [] else [s[|s| - 1]])
  }

  /** No `c` is left, and every other character is still there exactly when it was before. */
  lemma {:induction false} RemoveCharMembers(s: string, c: char)
    ensures c !in RemoveChar(s, c)
    ensures forall x :: x != c ==> (x in RemoveChar(s, c) <==> x in s)
  {
    if s != [] {
      var init := s[..|s| - 1];
      RemoveCharMembers(init, c);
      assert s == init + [s[|s| - 1]];
    }
  }

  lemma ReplaceCharOne(c: char, a: char, b: char)
    ensures ReplaceChar([c], a, b) == [if c == a then b else c]
  {
    assert [c][..0] == [];
  }

  lemma RemoveCharOne(d: char, c: char)
    ensures RemoveChar([d], c) == if d == c then [] else [d]
  {
    assert [d][..0] == [];
  }

  /** Replacing distributes over concatenation. */
  lemma {:induction false} ReplaceCharAppend(x: string, y: string, a: char, b: char)
    ensures ReplaceChar(x + y, a, b) == ReplaceChar(x, a, b) + ReplaceChar(y, a, b)
    decreases |y|
  {
    if y == [] {
      assert x + y == x;
    } else {
      var init := y[..|y| - 1];
      assert (x + y)[..|x + y| - 1] == x + init;
      ReplaceCharAppend(x, init, a, b);
    }
  }

  /** A text without `a` is left as it is. */
  lemma {:induction false} ReplaceCharAbsent(s: string, a: char, b: char)
    requires a !in s
    ensures ReplaceChar(s, a, b) == s
  {
    if s != [] {
      var init := s[..|s| - 1];
      assert a !in init by {
        assert forall k :: 0 <= k < |init| ==> init[k] == s[k];
      }
      ReplaceCharAbsent(init, a, b);
      assert s == init + [s[|s| - 1]];
    }
  }

  /** Dropping distributes over concatenation. */
  lemma {:induction false} RemoveCharAppend(x: string, y: string, c: char)
    ensures RemoveChar(x + y, c) == RemoveChar(x, c) + RemoveChar(y, c)
    decreases |y|
  {
    if y == [] {
      assert x + y == x;
    } else {
      var init := y[..|y| - 1];
      assert (x + y)[..|x + y| - 1] == x + init;
      RemoveCharAppend(x, init, c);
    }
  }

  /** A text without `c` is left as it is. */
  lemma {:induction false} RemoveCharAbsent(s: string, c: char)
    requires c !in s
    ensures RemoveChar(s, c) == s
  {
    if s != [] {
      var init := s[..|s| - 1];
      assert c !in init by {
        assert forall k :: 0 <= k < |init| ==> init[k] == s[k];
      }
      RemoveCharAbsent(init, c);
      assert s == init + [s[|s| - 1]];
    }
  }

  /** `s.rfind(c)`: the index of the last `c`, or -1 when there is none. */
  function RFind(s: string, c: char): (r: int)
    ensures -1 <= r < |s|
  {
    if s == [] then -1 else if s[|s| - 1] == c then |s| - 1 else RFind(s[..|s| - 1], c)
  }

  /** The index found holds `c`, nothing after it does, and -1 means `c` does not occur. */
  lemma {:induction false} RFindIsLast(s: string, c: char)
    ensures var r := RFind(s, c);
      && (r >= 0 ==> s[r] == c)
      && (forall j :: r < j < |s| ==> s[j] != c)
      && (r == -1 <==> c !in s)
  {
    if s != [] && s[|s| - 1] != c {
      var init := s[..|s| - 1];
      RFindIsLast(init, c);
      assert s == init + [s[|s| - 1]];
    }
  }

  /** Number of occurrences of `c` in `s` (`s.count(c)`). */
  function Count(s: string, c: char): (n: nat)
    ensures n <= |s|
    ensures n == 0 <==> c !in s
  {
    if s == [] then 0 else Count(s[..|s| - 1], c) + (if s[|s| - 1] == c then 1 else 0)
  }

  lemma {:induction false} CountAppend(a: string, b: string, c: char)
    ensures Count(a + b, c) == Count(a, c) + Count(b, c)
    decreases |b|
  {
    if b == [] {
      assert a + b == a;
    } else {
      assert (a + b)[..|a + b| - 1] == a + b[..|b| - 1];
      CountAppend(a, b[..|b| - 1], c);
    }
  }

  /** `"".join(f(x) for x in xs)`: the texts of the elements, one after the other, in order. */
  function ConcatMap<T>(xs: seq<T>, f: T -> string): string {
    if xs == [] then [] else ConcatMap(xs[..|xs| - 1], f) + f(xs[|xs| - 1])
  }

  lemma {:induction false} ConcatMapAppend<T>(a: seq<T>, b: seq<T>, f: T -> string)
    ensures ConcatMap(a + b, f) == ConcatMap(a, f) + ConcatMap(b, f)
    decreases |b|
  {
    if b == [] {
      assert a + b == a;
    } else {
      assert (a + b)[..|a + b| - 1] == a + b[..|b| - 1];
      ConcatMapAppend(a, b[..|b| - 1], f);
    }
  }

  /** Taking one more element adds that element's text at the end. */
  lemma ConcatMapSnoc<T>(xs: seq<T>, i: nat, f: T -> string)
    requires i < |xs|
    ensures ConcatMap(xs[..i + 1], f) == ConcatMap(xs[..i], f) + f(xs[i])
  {
    assert xs[..i + 1][..i] == xs[..i];
  }

  lemma ConcatMapOne<T>(x: T, f: T -> string)
    ensures ConcatMap([x], f) == f(x)
  {
    assert [x][..0] == [];
  }

  /** When every element's text holds exactly one `c`, the whole text holds one `c` per element. */
  lemma {:induction false} ConcatMapCount<T>(xs: seq<T>, f: T -> string, c: char)
    requires forall i :: 0 <= i < |xs| ==> Count(f(xs[i]), c) == 1
    ensures Count(ConcatMap(xs, f), c) == |xs|
  {
    if xs != [] {
      ConcatMapCount(xs[..|xs| - 1], f, c);
      CountAppend(ConcatMap(xs[..|xs| - 1], f), f(xs[|xs| - 1]), c);
    }
  }

  /** The last `c` of `x + [c] + y`, where `y` holds no `c`, is the one between them. */
  lemma {:induction false} RFindAfter(x: string, c: char, y: string)
    requires c !in y
    ensures RFind(x + [c] + y, c) == |x|
    decreases |y|
  {
    var s := x + [c] + y;
    if y == [] {
      assert s[|s| - 1] == c;
    } else {
      var init := y[..|y| - 1];
      assert y[|y| - 1] in y;
      assert s[..|s| - 1] == x + [c] + init;
      assert c !in init by {
        assert forall k :: 0 <= k < |init| ==> init[k] == y[k];
      }
      RFindAfter(x, c, init);
    }
  }

  /** Appending text without `c` does not move the last `c`. */
  lemma {:induction false} RFindExtend(x: string, c: char, y: string)
    requires c !in y
    ensures RFind(x + y, c) == RFind(x, c)
    decreases |y|
  {
    if y == [] {
      assert x + y == x;
    } else {
      var init := y[..|y| - 1];
      assert y[|y| - 1] in y;
      assert (x + y)[..|x + y| - 1] == x + init;
      assert c !in init by {
        assert forall k :: 0 <= k < |init| ==> init[k] == y[k];
      }
      RFindExtend(x, c, init);
    }
  }
}

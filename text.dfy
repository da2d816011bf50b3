/** String helpers for the built-ins the program calls: join, toLowerCase, includes, and the insertion order of a Set. */
module Text {

  /** Array.prototype.join over strings. */
  function Join(parts: seq<string>, sep: string): string
    decreases |parts|
  {
    if |parts| == 0 then ""
    else if |parts| == 1 then parts[0]
    else parts[0] + sep + Join(parts[1..], sep)
  }

  /** String.prototype.includes: `t` occurs in `s` at some position. */
  function Includes(s: string, t: string): bool
    decreases |s|
  {
    if |t| <= |s| && s[..|t|] == t then true
    else if |s| == 0 then false
    else Includes(s[1..], t)
  }

  /** `t` occurs in `s` starting at index `i`. */
  predicate OccursAt(s: string, t: string, i: int) {
    0 <= i <= |s| - |t| && s[i..i + |t|] == t
  }

  /** The search from the front agrees with the definition of an occurrence at some index. */
  lemma IncludesIff(s: string, t: string)
    ensures Includes(s, t) <==> exists i :: OccursAt(s, t, i)
  {
    if Includes(s, t) {
      var i := IncludesWitness(s, t);
    }
    forall i | OccursAt(s, t, i) ensures Includes(s, t) {
      OccursAtIncludes(s, t, i);
    }
  }

  lemma {:induction false} IncludesWitness(s: string, t: string) returns (i: int)
    requires Includes(s, t)
    ensures OccursAt(s, t, i)
    decreases |s|
  {
    if |t| <= |s| && s[..|t|] == t {
      i := 0;
    } else {
      var j := IncludesWitness(s[1..], t);
      assert s[1..][j..j + |t|] == s[j + 1..j + 1 + |t|];
      i := j + 1;
    }
  }

  lemma {:induction false} OccursAtIncludes(s: string, t: string, i: int)
    requires OccursAt(s, t, i)
    ensures Includes(s, t)
    decreases |s|
  {
    if !(|t| <= |s| && s[..|t|] == t) {
      assert i > 0;
      assert s[1..][i - 1..i - 1 + |t|] == s[i..i + |t|];
      OccursAtIncludes(s[1..], t, i - 1);
    }
  }

  /** Whatever surrounds it, a string includes itself. */
  lemma {:induction false} IncludesMiddle(a: string, t: string, b: string)
    ensures Includes(a + t + b, t)
    decreases |a|
  {
    if |a| == 0 {
      assert (a + t + b)[..|t|] == t;
    } else {
      var s := a + t + b;
      if !(|t| <= |s| && s[..|t|] == t) {
        assert s[1..] == a[1..] + t + b;
        IncludesMiddle(a[1..], t, b);
      }
    }
  }

  /** Every part of a join occurs in the joined text. */
  lemma {:induction false} JoinIncludesPart(parts: seq<string>, sep: string, k: nat)
    requires k < |parts|
    ensures Includes(Join(parts, sep), parts[k])
    decreases |parts|
  {
    if |parts| == 1 {
      IncludesMiddle("", parts[0], "");
      assert "" + parts[0] + "" == parts[0];
    } else if k == 0 {
      IncludesMiddle("", parts[0], sep + Join(parts[1..], sep));
      assert "" + parts[0] + (sep + Join(parts[1..], sep)) == Join(parts, sep);
    } else {
      JoinIncludesPart(parts[1..], sep, k - 1);
      IncludesAfter(parts[0] + sep, Join(parts[1..], sep), parts[k]);
    }
  }

  /** Text that occurs in `rest` still occurs once something is put before it. */
  lemma IncludesAfter(pre: string, rest: string, t: string)
    requires Includes(rest, t)
    ensures Includes(pre + rest, t)
  {
    IncludesIff(rest, t);
    var i :| OccursAt(rest, t, i);
    assert (pre + rest)[|pre| + i..|pre| + i + |t|] == rest[i..i + |t|];
    OccursAtIncludes(pre + rest, t, |pre| + i);
  }

  /** toLowerCase on the ASCII letters; every other character is kept. */
  function LowerChar(c: char): char {
    if 'A' <= c <= 'Z' then (c as int - 'A' as int + 'a' as int) as char else c
  }

  function Lower(s: string): (r: string)
    ensures |r| == |s| && forall i :: 0 <= i < |s| ==> r[i] == LowerChar(s[i])
  {
    seq(|s|, i requires 0 <= i < |s| => LowerChar(s[i]))
  }

  predicate NoDuplicates<T(==)>(s: seq<T>) {
    forall i, j :: 0 <= i < j < |s| ==> s[i] != s[j]
  }

  /** The index of the first occurrence of `x` in `s`. */
  function FirstIndex<T(==)>(s: seq<T>, x: T): (k: nat)
    requires x in s
    ensures k < |s| && s[k] == x && x !in s[..k]
  {
    if s[0] == x then 0 else 1 + FirstIndex(s[1..], x)
  }

  /** The elements of `s` without repeats, in the order of their first appearance:
   *  what Array.from(new Set(s)) gives, since a Set iterates in insertion order. */
  function Distinct<T(==)>(s: seq<T>): seq<T>
    decreases |s|
  {
    if |s| == 0 then []
    else
      var d := Distinct(s[..|s| - 1]);
      if s[|s| - 1] in d then d else d + [s[|s| - 1]]
  }

  /** Distinct keeps every element exactly once and orders them by first appearance. */
  lemma {:induction false} DistinctSpec<T>(s: seq<T>)
    ensures NoDuplicates(Distinct(s))
    ensures forall x :: x in Distinct(s) <==> x in s
    ensures forall i, j :: 0 <= i < j < |Distinct(s)| ==>
              FirstIndex(s, Distinct(s)[i]) < FirstIndex(s, Distinct(s)[j])
    decreases |s|
  {
    if |s| > 0 {
      var p := s[..|s| - 1];
      var last := s[|s| - 1];
      DistinctSpec(p);
      var d := Distinct(p);
      assert s == p + [last];
      forall x | x in p ensures FirstIndex(s, x) == FirstIndex(p, x) {
        FirstIndexOfPrefix(p, [last], x);
      }
      if last !in d {
        assert last !in p;
        assert s[..|s| - 1] == p;
      }
    }
  }

  lemma FirstIndexOfPrefix<T>(p: seq<T>, q: seq<T>, x: T)
    requires x in p
    ensures FirstIndex(p + q, x) == FirstIndex(p, x)
  {
    var m := FirstIndex(p, x);
    assert (p + q)[m] == x;
    assert (p + q)[..m] == p[..m];
  }
}

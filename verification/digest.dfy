/** The order-insensitive digest of an address list (scanlog.go). */
module Digests {
  import opened Basics

  /** The hash is modelled by what was hashed, so it is injective by construction. */
  datatype Digest = Sha256(preimage: string)

  // ---------- the string order ----------

  predicate LessEq(a: string, b: string) {
    a == "" || (b != "" && (a[0] < b[0] || (a[0] == b[0] && LessEq(a[1..], b[1..]))))
  }

  /** It is the order of the strings character by character: a prefix comes first, otherwise the first
      difference decides. */
  lemma {:induction false} LessEqIs(a: string, b: string)
    ensures LessEq(a, b) <==>
            a <= b || exists i :: 0 <= i < |a| && i < |b| && a[..i] == b[..i] && a[i] < b[i]
  {
    if a != "" && b != "" && a[0] == b[0] {
      LessEqIs(a[1..], b[1..]);
      assert a == [a[0]] + a[1..] && b == [b[0]] + b[1..];
      if LessEq(a, b) && !(a <= b) {
        var i :| 0 <= i < |a| - 1 && i < |b| - 1 && a[1..][..i] == b[1..][..i] && a[1..][i] < b[1..][i];
        assert a[..i + 1] == [a[0]] + a[1..][..i] && b[..i + 1] == [b[0]] + b[1..][..i];
      }
      if i :| 0 <= i < |a| && i < |b| && a[..i] == b[..i] && a[i] < b[i] {
        assert a[1..][..i - 1] == a[..i][1..] && b[1..][..i - 1] == b[..i][1..];
        assert a[1..][i - 1] < b[1..][i - 1];
      }
    } else if a != "" && b != "" {
      assert a[..0] == b[..0];
      if i :| 0 <= i < |a| && i < |b| && a[..i] == b[..i] && a[i] < b[i] {
        assert i > 0 ==> a[..i][0] == b[..i][0];
      }
    }
  }

  lemma Antisymmetric(a: string, b: string)
    requires LessEq(a, b) && LessEq(b, a)
    ensures a == b
  {
    if a != "" && b != "" {
      Antisymmetric(a[1..], b[1..]);
      assert a == [a[0]] + a[1..] && b == [b[0]] + b[1..];
    }
  }

  lemma Total(a: string, b: string)
    ensures LessEq(a, b) || LessEq(b, a)
  {
    if a != "" && b != "" && a[0] == b[0] {
      Total(a[1..], b[1..]);
    }
  }

  lemma Transitive(a: string, b: string, c: string)
    requires LessEq(a, b) && LessEq(b, c)
    ensures LessEq(a, c)
  {
    if a != "" && a[0] == b[0] && b[0] == c[0] {
      Transitive(a[1..], b[1..], c[1..]);
    }
  }

  // ---------- sort.Strings ----------

  ghost predicate Sorted(s: seq<string>) {
    forall i, j | 0 <= i < j < |s| :: LessEq(s[i], s[j])
  }

  function Insert(x: string, s: seq<string>): (r: seq<string>)
    requires Sorted(s)
    ensures Sorted(r) && multiset(r) == multiset(s) + multiset{x}
  {
    if s == [] then [x]
    else if LessEq(x, s[0]) then
      assert forall i | 0 <= i < |s| :: LessEq(x, s[i]) by {
        forall i | 0 < i < |s| ensures LessEq(x, s[i]) { Transitive(x, s[0], s[i]); }
      }
      [x] + s
    else
      Total(x, s[0]);
      assert s == [s[0]] + s[1..];
      var t := Insert(x, s[1..]);
      assert forall y | y in t :: LessEq(s[0], y) by {
        forall y | y in t ensures LessEq(s[0], y) {
          assert y in multiset(t);
          assert y == x || y in s[1..];
        }
      }
      [s[0]] + t
  }

  /** sort.Strings: the ascending arrangement of the same strings. */
  function SortStrings(s: seq<string>): (r: seq<string>)
    ensures Sorted(r) && multiset(r) == multiset(s)
  {
    if s == [] then []
    else
      assert s == [s[0]] + s[1..];
      Insert(s[0], SortStrings(s[1..]))
  }

  lemma SameHead(a: seq<string>, b: seq<string>)
    requires Sorted(a) && Sorted(b) && multiset(a) == multiset(b) && a != [] && b != []
    ensures a[0] == b[0]
  {
    hide LessEq;
    assert a[0] in multiset(b) && b[0] in multiset(a);
    var i :| 0 <= i < |b| && b[i] == a[0];
    var j :| 0 <= j < |a| && a[j] == b[0];
    if i > 0 && j > 0 {
      Antisymmetric(a[0], b[0]);
    }
  }

  lemma SameTail(a: seq<string>, b: seq<string>)
    requires multiset(a) == multiset(b) && a != [] && b != [] && a[0] == b[0]
    ensures multiset(a[1..]) == multiset(b[1..])
  {
    assert a == [a[0]] + a[1..] && b == [b[0]] + b[1..];
    assert multiset(a[1..]) == multiset(a) - multiset{a[0]};
    assert multiset(b[1..]) == multiset(b) - multiset{b[0]};
  }

  /** Only one ascending arrangement of a collection of strings exists. */
  lemma {:induction false} SortedIsUnique(a: seq<string>, b: seq<string>)
    requires Sorted(a) && Sorted(b) && multiset(a) == multiset(b)
    ensures a == b
  {
    hide LessEq;
    assert |a| == |multiset(a)| == |multiset(b)| == |b|;
    if a != [] {
      SameHead(a, b);
      SameTail(a, b);
      SortedIsUnique(a[1..], b[1..]);
      assert a == [a[0]] + a[1..] && b == [b[0]] + b[1..];
    }
  }

  // ---------- newline framing ----------

  /** The bytes fed to the hasher for a list: each string, each followed by a newline. */
  function Framed(s: seq<string>): string {
    if s == [] then "" else Framed(s[..|s| - 1]) + s[|s| - 1] + "\n"
  }

  /** The strings one after the other, a newline after each. */
  lemma {:induction false} FramedIs(a: seq<string>, b: seq<string>, x: string)
    ensures Framed([x]) == x + "\n" && Framed(a + b) == Framed(a) + Framed(b)
  {
    assert [x][..0] == [];
    if b == [] {
      assert a + b == a;
    } else {
      var n := |b| - 1;
      FramedIs(a, b[..n], x);
      assert (a + b)[..|a| + n] == a + b[..n];
    }
  }

  ghost predicate NoNewline(s: seq<string>) {
    forall i | 0 <= i < |s| :: '\n' !in s[i]
  }

  lemma {:induction false} FramedCons(s: seq<string>)
    requires s != []
    ensures Framed(s) == s[0] + "\n" + Framed(s[1..])
  {
    if |s| == 1 {
      assert s[..0] == [] && s[1..] == [];
      assert Framed(s) == "" + s[0] + "\n";
    } else {
      var n := |s| - 1;
      FramedCons(s[..n]);
      assert s[1..][..n - 1] == s[..n][1..] && s[1..][n - 1] == s[n];
      calc {
        Framed(s);
        Framed(s[..n]) + s[n] + "\n";
        (s[0] + "\n" + Framed(s[..n][1..])) + s[n] + "\n";
        s[0] + "\n" + (Framed(s[1..][..n - 1]) + s[1..][n - 1] + "\n");
        s[0] + "\n" + Framed(s[1..]);
      }
    }
  }

  lemma FirstLineUnique(a: string, x: string, b: string, y: string)
    requires '\n' !in a && '\n' !in b && a + "\n" + x == b + "\n" + y
    ensures a == b && x == y
  {
    var s := a + "\n" + x;
    assert s[|a|] == '\n' && s[|b|] == '\n';
    assert forall k | 0 <= k < |a| :: s[k] == a[k] && a[k] in a;
    assert forall k | 0 <= k < |b| :: s[k] == b[k] && b[k] in b;
    assert a == s[..|a|] && b == s[..|b|];
    assert x == s[|a| + 1..] && y == s[|b| + 1..];
  }

  /** Newline-terminated strings decode uniquely. */
  lemma {:induction false} FramedInjective(a: seq<string>, b: seq<string>)
    requires NoNewline(a) && NoNewline(b) && Framed(a) == Framed(b)
    ensures a == b
  {
    if a != [] && b != [] {
      FramedCons(a);
      FramedCons(b);
      FirstLineUnique(a[0], Framed(a[1..]), b[0], Framed(b[1..]));
      FramedInjective(a[1..], b[1..]);
      assert a == [a[0]] + a[1..] && b == [b[0]] + b[1..];
    } else if a != [] {
      FramedCons(a);
    } else if b != [] {
      FramedCons(b);
    }
  }

  // ---------- the digest ----------

  function DigestOf(s: seq<string>): Digest {
    Sha256(Framed(SortStrings(s)))
  }

  /** digestStrings: sort a copy, then feed the hasher string by string. */
  method DigestStrings(strs: seq<string>) returns (d: Digest)
    ensures d == DigestOf(strs)
  {
    var sorted := SortStrings(strs);
    var written := "";
    for i := 0 to |sorted|
      invariant written == Framed(sorted[..i])
    {
      assert sorted[..i + 1][..i] == sorted[..i];
      written := written + sorted[i];
      written := written + "\n";
    }
    assert sorted[..|sorted|] == sorted;
    d := Sha256(written);
  }

  /** Two lists have one digest exactly when each string occurs equally often in both: order
      never matters, membership always does. */
  lemma DigestIdentifiesList(a: seq<string>, b: seq<string>)
    requires NoNewline(a) && NoNewline(b)
    ensures DigestOf(a) == DigestOf(b) <==> multiset(a) == multiset(b)
  {
    var x, y := SortStrings(a), SortStrings(b);
    SameNewlines(a, x);
    SameNewlines(b, y);
    if DigestOf(a) == DigestOf(b) {
      FramedInjective(x, y);
    }
    if multiset(a) == multiset(b) {
      SortedIsUnique(x, y);
    }
  }

  lemma SameNewlines(a: seq<string>, b: seq<string>)
    requires multiset(a) == multiset(b) && NoNewline(a)
    ensures NoNewline(b)
  {
    forall i | 0 <= i < |b| ensures '\n' !in b[i] {
      assert b[i] in multiset(a);
    }
  }

  /** For lists without repeats the digest answers "is this the same set". */
  lemma DigestIdentifiesSet(a: seq<string>, b: seq<string>)
    requires NoNewline(a) && NoNewline(b) && Distinct(a) && Distinct(b)
    ensures DigestOf(a) == DigestOf(b) <==> (forall x :: x in a <==> x in b)
  {
    DigestIdentifiesList(a, b);
    DistinctCounts(a);
    DistinctCounts(b);
    if forall x :: x in a <==> x in b {
      forall x ensures multiset(a)[x] == multiset(b)[x] {
        assert x in a <==> x in b;
      }
    } else {
      var x :| x in a <==> x !in b;
      assert multiset(a)[x] != multiset(b)[x];
    }
  }

  lemma DistinctCounts<T(!new)>(s: seq<T>)
    requires Distinct(s)
    ensures forall x :: multiset(s)[x] == if x in s then 1 else 0
  {
    if s != [] {
      var n := |s| - 1;
      DistinctCounts(s[..n]);
      assert s == s[..n] + [s[n]];
    }
  }
}

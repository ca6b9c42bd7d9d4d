/** Option values, row identifiers and the counting arguments shared by the models. */
module Basics {

  datatype Option<+T> = None | Some(value: T)

  /** Row and resource identifiers; the source draws them from UUID or provider id spaces. */
  type Id = nat

  /** The integers 1..n. */
  function UpTo(n: nat): (s: set<int>)
    ensures forall x :: x in s <==> 1 <= x <= n
    ensures |s| == n
  {
    if n == 0 then {} else
      assert n !in UpTo(n - 1);
      UpTo(n - 1) + {n}
  }

  lemma SubsetIsSmaller<T>(small: set<T>, large: set<T>)
    requires small <= large
    ensures |small| <= |large|
  {
    assert large == small + (large - small);
  }

  /** A subset that is at least as large as its superset is all of it. */
  lemma SubsetOfEqualSize<T>(small: set<T>, large: set<T>)
    requires small <= large && |small| >= |large|
    ensures small == large
  {
    var rest := large - small;
    assert large == small + rest;
    assert |large| == |small| + |rest|;
  }

  /** Pigeonhole: n distinct integers within 1..n are exactly 1..n. */
  lemma CountAndBoundsFillTheRange(s: set<int>, n: nat)
    requires |s| == n
    requires forall x :: x in s ==> 1 <= x <= n
    ensures s == UpTo(n)
  {
    SubsetOfEqualSize(s, UpTo(n));
  }

  /** An injective image has as many elements as its source. */
  lemma {:induction false} InjectiveImageSize<A, B>(source: set<A>, image: set<B>, f: A --> B)
    requires forall a :: a in source ==> f.requires(a)
    requires forall a, b :: a in source && b in source && f(a) == f(b) ==> a == b
    requires image == set a | a in source :: f(a)
    ensures |image| == |source|
  {
    if source != {} {
      var a :| a in source;
      var rest := source - {a};
      assert image == (set b | b in rest :: f(b)) + {f(a)};
      InjectiveImageSize(rest, set b | b in rest :: f(b), f);
    }
  }

  /** Above any finite set of ids there is an unused one. */
  lemma {:induction false} Unused(taken: set<Id>) returns (id: Id)
    ensures id !in taken && forall i :: i in taken ==> i < id
  {
    if taken == {} {
      id := 0;
    } else {
      var one :| one in taken;
      var above := Unused(taken - {one});
      id := if one < above then above else one + 1;
      forall i | i in taken
        ensures i < id
      {
        assert i == one || i in taken - {one};
      }
    }
  }

  lemma {:induction false} ImageIsSmaller<A, B>(source: set<A>, image: set<B>, f: A --> B)
    requires forall a :: a in source ==> f.requires(a)
    requires image == set a | a in source :: f(a)
    ensures |image| <= |source|
  {
    if source != {} {
      var a :| a in source;
      var rest := source - {a};
      var smaller := set b | b in rest :: f(b);
      assert image == smaller + {f(a)};
      ImageIsSmaller(rest, smaller, f);
    }
  }

  function Pow2(n: nat): nat {
    if n == 0 then 1 else 2 * Pow2(n - 1)
  }

  function Appended(texts: set<string>, c: char): set<string> {
    set s | s in texts :: s + [c]
  }

  lemma AppendedSize(texts: set<string>, c: char)
    ensures |Appended(texts, c)| == |texts|
  {
    forall s, o | s in texts && o in texts && s + [c] == o + [c]
      ensures s == o
    {
      assert (s + [c])[..|s|] == s && (o + [c])[..|o|] == o && |s| == |o|;
    }
    InjectiveImageSize(texts, Appended(texts, c), (s: string) => s + [c]);
  }

  lemma AppendedApart(texts: set<string>)
    ensures Appended(texts, '0') !! Appended(texts, '1')
  {
    forall z, o | z in Appended(texts, '0') && o in Appended(texts, '1')
      ensures z != o
    {
      assert z[|z| - 1] == '0' && o[|o| - 1] == '1';
    }
  }

  /** There are 2^n texts of n binary digits. */
  lemma {:induction false} BinaryTexts(n: nat) returns (texts: set<string>)
    ensures |texts| == Pow2(n) && forall s :: s in texts ==> |s| == n
  {
    texts := {""};
    if n > 0 {
      var shorter := BinaryTexts(n - 1);
      AppendedSize(shorter, '0');
      AppendedSize(shorter, '1');
      AppendedApart(shorter);
      texts := Appended(shorter, '0') + Appended(shorter, '1');
    }
  }

  lemma FreeText(taken: set<string>, n: nat) returns (text: string)
    requires |taken| < Pow2(n)
    ensures |text| == n && text !in taken
  {
    var texts := BinaryTexts(n);
    if texts <= taken { SubsetIsSmaller(texts, taken); }
    text :| text in texts && text !in taken;
  }

  /** The function runs a step over the actions, in order. */
  ghost predicate Runs<S(!new), A(!new)>(run: (S, seq<A>) -> S, step: (S, A) -> S) {
    && (forall s :: run(s, []) == s)
    && forall s, actions, a :: run(s, actions + [a]) == step(run(s, actions), a)
  }

  lemma {:induction false} RunsCompose<S(!new), A(!new)>(run: (S, seq<A>) -> S, step: (S, A) -> S, s: S, first: seq<A>, second: seq<A>)
    requires Runs(run, step)
    ensures run(s, first + second) == run(run(s, first), second)
  {
    if second == [] {
      assert first + second == first;
    } else {
      var before, last := second[..|second| - 1], second[|second| - 1];
      RunsCompose(run, step, s, first, before);
      assert before + [last] == second && (first + before) + [last] == first + second;
    }
  }

  lemma RunsOnce<S(!new), A(!new)>(run: (S, seq<A>) -> S, step: (S, A) -> S, s: S, a: A)
    requires Runs(run, step)
    ensures run(s, [a]) == step(s, a)
  {
    assert [] + [a] == [a];
  }

  function Elements<T(==)>(s: seq<T>): set<T> {
    set x | x in s
  }

  /** A sequence has at most as many elements as positions, and exactly as many when none repeats. */
  lemma {:induction false} ElementsCount<T>(s: seq<T>)
    ensures |Elements(s)| <= |s|
    ensures |Elements(s)| == |s| <==> forall i, j :: 0 <= i < j < |s| ==> s[i] != s[j]
  {
    if s != [] {
      var before, last := s[..|s| - 1], s[|s| - 1];
      ElementsCount(before);
      assert s == before + [last];
      if last in before {
        assert Elements(s) == Elements(before);
        var k :| 0 <= k < |before| && before[k] == last;
        assert s[k] == s[|s| - 1];
      } else {
        assert Elements(s) == Elements(before) + {last};
      }
    }
  }
}

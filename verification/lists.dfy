/** Kotlin's `filterNotNull` and the order facts the paging code relies on. */
module Lists {
  import opened Outcomes

  /** `r` can be obtained from `s` by deleting elements, keeping the rest in order (matched greedily from the back). */
  predicate IsSubsequence<T(==)>(r: seq<T>, s: seq<T>)
    decreases |s|
  {
    if |r| == 0 then true
    else if |s| == 0 then false
    else if r[|r| - 1] == s[|s| - 1] then IsSubsequence(r[..|r| - 1], s[..|s| - 1])
    else IsSubsequence(r, s[..|s| - 1])
  }

  /** Each element wrapped as present. */
  function Lift<T>(r: seq<T>): (l: seq<Option<T>>)
    ensures |l| == |r|
    ensures forall i :: 0 <= i < |r| ==> l[i] == Some(r[i])
  {
    seq(|r|, i requires 0 <= i < |r| => Some(r[i]))
  }

  /** The number of present elements. */
  function CountSome<T>(s: seq<Option<T>>): nat {
    if |s| == 0 then 0 else (if s[0].Some? then 1 else 0) + CountSome(s[1..])
  }

  /** Kotlin `filterNotNull`: the present values, in their original order. */
  function FilterNotNull<T(==)>(s: seq<Option<T>>): (r: seq<T>)
    ensures |r| <= |s|
    ensures forall i :: 0 <= i < |r| ==> Some(r[i]) in s
    ensures (forall i :: 0 <= i < |s| ==> s[i].None?) ==> r == []
  {
    if |s| == 0 then []
    else
      var init := s[..|s| - 1];
      assert s == init + [s[|s| - 1]];
      FilterNotNull(init) + (if s[|s| - 1].Some? then [s[|s| - 1].value] else [])
  }

  /** Appending one element appends its value exactly when it is present. */
  lemma FilterNotNullSnoc<T>(s: seq<Option<T>>, x: Option<T>)
    ensures FilterNotNull(s + [x]) == FilterNotNull(s) + (if x.Some? then [x.value] else [])
  {
    assert (s + [x])[..|s|] == s;
  }

  /** filterNotNull distributes over concatenation: it never reorders across a split. */
  lemma {:induction false} FilterNotNullAppend<T>(a: seq<Option<T>>, b: seq<Option<T>>)
    ensures FilterNotNull(a + b) == FilterNotNull(a) + FilterNotNull(b)
    decreases |b|
  {
    if |b| == 0 {
      assert a + b == a;
    } else {
      var b' := b[..|b| - 1];
      assert (a + b)[..|a + b| - 1] == a + b';
      FilterNotNullAppend(a, b');
    }
  }

  /** The kept values, wrapped again, appear in the input in the same order. */
  lemma {:induction false} FilterNotNullIsSubsequence<T>(s: seq<Option<T>>)
    ensures IsSubsequence(Lift(FilterNotNull(s)), s)
    decreases |s|
  {
    if |s| > 0 {
      var init := s[..|s| - 1];
      FilterNotNullIsSubsequence(init);
      var r := FilterNotNull(s);
      if s[|s| - 1].Some? {
        assert Lift(r)[..|Lift(r)| - 1] == Lift(FilterNotNull(init));
      } else {
        assert r == FilterNotNull(init);
      }
    }
  }

  /** Every present value is kept: the output is exactly as long as the number of present inputs. */
  lemma {:induction false} FilterNotNullKeepsAll<T>(s: seq<Option<T>>)
    ensures |FilterNotNull(s)| == CountSome(s)
    decreases |s|
  {
    if |s| > 0 {
      FilterNotNullAppend([s[0]], s[1..]);
      assert s == [s[0]] + s[1..];
      FilterNotNullKeepsAll(s[1..]);
      assert FilterNotNull([s[0]]) == FilterNotNull([] + [s[0]]);
      assert [s[0]][..0] == [];
    }
  }

  /** No present value is lost. */
  lemma {:induction false} FilterNotNullKeepsEach<T>(s: seq<Option<T>>, i: nat)
    requires i < |s| && s[i].Some?
    ensures s[i].value in FilterNotNull(s)
    decreases |s|
  {
    var init := s[..|s| - 1];
    if i < |s| - 1 {
      FilterNotNullKeepsEach(init, i);
    }
  }

  /** When every element is present nothing is dropped: the output is the input unwrapped. */
  lemma {:induction false} FilterNotNullAllPresent<T>(s: seq<Option<T>>)
    requires forall i :: 0 <= i < |s| ==> s[i].Some?
    ensures Lift(FilterNotNull(s)) == s
    decreases |s|
  {
    if |s| > 0 {
      var init := s[..|s| - 1];
      FilterNotNullAllPresent(init);
      assert Lift(FilterNotNull(s)) == Lift(FilterNotNull(init)) + [s[|s| - 1]];
      assert s == init + [s[|s| - 1]];
    }
  }
}

/**
 * The two list-building patterns of the preparation loops, as functions:
 * an order-preserving filter-and-map (a Go loop that appends to a slice
 * under a condition) and "the first error met" (a Go loop that returns on
 * the first failure). Both are defined on the last element so that a loop
 * over a prefix s[..i] extends them one element at a time.
 */
module Seqs {
  import opened Wrappers

  /** The values f yields on s, in the order of s, skipping None. */
  function Collect<T, U>(s: seq<T>, f: T -> Option<U>): seq<U>
  {
    if s == [] then []
    else
      var last := f(s[|s| - 1]);
      Collect(s[..|s| - 1], f) + (if last.Some? then [last.value] else [])
  }

  /** The first error f reports on s, if any. */
  function FirstSome<T, E>(s: seq<T>, f: T -> Option<E>): Option<E>
  {
    if s == [] then None
    else
      var before := FirstSome(s[..|s| - 1], f);
      if before.Some? then before else f(s[|s| - 1])
  }

  /** Collecting over a concatenation: the order of the input is kept. */
  lemma {:induction false} CollectAppend<T, U>(a: seq<T>, b: seq<T>, f: T -> Option<U>)
    ensures Collect(a + b, f) == Collect(a, f) + Collect(b, f)
  {
    if b != [] {
      var ab := a + b;
      assert ab[..|ab| - 1] == a + b[..|b| - 1];
      assert ab[|ab| - 1] == b[|b| - 1];
      CollectAppend(a, b[..|b| - 1], f);
    } else {
      assert a + b == a;
    }
  }

  /** A value is collected exactly when f yields it on some element. */
  lemma {:induction false} CollectMembership<T, U>(s: seq<T>, f: T -> Option<U>, u: U)
    ensures u in Collect(s, f) <==> exists i :: 0 <= i < |s| && f(s[i]) == Some(u)
  {
    if s != [] {
      var init := s[..|s| - 1];
      CollectMembership(init, f, u);
      if u in Collect(s, f) {
        if u !in Collect(init, f) {
          assert f(s[|s| - 1]) == Some(u);
        } else {
          var i :| 0 <= i < |init| && f(init[i]) == Some(u);
          assert s[i] == init[i];
        }
      } else {
        forall i | 0 <= i < |s| ensures f(s[i]) != Some(u) {
          if i < |init| {
            assert s[i] == init[i];
          }
        }
      }
    }
  }

  /** When f yields a value on every element, Collect is a plain map. */
  lemma {:induction false} CollectTotal<T, U>(s: seq<T>, f: T -> Option<U>)
    requires forall i :: 0 <= i < |s| ==> f(s[i]).Some?
    ensures |Collect(s, f)| == |s|
    ensures forall k :: 0 <= k < |s| ==> Collect(s, f)[k] == f(s[k]).value
  {
    if s != [] {
      var init := s[..|s| - 1];
      assert forall i :: 0 <= i < |init| ==> init[i] == s[i];
      CollectTotal(init, f);
    }
  }

  /** When f yields nothing on any element, nothing is collected. */
  lemma {:induction false} CollectNone<T, U>(s: seq<T>, f: T -> Option<U>)
    requires forall i :: 0 <= i < |s| ==> f(s[i]).None?
    ensures Collect(s, f) == []
  {
    if s != [] {
      var init := s[..|s| - 1];
      assert forall i :: 0 <= i < |init| ==> init[i] == s[i];
      CollectNone(init, f);
    }
  }

  /** No error is reported exactly when no element fails. */
  lemma {:induction false} FirstSomeNone<T, E>(s: seq<T>, f: T -> Option<E>)
    ensures FirstSome(s, f).None? <==> forall i :: 0 <= i < |s| ==> f(s[i]).None?
  {
    if s != [] {
      var init := s[..|s| - 1];
      FirstSomeNone(init, f);
      assert forall i :: 0 <= i < |init| ==> init[i] == s[i];
    }
  }

  /** The error reported is that of the earliest failing element. */
  lemma {:induction false} FirstSomeIsEarliest<T, E>(s: seq<T>, f: T -> Option<E>)
    requires FirstSome(s, f).Some?
    ensures exists i :: 0 <= i < |s| && f(s[i]) == FirstSome(s, f)
                        && forall j :: 0 <= j < i ==> f(s[j]).None?
  {
    var init := s[..|s| - 1];
    assert forall i :: 0 <= i < |init| ==> init[i] == s[i];
    if FirstSome(init, f).Some? {
      FirstSomeIsEarliest(init, f);
    } else {
      FirstSomeNone(init, f);
      assert f(s[|s| - 1]) == FirstSome(s, f);
    }
  }

  /** Once the first error is met on a prefix, longer prefixes report it too. */
  lemma {:induction false} FirstSomeSticks<T, E>(s: seq<T>, i: nat, f: T -> Option<E>)
    requires i <= |s|
    requires FirstSome(s[..i], f).Some?
    ensures FirstSome(s, f) == FirstSome(s[..i], f)
    decreases |s| - i
  {
    if i < |s| {
      assert s[..i + 1][..i] == s[..i];
      FirstSomeSticks(s, i + 1, f);
    } else {
      assert s[..i] == s;
    }
  }

  /** Collect keeps relative order: an earlier element's value comes out earlier. */
  lemma CollectOrder<T, U>(s: seq<T>, f: T -> Option<U>, i: nat, j: nat)
    requires i < j < |s| && f(s[i]).Some? && f(s[j]).Some?
    ensures exists k1, k2 :: 0 <= k1 < k2 < |Collect(s, f)|
                             && Collect(s, f)[k1] == f(s[i]).value && Collect(s, f)[k2] == f(s[j]).value
  {
    var a, b := s[..j], s[j..];
    assert s == a + b;
    CollectAppend(a, b, f);
    assert a[i] == s[i] && b[0] == s[j];
    CollectMembership(a, f, f(s[i]).value);
    CollectMembership(b, f, f(s[j]).value);
    var ca, cb := Collect(a, f), Collect(b, f);
    var k1 :| 0 <= k1 < |ca| && ca[k1] == f(s[i]).value;
    var k2 :| 0 <= k2 < |cb| && cb[k2] == f(s[j]).value;
    assert Collect(s, f)[k1] == ca[k1];
    assert Collect(s, f)[|ca| + k2] == cb[k2];
  }
}

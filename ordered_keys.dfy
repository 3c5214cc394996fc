/**
 * The order in which `for (var index in table)` visits a table whose keys are
 * record ids: JavaScript enumerates integer-like keys in ascending numeric
 * order. The mock repositories' queries all iterate this way.
 */
module OrderedKeys {

  /** `m` is the least element of `s`. */
  predicate IsLeast(m: nat, s: set<nat>) {
    m in s && forall x :: x in s ==> m <= x
  }

  lemma {:induction false} LeastExists(s: set<nat>)
    requires s != {}
    ensures exists m :: IsLeast(m, s)
    decreases s
  {
    var x :| x in s;
    if s != {x} {
      LeastExists(s - {x});
      var m :| IsLeast(m, s - {x});
      assert forall y :: y in s ==> y == x || y in s - {x};
      if x < m {
        assert IsLeast(x, s);
      } else {
        assert IsLeast(m, s);
      }
    } else {
      assert IsLeast(x, s);
    }
  }

  ghost function Least(s: set<nat>): (m: nat)
    requires s != {}
    ensures IsLeast(m, s)
  {
    LeastExists(s);
    var m :| IsLeast(m, s);
    m
  }

  /** The keys of a table in the order `for..in` visits them. */
  ghost function Ascending(s: set<nat>): (ks: seq<nat>)
    ensures |ks| == |s|
    ensures forall i :: 0 <= i < |ks| ==> ks[i] in s
    decreases s
  {
    if s == {} then []
    else
      var m := Least(s);
      [m] + Ascending(s - {m})
  }

  /** The enumeration visits every key, in strictly ascending order. */
  lemma {:induction false} AscendingSorted(s: set<nat>)
    ensures forall k :: k in s ==> k in Ascending(s)
    ensures forall i, j :: 0 <= i < j < |Ascending(s)| ==> Ascending(s)[i] < Ascending(s)[j]
    decreases s
  {
    if s != {} {
      var m := Least(s);
      AscendingSorted(s - {m});
      assert Ascending(s) == [m] + Ascending(s - {m});
      forall k | k in s ensures k in Ascending(s) {
        if k != m {
          assert k in Ascending(s - {m});
        }
      }
    }
  }

  /** No key is visited twice: the key at position `i` is not among those before it. */
  lemma AscendingFresh(s: set<nat>, i: nat)
    requires i < |Ascending(s)|
    ensures Ascending(s)[i] !in Ascending(s)[..i]
  {
    AscendingSorted(s);
  }

  /** Every key of the table is visited. */
  lemma AscendingComplete(s: set<nat>)
    ensures forall k :: k in s ==> k in Ascending(s)
  {
    AscendingSorted(s);
  }

  /** One step of the enumeration: the least remaining key, and the keys left after it. */
  method PopLeast(s: set<nat>) returns (m: nat, rest: set<nat>)
    requires s != {}
    ensures IsLeast(m, s) && rest == s - {m}
    ensures Ascending(s) == [m] + Ascending(rest)
  {
    LeastExists(s);
    m :| IsLeast(m, s);
    rest := s - {m};
  }

  /** The keys of a table in the order `for (var index in table)` visits them. */
  method EnumerationOrder(s: set<nat>) returns (ks: seq<nat>)
    ensures ks == Ascending(s)
  {
    ks := [];
    var rest := s;
    while rest != {}
      invariant rest <= s
      invariant Ascending(s) == ks + Ascending(rest)
      decreases rest
    {
      var k, rest' := PopLeast(rest);
      VisitStep(Ascending(s), ks, k, rest, rest');
      ks := ks + [k];
      rest := rest';
    }
  }

  /** Moving the key just popped from the remaining keys onto the visited prefix keeps the whole enumeration. */
  lemma VisitStep(whole: seq<nat>, visited: seq<nat>, k: nat, s: set<nat>, rest: set<nat>)
    requires whole == visited + Ascending(s)
    requires Ascending(s) == [k] + Ascending(rest)
    ensures whole == (visited + [k]) + Ascending(rest)
  {
  }

  /** The records stored under the keys `ks`, in that order. */
  ghost function ValuesAt<T>(m: map<nat, T>, ks: seq<nat>): seq<T>
    requires forall i :: 0 <= i < |ks| ==> ks[i] in m
    decreases |ks|
  {
    if ks == [] then [] else ValuesAt(m, ks[..|ks| - 1]) + [m[ks[|ks| - 1]]]
  }

  /** Visiting one more key appends its record. */
  lemma ValuesAtSnoc<T>(m: map<nat, T>, ks: seq<nat>, i: nat)
    requires i < |ks| && forall j :: 0 <= j < |ks| ==> ks[j] in m
    ensures ValuesAt(m, ks[..i + 1]) == ValuesAt(m, ks[..i]) + [m[ks[i]]]
  {
    assert ks[..i + 1][..i] == ks[..i];
  }

  /** The records of a table in enumeration order. */
  ghost function InOrder<T>(m: map<nat, T>): seq<T> {
    ValuesAt(m, Ascending(m.Keys))
  }

  lemma {:induction false} ValuesAtMembers<T>(m: map<nat, T>, ks: seq<nat>)
    requires forall i :: 0 <= i < |ks| ==> ks[i] in m
    ensures |ValuesAt(m, ks)| == |ks|
    ensures forall i :: 0 <= i < |ks| ==> ValuesAt(m, ks)[i] == m[ks[i]]
    decreases |ks|
  {
    if ks != [] {
      ValuesAtMembers(m, ks[..|ks| - 1]);
    }
  }

  /** Enumerating a table yields one entry per stored record, and exactly the stored records. */
  lemma InOrderMembers<T>(m: map<nat, T>)
    ensures |InOrder(m)| == |m|
    ensures forall x :: x in InOrder(m) <==> x in m.Values
  {
    var ks := Ascending(m.Keys);
    ValuesAtMembers(m, ks);
    AscendingSorted(m.Keys);
    assert |m.Keys| == |m|;
    forall x | x in m.Values ensures x in InOrder(m) {
      var k :| k in m && m[k] == x;
      var i :| 0 <= i < |ks| && ks[i] == k;
      assert InOrder(m)[i] == x;
    }
  }
}

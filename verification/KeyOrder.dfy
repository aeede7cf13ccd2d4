/** Ownership keys, their order, and the sorted tuple that a set of keys becomes. */
module KeyOrder {
  type Key = string

  /** String order: by the first character that differs, a prefix coming first. */
  predicate Less(a: Key, b: Key)
    decreases |a|
  {
    |b| > 0 && (|a| == 0 || a[0] < b[0] || (a[0] == b[0] && Less(a[1..], b[1..])))
  }

  lemma {:induction false} LessTotal(a: Key, b: Key)
    ensures a == b || Less(a, b) || Less(b, a)
    ensures !(Less(a, b) && Less(b, a)) && !Less(a, a)
    decreases |a|
  {
    if |a| > 0 {
      LessTotal(a[1..], a[1..]);
      if |b| > 0 && a[0] == b[0] {
        LessTotal(a[1..], b[1..]);
        assert a == [a[0]] + a[1..] && b == [b[0]] + b[1..];
      }
    }
  }

  lemma {:induction false} LessTransitive(a: Key, b: Key, c: Key)
    requires Less(a, b) && Less(b, c)
    ensures Less(a, c)
    decreases |a|
  {
    if |a| > 0 && a[0] == b[0] && b[0] == c[0] {
      LessTransitive(a[1..], b[1..], c[1..]);
    }
  }

  predicate Ascending(keys: seq<Key>) { forall a, b :: 0 <= a < b < |keys| ==> Less(keys[a], keys[b]) }

  predicate IsLeast(m: Key, s: set<Key>) { m in s && forall x :: x in s ==> x == m || Less(m, x) }

  lemma {:induction false} HasLeast(s: set<Key>)
    requires s != {}
    ensures exists m :: IsLeast(m, s)
  {
    var x :| x in s;
    var rest := s - {x};
    if rest == {} {
      assert s == {x};
      assert IsLeast(x, s);
    } else {
      HasLeast(rest);
      var m :| IsLeast(m, rest);
      LessTotal(x, m);
      if Less(x, m) {
        forall y | y in s ensures y == x || Less(x, y) {
          if y != x && y != m {
            assert y in rest;
            LessTransitive(x, m, y);
          }
        }
        assert IsLeast(x, s);
      } else {
        assert IsLeast(m, s);
      }
    }
  }

  lemma OneLeast(s: set<Key>)
    ensures forall m, n :: IsLeast(m, s) && IsLeast(n, s) ==> m == n
  {
    forall m, n | IsLeast(m, s) && IsLeast(n, s) ensures m == n {
      LessTotal(m, n);
    }
  }

  /** `tuple(sorted(keys))` of a set: every key once, ascending. */
  function Sorted(s: set<Key>): (keys: seq<Key>)
    ensures Ascending(keys)
    ensures forall k :: k in keys <==> k in s
    decreases s
  {
    if s == {} then []
    else
      HasLeast(s);
      OneLeast(s);
      var m :| m in s && IsLeast(m, s);
      var rest := Sorted(s - {m});
      [m] + rest
  }
}

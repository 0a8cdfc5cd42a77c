// Cardinalities of finite sets, used wherever rows are counted.
module Finite {

  datatype Option<+T> = None | Some(value: T) {
    function GetOr(default: T): T {
      if Some? then value else default
    }
  }

  // A part is no bigger than the whole.
  lemma {:induction false} CardLe<T>(a: set<T>, b: set<T>)
    requires a <= b
    ensures |a| <= |b|
    ensures |a| == |b| ==> a == b
    decreases b
  {
    if b == {} {
    } else {
      var x :| x in b;
      CardLe(a - {x}, b - {x});
      if x in a {
        assert a == (a - {x}) + {x} && b == (b - {x}) + {x};
      } else {
        assert a - {x} == a;
      }
    }
  }

  // Joining two sets never counts more than both counts together.
  lemma CardUnion<T>(a: set<T>, b: set<T>)
    ensures |a + b| <= |a| + |b|
    ensures a !! b ==> |a + b| == |a| + |b|
  {
    assert |a + b| == |a| + |b| - |a * b|;
    if a !! b {
      assert a * b == {};
    }
  }

  // The image of a set under a function is no bigger than the set.
  lemma {:induction false} CardImage<S, T>(a: set<S>, f: S -> T, image: set<T>)
    requires image == set x | x in a :: f(x)
    ensures |image| <= |a|
    decreases a
  {
    if a == {} {
      assert image == {};
    } else {
      var x :| x in a;
      var rest := set y | y in a - {x} :: f(y);
      CardImage(a - {x}, f, rest);
      assert image == rest + {f(x)};
      CardUnion(rest, {f(x)});
    }
  }

  // ... and exactly as big when the function tells members apart.
  lemma {:induction false} CardInjective<S, T>(a: set<S>, f: S -> T, image: set<T>)
    requires image == set x | x in a :: f(x)
    requires forall x, y :: x in a && y in a && f(x) == f(y) ==> x == y
    ensures |image| == |a|
    decreases a
  {
    if a == {} {
      assert image == {};
    } else {
      var x :| x in a;
      var rest := set y | y in a - {x} :: f(y);
      CardInjective(a - {x}, f, rest);
      assert f(x) !in rest;
      assert image == rest + {f(x)};
    }
  }

  // Some member is greatest under a total preorder.
  lemma {:induction false} Greatest<T>(s: set<T>, le: (T, T) -> bool) returns (m: T)
    requires s != {}
    requires forall x, y :: x in s && y in s ==> le(x, y) || le(y, x)
    requires forall x, y, z :: x in s && y in s && z in s && le(x, y) && le(y, z) ==> le(x, z)
    ensures m in s && forall x :: x in s ==> le(x, m)
    decreases s
  {
    var a :| a in s;
    if s == {a} {
      m := a;
    } else {
      var rest := s - {a};
      assert s == rest + {a};
      m := Greatest(rest, le);
      if !le(a, m) {
        m := a;
      }
    }
  }
}

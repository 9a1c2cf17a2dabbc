/** Finite integer sets in the order `std::map` and `std::set` visit them. */
module Sets {

  lemma EmptyOrInhabited(s: set<int>)
    ensures s == {} || exists x :: x in s
  {
    if forall x :: x !in s {
      assert s == {};
    }
  }

  lemma {:induction false} LeastExists(s: set<int>) returns (least: int)
    requires s != {}
    ensures least in s && forall y :: y in s ==> least <= y
  {
    EmptyOrInhabited(s);
    var x :| x in s;
    var rest := s - {x};
    assert forall y :: y in s ==> y == x || y in rest;
    least := x;
    if rest != {} {
      var m := LeastExists(rest);
      least := if m < x then m else x;
    }
  }

  /** The key an ordered container visits first. */
  function Least(s: set<int>): (least: int)
    requires s != {}
    ensures least in s && forall y :: y in s ==> least <= y
  {
    assert exists x :: x in s && forall y :: y in s ==> x <= y by {
      var m := LeastExists(s);
    }
    var x :| x in s && forall y :: y in s ==> x <= y;
    x
  }

  lemma {:induction false} SubsetSize(a: set<int>, b: set<int>)
    requires a <= b
    ensures |a| <= |b|
    ensures |a| == |b| ==> a == b
  {
    if a == {} {
    } else {
      EmptyOrInhabited(a);
      var x :| x in a;
      SubsetSize(a - {x}, b - {x});
      if |a| == |b| {
        assert a == (a - {x}) + {x};
        assert b == (b - {x}) + {x};
      }
    }
  }
}

/** `sorted(s)` of a set of integers. */
module IntSets {

  lemma HasMember(s: set<int>)
    ensures s == {} || exists x: int :: x in s
  {
    var none: set<int> := {};
    if forall x: int :: x !in s {
      assert forall x: int :: x in s ==> x in none;
      assert s <= none;
      assert none <= s;
    }
  }

  lemma {:induction false} MinExists(s: set<int>)
    requires |s| > 0
    ensures exists m :: m in s && forall y | y in s :: m <= y
  {
    HasMember(s);
    var x: int :| x in s;
    var rest := s - {x};
    if |rest| > 0 {
      MinExists(rest);
      var m :| m in rest && forall y | y in rest :: m <= y;
      var least := if x < m then x else m;
      assert least in s && forall y | y in s :: y == x || y in rest;
    } else {
      assert forall y | y in s :: y == x || y in rest;
    }
  }

  function MinOf(s: set<int>): (m: int)
    requires |s| > 0
    ensures m in s && forall y | y in s :: m <= y
  {
    MinExists(s);
    var m :| m in s && forall y | y in s :: m <= y;
    m
  }

  /** `sorted(s)` */
  function Ascending(s: set<int>): (xs: seq<int>)
    ensures forall x :: x in xs <==> x in s
    ensures forall i, j | 0 <= i < j < |xs| :: xs[i] < xs[j]
  {
    if |s| == 0 then [] else
      var m := MinOf(s);
      var rest := Ascending(s - {m});
      assert forall x | x in rest :: m < x;
      [m] + rest
  }
}

/** Small facts about sequences and sets shared by the models. */
module Collections {

  /** The index of the first element of `s` that satisfies `p`, or `|s|` when
      none does: the shape of `query.filter_by(...).first()` and of an
      ordered chain of guards that stops at the first one that fires. */
  function FirstWhere<T>(s: seq<T>, p: T -> bool): (k: nat)
    ensures k <= |s|
    ensures forall j :: 0 <= j < k ==> !p(s[j])
    ensures k < |s| ==> p(s[k])
  {
    if s == [] then 0
    else if p(s[0]) then 0
    else 1 + FirstWhere(s[1..], p)
  }

  /** The elements of `s` grow strictly from left to right. */
  predicate Increasing(s: seq<int>)
  {
    forall i, j :: 0 <= i < j < |s| ==> s[i] < s[j]
  }

  /** A set that is not empty has an element. */
  lemma HasElement(s: set<int>)
    requires s != {}
    ensures exists e :: e in s
  {
    if forall e :: e !in s {
      assert false;
    }
  }

  /** Every non-empty finite set of integers has a least element. */
  lemma {:induction false} MinimumExists(s: set<int>)
    requires s != {}
    ensures exists m :: m in s && forall j :: j in s ==> m <= j
  {
    HasElement(s);
    var x :| x in s;
    if s == {x} {
      assert forall j :: j in s ==> x <= j;
    } else {
      var rest := s - {x};
      MinimumExists(rest);
      var m :| m in rest && forall j :: j in rest ==> m <= j;
      var least := if x < m then x else m;
      forall j | j in s
        ensures least <= j
      {
        if j != x {
          assert j in rest;
        }
      }
      assert least in s;
    }
  }
}

/** The order in which elements come in a list. */
module Lists {

  ghost predicate Ahead<T>(s: seq<T>, a: T, b: T) {
    exists i, j :: 0 <= i < j < |s| && s[i] == a && s[j] == b
  }

  lemma AheadAt<T>(s: seq<T>, i: nat, j: nat)
    requires i < j < |s|
    ensures Ahead(s, s[i], s[j])
  {
  }

  lemma AheadGrows<T>(s: seq<T>, t: seq<T>, a: T, b: T)
    requires Ahead(s, a, b)
    ensures Ahead(s + t, a, b) && Ahead(t + s, a, b)
  {
    var i, j :| 0 <= i < j < |s| && s[i] == a && s[j] == b;
    assert (s + t)[i] == a && (s + t)[j] == b;
    assert (t + s)[|t| + i] == a && (t + s)[|t| + j] == b;
  }

  lemma AheadJoint<T>(s: seq<T>, t: seq<T>, a: T, b: T)
    requires a in s && b in t
    ensures Ahead(s + t, a, b)
  {
    var i, j :| 0 <= i < |s| && s[i] == a && 0 <= j < |t| && t[j] == b;
    assert (s + t)[i] == a && (s + t)[|s| + j] == b;
  }

  lemma AheadSnoc<T>(front: seq<T>, last: T, a: T, b: T)
    requires Ahead(front + [last], a, b)
    ensures Ahead(front, a, b) || (a in front && b == last)
  {
    var s := front + [last];
    var i, j :| 0 <= i < j < |s| && s[i] == a && s[j] == b;
    assert front[i] == a;
    if j < |front| { assert front[j] == b; }
  }

  lemma NothingAhead<T>(s: seq<T>, a: T, b: T)
    requires Ahead(s, a, b)
    ensures |s| >= 2
  {
  }

  lemma AheadOnce<T>(s: seq<T>, a: T, i: nat, j: nat)
    requires i < |s| && j < |s| && s[i] == a && Ahead(s, a, s[j])
    requires forall x, y :: 0 <= x < y < |s| ==> s[x] != s[y]
    ensures i < j
  {
  }
}

/** The deterministic orders in which the engine walks its tables (slices.Sort, slices.SortFunc). */
module Sorting {
  import opened Types

  /** less is a strict total order. */
  ghost predicate StrictOrder<T(!new)>(less: (T, T) -> bool) {
    && (forall x :: !less(x, x))
    && (forall x, y :: x != y ==> less(x, y) || less(y, x))
    && (forall x, y, z :: less(x, y) && less(y, z) ==> less(x, z))
  }

  ghost predicate Sorted<T(!new)>(s: seq<T>, less: (T, T) -> bool) {
    forall i, j :: 0 <= i < j < |s| ==> less(s[i], s[j])
  }

  lemma LeastExists<T(!new)>(s: set<T>, less: (T, T) -> bool)
    requires StrictOrder(less) && s != {}
    ensures exists m :: m in s && forall x :: x in s && x != m ==> less(m, x)
  {
    var e :| e in s;
    var rest := s - {e};
    if rest == {} {
      assert s == {e};
    } else {
      LeastExists(rest, less);
      var m :| m in rest && forall x :: x in rest && x != m ==> less(m, x);
      var least := if less(e, m) then e else m;
      forall x | x in s && x != least ensures less(least, x) {
        assert x == e || x in rest;
      }
    }
  }

  function Sort<T(!new, ==)>(s: set<T>, less: (T, T) -> bool): (r: seq<T>)
    requires StrictOrder(less)
    ensures forall x :: x in r <==> x in s
    ensures |r| == |s|
    ensures Sorted(r, less)
  {
    if s == {} then []
    else
      LeastExists(s, less);
      var m :| m in s && forall x :: x in s && x != m ==> less(m, x);
      [m] + Sort(s - {m}, less)
  }

  function Elements<T>(s: seq<T>): set<T> { set x | x in s }

  lemma ElementsSnoc<T>(s: seq<T>, i: nat)
    requires i < |s|
    ensures Elements(s[..i + 1]) == Elements(s[..i]) + {s[i]}
  {
    assert s[..i + 1] == s[..i] + [s[i]];
  }

  predicate LinkLess(a: LinkId, b: LinkId) { a < b }

  predicate RouteKeyLess(a: RouteKey, b: RouteKey) {
    if a.prefix != b.prefix then PrefixLess(a.prefix, b.prefix) else a.link < b.link
  }

  predicate SourceKeyLess(a: SourceKey, b: SourceKey) {
    if a.prefix != b.prefix then PrefixLess(a.prefix, b.prefix) else a.id < b.id
  }

  lemma Orders()
    ensures StrictOrder(LinkLess) && StrictOrder(PrefixLess) && StrictOrder(RouteKeyLess) && StrictOrder(SourceKeyLess)
  {
  }

  function SortLinks(s: set<LinkId>): (r: seq<LinkId>)
    ensures (forall x :: x in r <==> x in s) && |r| == |s| && Sorted(r, LinkLess)
  {
    Orders();
    Sort(s, LinkLess)
  }

  function SortPrefixes(s: set<Prefix>): (r: seq<Prefix>)
    ensures (forall x :: x in r <==> x in s) && |r| == |s| && Sorted(r, PrefixLess)
  {
    Orders();
    Sort(s, PrefixLess)
  }

  function SortRouteKeys(s: set<RouteKey>): (r: seq<RouteKey>)
    ensures (forall x :: x in r <==> x in s) && |r| == |s| && Sorted(r, RouteKeyLess)
  {
    Orders();
    Sort(s, RouteKeyLess)
  }

  function SortSourceKeys(s: set<SourceKey>): (r: seq<SourceKey>)
    ensures (forall x :: x in r <==> x in s) && |r| == |s| && Sorted(r, SourceKeyLess)
  {
    Orders();
    Sort(s, SourceKeyLess)
  }
}

// The option lists MapComponent derives from the loaded projects
// (frontend/src/MapComponent.jsx:105-110): Processing projects dropped,
// statuses and sectors as "All" plus the distinct values in order of first
// occurrence, years as "All" plus the distinct non-empty normalised years,
// sorted descending.
module ProjectLists {
  import opened Lists
  import opened Text
  import opened Selections

  // ---- Distinct values in order of first occurrence ([...new Set(xs)]) ----

  /** The index of the first occurrence of x in xs. */
  function FirstIndex<T(==)>(xs: seq<T>, x: T): (k: nat)
    requires x in xs
    ensures k < |xs| && xs[k] == x && x !in xs[..k]
  {
    if xs[0] == x then 0 else 1 + FirstIndex(xs[1..], x)
  }

  /** Appending an element leaves the first occurrences of the earlier values where they were. */
  lemma FirstIndexExtend<T>(pre: seq<T>, last: T, y: T)
    requires y in pre
    ensures FirstIndex(pre + [last], y) == FirstIndex(pre, y)
  {
    FirstIndexUnique(pre + [last], y, FirstIndex(pre, y));
  }

  lemma FirstIndexUnique<T>(xs: seq<T>, x: T, k: nat)
    requires k < |xs| && xs[k] == x && x !in xs[..k]
    ensures FirstIndex(xs, x) == k
  {
    var f := FirstIndex(xs, x);
    forall i | 0 <= i < k ensures xs[i] != x {
      assert xs[..k][i] == xs[i];
    }
    forall i | 0 <= i < f ensures xs[i] != x {
      assert xs[..f][i] == xs[i];
    }
  }

  /** The values of xs without repetitions, each at the place of its first occurrence. */
  function Distinct<T(==,!new)>(xs: seq<T>): (r: seq<T>)
    ensures NoDup(r)
    ensures forall x :: x in r <==> x in xs
    ensures forall i, j :: 0 <= i < j < |r| ==> FirstIndex(xs, r[i]) < FirstIndex(xs, r[j])
    decreases |xs|
  {
    if xs == [] then []
    else
      var pre, last := xs[..|xs| - 1], xs[|xs| - 1];
      assert xs == pre + [last];
      var d := Distinct(pre);
      if last in d then
        assert forall i :: 0 <= i < |d| ==> FirstIndex(xs, d[i]) == FirstIndex(pre, d[i]) by {
          forall i | 0 <= i < |d| ensures FirstIndex(xs, d[i]) == FirstIndex(pre, d[i]) {
            FirstIndexExtend(pre, last, d[i]);
          }
        }
        d
      else
        var r := d + [last];
        assert forall i :: 0 <= i < |d| ==> FirstIndex(xs, r[i]) == FirstIndex(pre, d[i]) < |pre| by {
          forall i | 0 <= i < |d| ensures FirstIndex(xs, r[i]) == FirstIndex(pre, d[i]) < |pre| {
            FirstIndexExtend(pre, last, d[i]);
          }
        }
        FirstIndexUnique(xs, last, |pre|);
        r
  }

  // ---- The lists ----

  function NotProcessing(): Project -> bool
  {
    (p: Project) => p.status != "Processing"
  }

  /** The projects kept for display: every project whose status is not Processing. */
  function ActiveProjects(ps: seq<Project>): (r: seq<Project>)
    ensures forall p :: p in r <==> p in ps && p.status != "Processing"
  {
    Filter(NotProcessing(), ps)
  }

  lemma ActiveProjectsInOrder(ps: seq<Project>)
    ensures IsSubsequence(ActiveProjects(ps), ps)
  {
    FilterIsSubsequence(NotProcessing(), ps);
  }

  function Statuses(ps: seq<Project>): (r: seq<string>)
    ensures |r| == |ps| && forall i :: 0 <= i < |ps| ==> r[i] == ps[i].status
  {
    seq(|ps|, i requires 0 <= i < |ps| => ps[i].status)
  }

  function Sectors(ps: seq<Project>): (r: seq<string>)
    ensures |r| == |ps| && forall i :: 0 <= i < |ps| ==> r[i] == ps[i].sector
  {
    seq(|ps|, i requires 0 <= i < |ps| => ps[i].sector)
  }

  function Years(ps: seq<Project>): (r: seq<string>)
    ensures |r| == |ps| && forall i :: 0 <= i < |ps| ==> r[i] == NormalizeYear(ps[i].year)
  {
    seq(|ps|, i requires 0 <= i < |ps| => NormalizeYear(ps[i].year))
  }

  /** uniqueStatuses */
  function StatusOptions(ps: seq<Project>): (r: seq<string>)
  {
    [All] + Distinct(Statuses(ActiveProjects(ps)))
  }

  /** uniqueSectors */
  function SectorOptions(ps: seq<Project>): (r: seq<string>)
  {
    [All] + Distinct(Sectors(ActiveProjects(ps)))
  }

  /** After "All", each status of a non-Processing project appears exactly once, in order of first appearance. */
  lemma StatusOptionsSpec(ps: seq<Project>)
    ensures var r := StatusOptions(ps); |r| > 0 && r[0] == All && NoDup(r[1..])
    ensures forall s :: s in StatusOptions(ps)[1..] <==> s != "Processing" && exists p :: p in ps && p.status == s
    ensures var a := Statuses(ActiveProjects(ps)); var d := StatusOptions(ps)[1..];
            forall i, j :: 0 <= i < j < |d| ==> FirstIndex(a, d[i]) < FirstIndex(a, d[j])
  {
    var act := ActiveProjects(ps);
    var a := Statuses(act);
    assert StatusOptions(ps)[1..] == Distinct(a);
    forall s ensures s in a <==> s != "Processing" && exists p :: p in ps && p.status == s {
      if s in a {
        var i :| 0 <= i < |a| && a[i] == s;
        assert act[i] in act;
      }
      if s != "Processing" && exists p :: p in ps && p.status == s {
        var p :| p in ps && p.status == s;
        var i :| 0 <= i < |act| && act[i] == p;
        assert a[i] == s;
      }
    }
  }

  /** After "All", each sector of a non-Processing project appears exactly once, in order of first appearance. */
  lemma SectorOptionsSpec(ps: seq<Project>)
    ensures var r := SectorOptions(ps); |r| > 0 && r[0] == All && NoDup(r[1..])
    ensures forall s :: s in SectorOptions(ps)[1..] <==> exists p :: p in ps && p.status != "Processing" && p.sector == s
    ensures var a := Sectors(ActiveProjects(ps)); var d := SectorOptions(ps)[1..];
            forall i, j :: 0 <= i < j < |d| ==> FirstIndex(a, d[i]) < FirstIndex(a, d[j])
  {
    var act := ActiveProjects(ps);
    var a := Sectors(act);
    assert SectorOptions(ps)[1..] == Distinct(a);
    forall s ensures s in a <==> exists p :: p in ps && p.status != "Processing" && p.sector == s {
      if s in a {
        var i :| 0 <= i < |a| && a[i] == s;
        assert act[i] in act;
      }
      if exists p :: p in ps && p.status != "Processing" && p.sector == s {
        var p :| p in ps && p.status != "Processing" && p.sector == s;
        var i :| 0 <= i < |act| && act[i] == p;
        assert a[i] == s;
      }
    }
  }

  // ---- Sorting descending ----

  /** Descending order: no element sorts before a later one. */
  predicate SortedDesc(s: seq<string>)
  {
    forall i, j :: 0 <= i < j < |s| ==> !Before(s[i], s[j])
  }

  /** Put x in front of the first element it does not sort before. */
  function Insert(x: string, s: seq<string>): (r: seq<string>)
    requires SortedDesc(s)
    ensures SortedDesc(r)
    ensures multiset(r) == multiset(s) + multiset{x}
    decreases |s|
  {
    if s == [] then [x]
    else if !Before(x, s[0]) then
      InsertFront(x, s);
      [x] + s
    else
      var t := Insert(x, s[1..]);
      assert s == [s[0]] + s[1..];
      forall y | y in multiset(t) ensures !Before(s[0], y) {
        if y == x {
          BeforeAsymmetric(x, s[0]);
        } else {
          assert y in s[1..];
          var j :| 0 <= j < |s[1..]| && s[1..][j] == y;
          assert s[j + 1] == y;
        }
      }
      SortedCons(s[0], t);
      [s[0]] + t
  }

  lemma InsertFront(x: string, s: seq<string>)
    requires SortedDesc(s) && s != [] && !Before(x, s[0])
    ensures SortedDesc([x] + s)
  {
    forall j | 0 < j < |s| ensures !Before(x, s[j]) {
      NotBeforeTransitive(x, s[0], s[j]);
    }
    SortedCons(x, s);
  }

  lemma SortedCons(x: string, s: seq<string>)
    requires SortedDesc(s)
    requires forall y | y in multiset(s) :: !Before(x, y)
    ensures SortedDesc([x] + s)
  {
    forall i, j | 0 <= i < j < |[x] + s| ensures !Before(([x] + s)[i], ([x] + s)[j]) {
      if i == 0 { assert ([x] + s)[j] == s[j - 1] && s[j - 1] in multiset(s); }
    }
  }

  /** "Does not sort before" is transitive. */
  lemma NotBeforeTransitive(a: string, b: string, c: string)
    requires !Before(a, b) && !Before(b, c)
    ensures !Before(a, c)
  {
    if Before(a, c) {
      if a == b || b == c {
      } else {
        BeforeTotal(a, b);
        BeforeTotal(b, c);
        BeforeTransitive(c, b, a);
        BeforeAsymmetric(a, c);
      }
    }
  }

  /** Insertion sort, standing in for Array.prototype.sort with (a, b) => b.localeCompare(a). */
  function SortDesc(s: seq<string>): (r: seq<string>)
    ensures SortedDesc(r)
    ensures multiset(r) == multiset(s)
    decreases |s|
  {
    if s == [] then []
    else
      assert s == [s[0]] + s[1..];
      Insert(s[0], SortDesc(s[1..]))
  }

  function NonEmpty(): string -> bool
  {
    (y: string) => y != ""
  }

  /** uniqueYears: "All" and the distinct non-empty normalised years, sorted descending. */
  function YearOptions(ps: seq<Project>): (r: seq<string>)
  {
    SortDesc([All] + Distinct(Filter(NonEmpty(), Years(ActiveProjects(ps)))))
  }

  /** A year occurs in the list of normalised years exactly when some project has it. */
  lemma InYears(act: seq<Project>, y: string)
    ensures y in Years(act) <==> exists p :: p in act && NormalizeYear(p.year) == y
  {
    var a := Years(act);
    if y in a {
      var i :| 0 <= i < |a| && a[i] == y;
      assert act[i] in act;
    }
    if exists p :: p in act && NormalizeYear(p.year) == y {
      var p :| p in act && NormalizeYear(p.year) == y;
      var i :| 0 <= i < |act| && act[i] == p;
      assert a[i] == y;
    }
  }

  /** The candidate years: each non-empty normalised year of a non-Processing project. */
  lemma YearCandidates(ps: seq<Project>, y: string)
    ensures y in Filter(NonEmpty(), Years(ActiveProjects(ps))) <==> y != "" && exists p :: p in ps && p.status != "Processing" && NormalizeYear(p.year) == y
  {
    var act := ActiveProjects(ps);
    InYears(act, y);
    assert (exists p :: p in act && NormalizeYear(p.year) == y) <==> exists p :: p in ps && p.status != "Processing" && NormalizeYear(p.year) == y;
  }

  /** The year list is sorted descending, holds "All" and each non-empty normalised year of a
      non-Processing project once, and nothing else. */
  lemma YearOptionsSpec(ps: seq<Project>)
    ensures SortedDesc(YearOptions(ps))
    ensures forall y :: y in YearOptions(ps) <==> y == All || (y != "" && exists p :: p in ps && p.status != "Processing" && NormalizeYear(p.year) == y)
    ensures forall y :: y != All ==> multiset(YearOptions(ps))[y] <= 1
  {
    var d := Distinct(Filter(NonEmpty(), Years(ActiveProjects(ps))));
    var r := YearOptions(ps);
    assert multiset(r) == multiset([All] + d);
    assert multiset([All] + d) == multiset{All} + multiset(d);
    forall y ensures y in r <==> y == All || (y != "" && exists p :: p in ps && p.status != "Processing" && NormalizeYear(p.year) == y) {
      assert y in r <==> y in multiset(r);
      assert y in d <==> y in multiset(d);
      YearCandidates(ps, y);
    }
    forall y | y != All ensures multiset(r)[y] <= 1 {
      NoDupCount(d, y);
    }
  }

  lemma {:induction false} NoDupCount(s: seq<string>, y: string)
    requires NoDup(s)
    ensures multiset(s)[y] <= 1
    decreases |s|
  {
    if s != [] {
      assert s == [s[0]] + s[1..];
      NoDupCount(s[1..], y);
      if s[0] == y { assert y !in s[1..]; }
    }
  }

  /** The head of a descending list is its greatest element. */
  lemma HeadIsGreatest(r: seq<string>, m: string)
    requires SortedDesc(r) && m in r
    requires forall y :: y in r ==> y == m || Before(y, m)
    ensures r[0] == m
  {
    var k :| 0 <= k < |r| && r[k] == m;
    assert r[0] in r;
    if k > 0 {
      assert !Before(r[0], r[k]);
    }
  }

  /** When every year sorts before "All" (years written with digits do), "All" heads the list. */
  lemma AllHeadsYearOptions(ps: seq<Project>)
    requires forall p :: p in ps && p.status != "Processing" && NormalizeYear(p.year) != "" ==> Before(NormalizeYear(p.year), All)
    ensures |YearOptions(ps)| > 0 && YearOptions(ps)[0] == All
  {
    YearOptionsSpec(ps);
    HeadIsGreatest(YearOptions(ps), All);
  }

  /** Digit years sort before "All". */
  lemma DigitYearBeforeAll(y: string)
    requires y != "" && '0' <= y[0] <= '9'
    ensures Before(y, All)
  {
  }
}

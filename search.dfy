// Search suggestions (frontend/src/MapComponent.jsx:182-194): a case-insensitive
// substring match on title or firm name over every loaded project.
module Search {
  import opened Lists
  import opened Text
  import opened Selections

  /** The lower-cased title or firm name contains the lower-cased query. */
  predicate Matches(p: Project, lowerQuery: string)
  {
    Contains(Lower(p.title), lowerQuery) || Contains(Lower(p.firm), lowerQuery)
  }

  function Matcher(lowerQuery: string): Project -> bool
  {
    (p: Project) => Matches(p, lowerQuery)
  }

  /** The suggestions for a query: none for the empty query, otherwise the matching projects in data order. */
  function Suggestions(ps: seq<Project>, query: string): (r: seq<Project>)
    ensures query == "" ==> r == []
    ensures |r| <= |ps|
  {
    if |query| == 0 then [] else Filter(Matcher(Lower(query)), ps)
  }

  /** A non-empty query keeps, in order, exactly the projects whose title or firm contains it, ignoring case. */
  lemma SuggestionsSpec(ps: seq<Project>, query: string)
    requires query != ""
    ensures IsSubsequence(Suggestions(ps, query), ps)
    ensures forall p :: p in Suggestions(ps, query) <==> p in ps && Matches(p, Lower(query))
  {
    FilterIsSubsequence(Matcher(Lower(query)), ps);
  }

  /** The case of the query does not matter. */
  lemma SuggestionsIgnoreCase(ps: seq<Project>, query: string)
    ensures Suggestions(ps, query) == Suggestions(ps, Lower(query))
  {
    LowerIdempotent(query);
  }

  /** A query that contains q somewhere inside is lower-cased into one that contains Lower(q). */
  lemma {:induction false} LowerKeepsContainment(s: string, q: string)
    requires Contains(s, q)
    ensures Contains(Lower(s), Lower(q))
  {
    var k: nat :| k <= |s| && OccursAt(s, q, k);
    assert Lower(s)[k..k + |q|] == Lower(q) by {
      forall i | 0 <= i < |q| ensures Lower(s)[k..k + |q|][i] == Lower(q)[i] {
        assert s[k..k + |q|][i] == q[i];
      }
    }
    assert OccursAt(Lower(s), Lower(q), k);
  }

  lemma {:induction false} ContainsTransitive(s: string, m: string, q: string)
    requires Contains(s, m) && Contains(m, q)
    ensures Contains(s, q)
  {
    var k: nat :| k <= |s| && OccursAt(s, m, k);
    var j: nat :| j <= |m| && OccursAt(m, q, j);
    var a, b := s[k + j..k + j + |q|], m[j..j + |q|];
    forall i | 0 <= i < |q| ensures a[i] == b[i] {
      assert s[k..k + |m|][j + i] == m[j + i];
    }
    assert a == b;
    assert OccursAt(s, q, k + j);
  }

  /** Typing more narrows the list: a query containing an earlier non-empty query keeps only
      projects the earlier one kept, and no more of them. */
  lemma RefinedQueryNarrows(ps: seq<Project>, query: string, longer: string)
    requires query != "" && Contains(longer, query)
    ensures forall p :: p in Suggestions(ps, longer) ==> p in Suggestions(ps, query)
    ensures |Suggestions(ps, longer)| <= |Suggestions(ps, query)|
  {
    assert |longer| >= |query| by {
      var k: nat :| k <= |longer| && OccursAt(longer, query, k);
    }
    LowerKeepsContainment(longer, query);
    forall p | Matches(p, Lower(longer)) ensures Matches(p, Lower(query)) {
      if Contains(Lower(p.title), Lower(longer)) {
        ContainsTransitive(Lower(p.title), Lower(longer), Lower(query));
      } else {
        ContainsTransitive(Lower(p.firm), Lower(longer), Lower(query));
      }
    }
    FilterMonotone(Matcher(Lower(longer)), Matcher(Lower(query)), ps);
  }
}

// String helpers shared by the search box and the sector classifier:
// ASCII lower-casing (standing in for String.prototype.toLowerCase) and
// substring containment (String.prototype.includes).
module Text {

  /** Lower-case one character; only the ASCII capitals change. */
  function LowerChar(c: char): (r: char)
    ensures 'A' <= c <= 'Z' ==> 'a' <= r <= 'z' && r as int == c as int + 32
    ensures !('A' <= c <= 'Z') ==> r == c
  {
    if 'A' <= c <= 'Z' then (c as int + 32) as char else c
  }

  /** Lower-case a string character by character. */
  function Lower(s: string): (r: string)
    ensures |r| == |s|
    ensures forall i :: 0 <= i < |s| ==> r[i] == LowerChar(s[i])
  {
    seq(|s|, i requires 0 <= i < |s| => LowerChar(s[i]))
  }

  lemma LowerIdempotent(s: string)
    ensures Lower(Lower(s)) == Lower(s)
  {
    assert forall i :: 0 <= i < |s| ==> Lower(Lower(s))[i] == Lower(s)[i];
  }

  lemma LowerConcat(a: string, b: string)
    ensures Lower(a + b) == Lower(a) + Lower(b)
  {
    assert forall i :: 0 <= i < |a + b| ==> Lower(a + b)[i] == (Lower(a) + Lower(b))[i];
  }

  /** q occurs in s starting at index k. */
  predicate OccursAt(s: string, q: string, k: nat)
  {
    k + |q| <= |s| && s[k..k + |q|] == q
  }

  /** JavaScript's s.includes(q): q occurs somewhere in s (the empty string occurs everywhere). */
  predicate Contains(s: string, q: string)
  {
    exists k: nat | k <= |s| :: OccursAt(s, q, k)
  }

  lemma ContainsAt(s: string, q: string, k: nat)
    requires OccursAt(s, q, k)
    ensures Contains(s, q)
  {
  }

  lemma ContainsSelf(s: string)
    ensures Contains(s, s)
  {
    assert OccursAt(s, s, 0);
  }

  lemma {:induction false} ContainsInLeft(a: string, b: string, q: string)
    requires Contains(a, q)
    ensures Contains(a + b, q)
  {
    var k: nat :| k <= |a| && OccursAt(a, q, k);
    assert (a + b)[k..k + |q|] == a[k..k + |q|];
    assert OccursAt(a + b, q, k);
  }

  lemma {:induction false} ContainsInRight(a: string, b: string, q: string)
    requires Contains(b, q)
    ensures Contains(a + b, q)
  {
    var k: nat :| k <= |b| && OccursAt(b, q, k);
    assert (a + b)[|a| + k..|a| + k + |q|] == b[k..k + |q|];
    assert OccursAt(a + b, q, |a| + k);
  }

  /** An occurrence of q in a + [x] + b that does not use x lies in a or in b. */
  lemma {:induction false} SplitRefutes(a: string, x: char, b: string, q: string)
    requires x !in q && !Contains(a, q) && !Contains(b, q)
    ensures !Contains(a + [x] + b, q)
  {
    var s := a + [x] + b;
    forall k: nat | k <= |s| ensures !OccursAt(s, q, k) {
      if k + |q| <= |s| {
        if k + |q| <= |a| {
          assert a[k..k + |q|] == s[k..k + |q|];
          assert !OccursAt(a, q, k);
        } else if k > |a| {
          assert b[k - |a| - 1..k - |a| - 1 + |q|] == s[k..k + |q|];
          assert !OccursAt(b, q, k - |a| - 1);
        } else {
          assert s[k..k + |q|][|a| - k] == x;
        }
      }
    }
  }

  // ---- Words: a phrase is its words joined by single spaces ----

  function Unwords(ws: seq<string>): (r: string)
    ensures |ws| == 1 ==> r == ws[0]
  {
    if |ws| <= 1 then (if ws == [] then "" else ws[0])
    else ws[0] + " " + Unwords(ws[1..])
  }

  function LowerAll(ws: seq<string>): (r: seq<string>)
    ensures |r| == |ws| && forall i :: 0 <= i < |ws| ==> r[i] == Lower(ws[i])
  {
    seq(|ws|, i requires 0 <= i < |ws| => Lower(ws[i]))
  }

  lemma {:induction false} LowerUnwords(ws: seq<string>)
    ensures Lower(Unwords(ws)) == Unwords(LowerAll(ws))
    decreases |ws|
  {
    if |ws| > 1 {
      LowerUnwords(ws[1..]);
      assert LowerAll(ws)[1..] == LowerAll(ws[1..]);
      LowerConcat(ws[0] + " ", Unwords(ws[1..]));
      LowerConcat(ws[0], " ");
    }
  }

  /** A keyword found inside one word is found in the phrase. */
  lemma {:induction false} ContainsWord(ws: seq<string>, i: nat, q: string)
    requires i < |ws| && Contains(ws[i], q)
    ensures Contains(Unwords(ws), q)
    decreases |ws|
  {
    if |ws| > 1 {
      if i == 0 {
        ContainsInLeft(ws[0], " " + Unwords(ws[1..]), q);
        assert ws[0] + " " + Unwords(ws[1..]) == ws[0] + (" " + Unwords(ws[1..]));
      } else {
        ContainsWord(ws[1..], i - 1, q);
        ContainsInRight(ws[0] + " ", Unwords(ws[1..]), q);
      }
    }
  }

  /** A keyword without spaces that occurs in no word does not occur in the phrase. */
  lemma {:induction false} AbsentFromWords(ws: seq<string>, q: string)
    requires q != "" && ' ' !in q
    requires forall i :: 0 <= i < |ws| ==> !Contains(ws[i], q)
    ensures !Contains(Unwords(ws), q)
    decreases |ws|
  {
    if |ws| == 0 {
      assert Unwords(ws) == "";
    } else if |ws| > 1 {
      AbsentFromWords(ws[1..], q);
      SplitRefutes(ws[0], ' ', Unwords(ws[1..]), q);
      assert ws[0] + [' '] + Unwords(ws[1..]) == Unwords(ws);
    }
  }

  // ---- Ordering: String.prototype.localeCompare modelled as code-point order ----

  /** a sorts strictly before b: a proper prefix of b, or smaller at the first difference. */
  predicate Before(a: string, b: string)
    decreases |a|
  {
    if a == [] then b != []
    else if b == [] then false
    else if a[0] != b[0] then a[0] < b[0]
    else Before(a[1..], b[1..])
  }

  lemma {:induction false} BeforeIrreflexive(a: string)
    ensures !Before(a, a)
    decreases |a|
  {
    if a != [] { BeforeIrreflexive(a[1..]); }
  }

  lemma {:induction false} BeforeTransitive(a: string, b: string, c: string)
    requires Before(a, b) && Before(b, c)
    ensures Before(a, c)
    decreases |a|
  {
    if a != [] && a[0] == b[0] && b[0] == c[0] {
      BeforeTransitive(a[1..], b[1..], c[1..]);
    }
  }

  lemma {:induction false} BeforeTotal(a: string, b: string)
    requires a != b
    ensures Before(a, b) || Before(b, a)
    decreases |a|
  {
    if a != [] && b != [] && a[0] == b[0] {
      assert a == [a[0]] + a[1..] && b == [b[0]] + b[1..];
      BeforeTotal(a[1..], b[1..]);
    }
  }

  lemma {:induction false} BeforeAsymmetric(a: string, b: string)
    requires Before(a, b)
    ensures !Before(b, a)
  {
    if Before(b, a) {
      BeforeTransitive(a, b, a);
      BeforeIrreflexive(a);
    }
  }
}

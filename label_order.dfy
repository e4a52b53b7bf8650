/**
 * The order the tree sorts commands in.  The comparator handed to
 * `Array.prototype.sort` is `(a, b) => a.label > b.label ? -1 : 1`, where `>`
 * on strings is lexicographic comparison of characters with a proper prefix
 * ordered first.  This module defines that comparison, proves it is a strict
 * total order, and gives a reference sort that the in-place sort is checked
 * against.
 */
module LabelOrder {
  import opened Commands

  /** `a < b` on JavaScript strings. */
  predicate LexLess(a: string, b: string)
    decreases |a|
  {
    if |a| == 0 then |b| > 0
    else if |b| == 0 then false
    else if a[0] != b[0] then a[0] < b[0]
    else LexLess(a[1..], b[1..])
  }

  lemma {:induction false} LexLessIrreflexive(a: string)
    ensures !LexLess(a, a)
  {
    if |a| > 0 {
      LexLessIrreflexive(a[1..]);
    }
  }

  /** `a` and `b` agree before position `i`, where `a` has the smaller character. */
  predicate BelowAt(a: string, b: string, i: int) {
    0 <= i < |a| && i < |b| && a[..i] == b[..i] && a[i] < b[i]
  }

  /**
   * The textbook definition: `a` is below `b` exactly when it is a proper
   * prefix of `b`, or at the first position where they differ `a` has the
   * smaller character.
   */
  lemma {:induction false} LexLessFirstDifference(a: string, b: string)
    ensures LexLess(a, b) <==> a < b || exists i :: BelowAt(a, b, i)
  {
    if |a| > 0 && |b| > 0 {
      if a[0] == b[0] {
        LexLessFirstDifference(a[1..], b[1..]);
        SharedHeadBelowAt(a, b);
        SharedHeadPrefix(a, b);
      } else {
        assert BelowAt(a, b, 0) || BelowAt(b, a, 0);
        if i :| BelowAt(a, b, i) {
          assert a[i] == a[..i + 1][i];
        }
      }
    }
  }

  /** Dropping a shared first character shifts the position of difference by one. */
  lemma SharedHeadBelowAt(a: string, b: string)
    requires |a| > 0 && |b| > 0 && a[0] == b[0]
    ensures (exists i :: BelowAt(a, b, i)) <==> (exists i :: BelowAt(a[1..], b[1..], i))
  {
    if i :| BelowAt(a[1..], b[1..], i) {
      assert a[..i + 1] == [a[0]] + a[1..][..i] && b[..i + 1] == [b[0]] + b[1..][..i];
      assert BelowAt(a, b, i + 1);
    }
    if i :| BelowAt(a, b, i) {
      assert i > 0;
      assert a[1..][..i - 1] == a[..i][1..] && b[1..][..i - 1] == b[..i][1..];
      assert BelowAt(a[1..], b[1..], i - 1);
    }
  }

  /** Dropping a shared first character keeps the proper-prefix relation. */
  lemma SharedHeadPrefix(a: string, b: string)
    requires |a| > 0 && |b| > 0 && a[0] == b[0]
    ensures a < b <==> a[1..] < b[1..]
  {
    if a[1..] < b[1..] {
      assert a == [a[0]] + a[1..] && b == [b[0]] + b[1..];
    }
  }

  lemma {:induction false} LexLessTransitive(a: string, b: string, c: string)
    requires LexLess(a, b) && LexLess(b, c)
    ensures LexLess(a, c)
  {
    if |a| > 0 && |b| > 0 && |c| > 0 && a[0] == b[0] == c[0] {
      LexLessTransitive(a[1..], b[1..], c[1..]);
    }
  }

  /** Two different strings are always ordered one way or the other. */
  lemma {:induction false} LexLessTotal(a: string, b: string)
    requires a != b
    ensures LexLess(a, b) || LexLess(b, a)
  {
    if |a| > 0 && |b| > 0 && a[0] == b[0] {
      assert a == [a[0]] + a[1..] && b == [b[0]] + b[1..];
      LexLessTotal(a[1..], b[1..]);
    }
  }

  lemma {:induction false} LexLessAsymmetric(a: string, b: string)
    requires LexLess(a, b)
    ensures !LexLess(b, a)
  {
    if LexLess(b, a) {
      LexLessTransitive(a, b, a);
      LexLessIrreflexive(a);
    }
  }

  /** "Not below" is transitive: the order the sort establishes chains. */
  lemma NotBelowTransitive(a: string, b: string, c: string)
    requires !LexLess(a, b) && !LexLess(b, c)
    ensures !LexLess(a, c)
  {
    if LexLess(a, c) {
      if a != b && b != c {
        LexLessTotal(a, b);
        LexLessTotal(b, c);
        LexLessTransitive(c, b, a);
        LexLessAsymmetric(c, a);
      }
    }
  }

  /** Every label is at least every later one (ties in any order). */
  predicate SortedDescending(s: seq<Command>) {
    forall i, j :: 0 <= i < j < |s| ==> !LexLess(s[i].labelText, s[j].labelText)
  }

  /** Every label is strictly above every later one. */
  predicate StrictlyDescending(s: seq<Command>) {
    forall i, j :: 0 <= i < j < |s| ==> LexLess(s[j].labelText, s[i].labelText)
  }

  predicate DistinctLabels(s: seq<Command>) {
    forall i, j :: 0 <= i < j < |s| ==> s[i].labelText != s[j].labelText
  }

  /** With pairwise distinct labels, descending order is strict. */
  lemma SortedDistinctIsStrict(s: seq<Command>)
    requires SortedDescending(s) && DistinctLabels(s)
    ensures StrictlyDescending(s)
  {
    forall i, j | 0 <= i < j < |s|
      ensures LexLess(s[j].labelText, s[i].labelText)
    {
      LexLessTotal(s[i].labelText, s[j].labelText);
    }
  }

  /** Reference sort: insert `c` before the first entry whose label is not above its own. */
  function Insert(c: Command, s: seq<Command>): seq<Command> {
    if |s| == 0 then [c]
    else if LexLess(c.labelText, s[0].labelText) then [s[0]] + Insert(c, s[1..])
    else [c] + s
  }

  function SortByLabel(s: seq<Command>): seq<Command> {
    if |s| == 0 then [] else Insert(s[0], SortByLabel(s[1..]))
  }

  lemma {:induction false} InsertPermutes(c: Command, s: seq<Command>)
    ensures multiset(Insert(c, s)) == multiset(s) + multiset{c}
  {
    if |s| > 0 && LexLess(c.labelText, s[0].labelText) {
      InsertPermutes(c, s[1..]);
      assert s == [s[0]] + s[1..];
    }
  }

  /** An entry not below any entry of a sorted list can go in front of it. */
  lemma PrependSorted(x: Command, s: seq<Command>)
    requires SortedDescending(s)
    requires forall j :: 0 <= j < |s| ==> !LexLess(x.labelText, s[j].labelText)
    ensures SortedDescending([x] + s)
  {
    var r := [x] + s;
    forall i, j | 0 <= i < j < |r|
      ensures !LexLess(r[i].labelText, r[j].labelText)
    {
      assert r[j] == s[j - 1];
      if i > 0 {
        assert r[i] == s[i - 1];
      }
    }
  }

  lemma {:induction false} InsertSorted(c: Command, s: seq<Command>)
    requires SortedDescending(s)
    ensures SortedDescending(Insert(c, s))
  {
    if |s| == 0 {
    } else if LexLess(c.labelText, s[0].labelText) {
      var rest := Insert(c, s[1..]);
      InsertSorted(c, s[1..]);
      InsertPermutes(c, s[1..]);
      forall j | 0 <= j < |rest|
        ensures !LexLess(s[0].labelText, rest[j].labelText)
      {
        assert rest[j] in multiset(rest);
        if rest[j] == c {
          LexLessAsymmetric(c.labelText, s[0].labelText);
        } else {
          assert rest[j] in multiset(s[1..]);
          var k :| 0 <= k < |s[1..]| && s[1..][k] == rest[j];
          assert s[k + 1] == rest[j];
        }
      }
      PrependSorted(s[0], rest);
    } else {
      forall j | 0 <= j < |s|
        ensures !LexLess(c.labelText, s[j].labelText)
      {
        if j > 0 {
          NotBelowTransitive(c.labelText, s[0].labelText, s[j].labelText);
        }
      }
      PrependSorted(c, s);
    }
  }

  /** The reference sort returns a descending permutation of its input. */
  lemma {:induction false} SortByLabelCorrect(s: seq<Command>)
    ensures multiset(SortByLabel(s)) == multiset(s)
    ensures SortedDescending(SortByLabel(s))
  {
    if |s| > 0 {
      SortByLabelCorrect(s[1..]);
      InsertPermutes(s[0], SortByLabel(s[1..]));
      InsertSorted(s[0], SortByLabel(s[1..]));
      assert s == [s[0]] + s[1..];
    }
  }

  /** Two descending permutations of one list with distinct labels start alike. */
  lemma SortedPermutationsShareHead(s: seq<Command>, t: seq<Command>)
    requires |s| > 0 && multiset(s) == multiset(t)
    requires SortedDescending(s) && SortedDescending(t) && DistinctLabels(s)
    ensures |t| > 0 && s[0] == t[0]
  {
    assert |s| == |multiset(s)| == |t|;
    assert t[0] in multiset(s) && s[0] in multiset(t);
    var k :| 0 <= k < |s| && s[k] == t[0];
    var m :| 0 <= m < |t| && t[m] == s[0];
    if k != 0 && m != 0 {
      LexLessTotal(s[0].labelText, s[k].labelText);
    }
  }

  lemma TailMultiset(s: seq<Command>)
    requires |s| > 0
    ensures multiset(s[1..]) == multiset(s) - multiset{s[0]}
  {
    assert s == [s[0]] + s[1..];
  }

  /**
   * When labels are pairwise distinct, a descending permutation is unique:
   * every correct sort of the list yields the same order.
   */
  lemma {:induction false} SortedPermutationUnique(s: seq<Command>, t: seq<Command>)
    requires multiset(s) == multiset(t)
    requires SortedDescending(s) && SortedDescending(t) && DistinctLabels(s)
    ensures s == t
  {
    if |s| == 0 {
      assert |t| == |multiset(t)| == 0;
    } else {
      SortedPermutationsShareHead(s, t);
      TailMultiset(s);
      TailMultiset(t);
      SortedPermutationUnique(s[1..], t[1..]);
      assert s == [s[0]] + s[1..] && t == [t[0]] + t[1..];
    }
  }

  /** Commands labelled "b", "a", "c" can only end up ordered "c", "b", "a". */
  lemma SortExample(b: Command, a: Command, c: Command, s: seq<Command>)
    requires b.labelText == "b" && a.labelText == "a" && c.labelText == "c"
    requires multiset(s) == multiset([b, a, c]) && SortedDescending(s)
    ensures s == [c, b, a]
  {
    var t := [c, b, a];
    assert !LexLess("b", "a") && !LexLess("c", "b") && !LexLess("c", "a");
    assert SortedDescending(t);
    assert DistinctLabels(t);
    assert multiset(t) == multiset([b, a, c]);
    SortedPermutationUnique(t, s);
  }
}

/** Order-keeping list operations on string lists: `filter` against another list and
    the absence of duplicates. */
module Lists {
  predicate NoDuplicates(xs: seq<string>) {
    forall i, j :: 0 <= i < j < |xs| ==> xs[i] != xs[j]
  }

  /** `xs.filter(x => !ys.includes(x))`. */
  function Exclude(xs: seq<string>, ys: seq<string>): (r: seq<string>)
    ensures |r| <= |xs|
  {
    if xs == [] then []
    else (if xs[0] in ys then [] else [xs[0]]) + Exclude(xs[1..], ys)
  }

  /** What the filter keeps: exactly the elements of `xs` that are not in `ys`. */
  lemma {:induction false} ExcludeMembers(xs: seq<string>, ys: seq<string>)
    ensures forall x :: x in Exclude(xs, ys) <==> x in xs && x !in ys
  {
    if xs != [] {
      ExcludeMembers(xs[1..], ys);
      assert xs == [xs[0]] + xs[1..];
    }
  }

  /** Filtering distributes over concatenation, so relative order is kept. */
  lemma {:induction false} ExcludeAppend(a: seq<string>, b: seq<string>, ys: seq<string>)
    ensures Exclude(a + b, ys) == Exclude(a, ys) + Exclude(b, ys)
  {
    if a == [] {
      assert a + b == b;
    } else {
      assert (a + b)[0] == a[0] && (a + b)[1..] == a[1..] + b;
      ExcludeAppend(a[1..], b, ys);
    }
  }

  /** Nothing is dropped when no element is excluded. */
  lemma {:induction false} ExcludeNone(xs: seq<string>, ys: seq<string>)
    requires forall i :: 0 <= i < |xs| ==> xs[i] !in ys
    ensures Exclude(xs, ys) == xs
  {
    if xs != [] {
      ExcludeNone(xs[1..], ys);
    }
  }

  /** Filtering a list without duplicates leaves a list without duplicates. */
  lemma {:induction false} ExcludeNoDuplicates(xs: seq<string>, ys: seq<string>)
    requires NoDuplicates(xs)
    ensures NoDuplicates(Exclude(xs, ys))
  {
    if xs != [] {
      assert NoDuplicates(xs[1..]) by {
        forall i, j | 0 <= i < j < |xs[1..]| ensures xs[1..][i] != xs[1..][j] {
          assert xs[1..][i] == xs[i + 1] && xs[1..][j] == xs[j + 1];
        }
      }
      ExcludeNoDuplicates(xs[1..], ys);
      ExcludeMembers(xs[1..], ys);
      var rest := Exclude(xs[1..], ys);
      assert xs[0] !in xs[1..];
      assert xs[0] !in rest;
      var r := Exclude(xs, ys);
      forall i, j | 0 <= i < j < |r| ensures r[i] != r[j] {
        if xs[0] !in ys && i == 0 {
          assert r[j] == rest[j - 1];
        }
      }
    }
  }

  /** Removing a name the list does not contain changes nothing. */
  lemma RemoveAbsent(xs: seq<string>, d: string)
    requires d !in xs
    ensures Exclude(xs, [d]) == xs
  {
    ExcludeNone(xs, [d]);
  }

  /** Removing a name that occurs once deletes exactly that occurrence. */
  lemma RemoveOnce(before: seq<string>, d: string, after: seq<string>)
    requires d !in before && d !in after
    ensures Exclude(before + ([d] + after), [d]) == before + after
  {
    var rest := [d] + after;
    calc {
      Exclude(before + rest, [d]);
      == { ExcludeAppend(before, rest, [d]); }
      Exclude(before, [d]) + Exclude(rest, [d]);
      == { RemoveAbsent(before, d); }
      before + Exclude(rest, [d]);
      == { ExcludeAppend([d], after, [d]); }
      before + (Exclude([d], [d]) + Exclude(after, [d]));
      == { RemoveSelf(d); RemoveAbsent(after, d); }
      before + ([] + after);
      == { assert [] + after == after; }
      before + after;
    }
  }

  /** A one-element list loses its element. */
  lemma RemoveSelf(d: string)
    ensures Exclude([d], [d]) == []
  {
  }

  /** In a list without duplicates, the name at `k` occurs nowhere else. */
  lemma OccursOnlyAt(xs: seq<string>, k: nat)
    requires NoDuplicates(xs) && k < |xs|
    ensures xs == xs[..k] + ([xs[k]] + xs[k + 1..])
    ensures xs[k] !in xs[..k] && xs[k] !in xs[k + 1..]
  {
    forall i | 0 <= i < k ensures xs[..k][i] != xs[k] { assert xs[..k][i] == xs[i]; }
    var after := xs[k + 1..];
    forall i | 0 <= i < |after| ensures after[i] != xs[k] { assert after[i] == xs[k + 1 + i]; }
  }

  /** Appending a new name and then removing it gives back the list. */
  lemma AppendThenRemove(xs: seq<string>, d: string)
    requires d !in xs
    ensures Exclude(xs + [d], [d]) == xs
  {
    ExcludeAppend(xs, [d], [d]);
    ExcludeNone(xs, [d]);
  }
}

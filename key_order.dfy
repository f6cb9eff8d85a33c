/** The order in which a ledger range scan visits keys, and the sorted key index the
    modelled world state keeps so that a scan can follow it. Keys compare code point
    by code point, which for Unicode scalar values is the byte order of their UTF-8
    encodings, the order in which the ledger's state database stores them. */
module KeyOrder {

  /** Strict lexicographic order: `a` is a proper prefix of `b`, or at the first
      position where they differ `a` has the smaller character. */
  predicate Below(a: string, b: string)
  {
    b != [] && (a == [] || a[0] < b[0] || (a[0] == b[0] && Below(a[1..], b[1..])))
  }

  lemma {:induction false} BelowIrreflexive(a: string)
    ensures !Below(a, a)
  {
    if a != [] {
      BelowIrreflexive(a[1..]);
    }
  }

  lemma {:induction false} BelowTransitive(a: string, b: string, c: string)
    requires Below(a, b) && Below(b, c)
    ensures Below(a, c)
  {
    if a != [] && a[0] == b[0] && b[0] == c[0] {
      BelowTransitive(a[1..], b[1..], c[1..]);
    }
  }

  lemma {:induction false} BelowTotal(a: string, b: string)
    ensures a == b || Below(a, b) || Below(b, a)
  {
    if a != [] && b != [] && a[0] == b[0] {
      BelowTotal(a[1..], b[1..]);
      if a[1..] == b[1..] {
        assert a == [a[0]] + a[1..] && b == [b[0]] + b[1..];
      }
    }
  }

  /** Strictly increasing, hence free of duplicates. */
  predicate Sorted(s: seq<string>)
  {
    forall i, j :: 0 <= i < j < |s| ==> Below(s[i], s[j])
  }

  function Elems(s: seq<string>): set<string>
  {
    set k | k in s
  }

  /** Prepending a key below every key of a sorted sequence keeps it sorted. */
  lemma SortedCons(x: string, r: seq<string>)
    requires Sorted(r)
    requires forall y :: y in r ==> Below(x, y)
    ensures Sorted([x] + r)
  {
    var s := [x] + r;
    forall i, j | 0 <= i < j < |s| ensures Below(s[i], s[j]) {
      if i == 0 {
        assert s[j] == r[j - 1];
      } else {
        assert s[i] == r[i - 1] && s[j] == r[j - 1];
      }
    }
  }

  /** The first key of a sorted sequence is below every later one and occurs once. */
  lemma SortedHead(s: seq<string>)
    requires Sorted(s) && s != []
    ensures Sorted(s[1..])
    ensures forall y :: y in s[1..] ==> Below(s[0], y)
    ensures s[0] !in s[1..]
  {
    BelowIrreflexive(s[0]);
    forall y | y in s[1..] ensures Below(s[0], y) {
      var j :| 0 <= j < |s[1..]| && s[1..][j] == y;
      assert s[j + 1] == y;
    }
  }

  /** Adds `k` to a sorted key index at its place; an index that already holds it
      is returned unchanged. */
  function Insert(s: seq<string>, k: string): (r: seq<string>)
    requires Sorted(s)
    ensures Sorted(r)
    ensures Elems(r) == Elems(s) + {k}
    ensures |r| == if k in s then |s| else |s| + 1
  {
    if s == [] then [k]
    else if k == s[0] then s
    else if Below(k, s[0]) then
      SortedHead(s);
      forall y | y in s ensures Below(k, y) {
        if y != s[0] { BelowTransitive(k, s[0], y); }
      }
      BelowIrreflexive(k);
      SortedCons(k, s);
      [k] + s
    else
      SortedHead(s);
      BelowTotal(k, s[0]);
      var rest := Insert(s[1..], k);
      assert forall y :: y in rest ==> y in s[1..] || y == k by {
        forall y | y in rest ensures y in s[1..] || y == k {
          assert y in Elems(rest);
        }
      }
      SortedCons(s[0], rest);
      assert Elems([s[0]] + rest) == {s[0]} + Elems(rest);
      assert Elems(s) == {s[0]} + Elems(s[1..]);
      assert k in s <==> k in s[1..];
      [s[0]] + rest
  }

  /** Drops `k` from a sorted key index; an index without it is returned unchanged. */
  function Remove(s: seq<string>, k: string): (r: seq<string>)
    requires Sorted(s)
    ensures Sorted(r)
    ensures Elems(r) == Elems(s) - {k}
    ensures |r| == if k in s then |s| - 1 else |s|
  {
    if s == [] then []
    else
      SortedHead(s);
      assert Elems(s) == {s[0]} + Elems(s[1..]);
      if s[0] == k then s[1..]
      else
        var rest := Remove(s[1..], k);
        assert forall y :: y in rest ==> y in s[1..] by {
          forall y | y in rest ensures y in s[1..] {
            assert y in Elems(rest);
          }
        }
        SortedCons(s[0], rest);
        assert Elems([s[0]] + rest) == {s[0]} + Elems(rest);
        assert k in s <==> k in s[1..];
        [s[0]] + rest
  }
}

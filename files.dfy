/** List operations the providers apply to directory listings:
    `entries.filter((entry) => isImageFile(entry.path))` and
    `images.findIndex((entry) => entry.path === path)`. */
module Files {
  import opened Types

  /** The entries whose path `keep` accepts, in their original order. */
  function Filter(entries: seq<File>, keep: string -> bool): (r: seq<File>)
    ensures |r| <= |entries|
    ensures forall f :: f in r ==> f in entries && keep(f.path)
    ensures forall f :: f in entries && keep(f.path) ==> f in r
  {
    if entries == [] then []
    else (if keep(entries[0].path) then [entries[0]] else []) + Filter(entries[1..], keep)
  }

  /** `a` is obtained from `b` by deleting elements, without reordering. */
  predicate IsSubsequence(a: seq<File>, b: seq<File>)
  {
    a == [] || (b != [] && ((a[0] == b[0] && IsSubsequence(a[1..], b[1..])) || IsSubsequence(a, b[1..])))
  }

  /** The filtered list is a subsequence of the listing: the listing order is kept. */
  lemma {:induction false} FilterIsSubsequence(entries: seq<File>, keep: string -> bool)
    ensures IsSubsequence(Filter(entries, keep), entries)
  {
    if entries != [] {
      FilterIsSubsequence(entries[1..], keep);
      var rest := Filter(entries[1..], keep);
      if keep(entries[0].path) {
        assert Filter(entries, keep) == [entries[0]] + rest;
        assert (([entries[0]] + rest)[1..]) == rest;
      } else {
        assert Filter(entries, keep) == rest;
      }
    }
  }

  /** Every occurrence of a kept entry survives, duplicates included, and no other
      entry does. */
  lemma {:induction false} FilterKeepsOccurrences(entries: seq<File>, keep: string -> bool, f: File)
    ensures multiset(Filter(entries, keep))[f] == if keep(f.path) then multiset(entries)[f] else 0
  {
    if entries != [] {
      FilterKeepsOccurrences(entries[1..], keep, f);
      assert entries == [entries[0]] + entries[1..];
      var head := if keep(entries[0].path) then [entries[0]] else [];
      assert Filter(entries, keep) == head + Filter(entries[1..], keep);
    }
  }

  /** Filtering a concatenation filters each part: order across the parts is kept too. */
  lemma {:induction false} FilterAppend(a: seq<File>, b: seq<File>, keep: string -> bool)
    ensures Filter(a + b, keep) == Filter(a, keep) + Filter(b, keep)
  {
    if a != [] {
      assert (a + b)[1..] == a[1..] + b;
      FilterAppend(a[1..], b, keep);
    } else {
      assert a + b == b;
    }
  }

  /** A list that is already filtered is left as it is. */
  lemma {:induction false} FilterIdempotent(entries: seq<File>, keep: string -> bool)
    ensures Filter(Filter(entries, keep), keep) == Filter(entries, keep)
  {
    if entries != [] {
      FilterIdempotent(entries[1..], keep);
      var rest := Filter(entries[1..], keep);
      if keep(entries[0].path) {
        assert Filter(entries, keep) == [entries[0]] + rest;
        FilterAppend([entries[0]], rest, keep);
        assert [entries[0]][1..] == [];
        assert Filter([entries[0]], keep) == [entries[0]];
      } else {
        assert Filter(entries, keep) == rest;
      }
    }
  }

  /** The first position whose path equals `path`, or -1 when there is none. */
  function FindIndex(files: seq<File>, path: string): (r: int)
    ensures -1 <= r < |files|
    ensures r == -1 <==> forall i :: 0 <= i < |files| ==> files[i].path != path
    ensures r >= 0 ==> files[r].path == path && forall i :: 0 <= i < r ==> files[i].path != path
  {
    if files == [] then -1
    else if files[0].path == path then 0
    else
      var k := FindIndex(files[1..], path);
      if k == -1 then -1 else k + 1
  }
}

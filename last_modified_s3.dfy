/**
 * Get-LastModified-S3: `list_recently_modified_files` gathers the objects of
 * every `list_objects_v2` page, sorts them newest first and returns the first
 * `num_files` of them as (formatted time, key) pairs. Times are integers and
 * the `strftime` formatter is the parameter `format`.
 */
module LastModifiedS3 {
  import opened Wrappers
  import opened Seqs

  datatype S3Object = S3Object(key: string, lastModified: int)

  /** A listing page; `contents` is None when the page has no 'Contents' entry. */
  datatype ListPage = ListPage(contents: Option<seq<S3Object>>)

  /** The function's result triple: (time, key) pairs, the bucket name and the caller's account id. */
  datatype RecentFiles = RecentFiles(files: seq<(string, string)>, bucketName: string, accountId: string)

  function PageObjects(page: ListPage): seq<S3Object>
  {
    page.contents.GetOr([])
  }

  /** Every page's objects, in page order; a page without 'Contents' contributes nothing. */
  function ListedObjects(pages: seq<ListPage>): seq<S3Object>
  {
    Concat(seq(|pages|, i requires 0 <= i < |pages| => PageObjects(pages[i])))
  }

  /** The accumulation loop over the pages. */
  method CollectObjects(pages: seq<ListPage>) returns (all: seq<S3Object>)
    ensures all == ListedObjects(pages)
  {
    ghost var parts := seq(|pages|, i requires 0 <= i < |pages| => PageObjects(pages[i]));
    all := [];
    var p := 0;
    while p < |pages|
      invariant 0 <= p <= |pages|
      invariant all == Concat(parts[..p])
    {
      assert parts[..p + 1][..p] == parts[..p];
      if pages[p].contents.Some? {
        all := all + pages[p].contents.value;
      }
      p := p + 1;
    }
    assert parts[..|pages|] == parts;
  }

  /** Non-increasing `lastModified` along the sequence. */
  predicate NewestFirst(s: seq<S3Object>)
  {
    forall i, j :: 0 <= i < j < |s| ==> s[i].lastModified >= s[j].lastModified
  }

  /** The objects of `s` modified at time `t`, in their order in `s`. */
  function ModifiedAt(s: seq<S3Object>, t: int): seq<S3Object>
  {
    if s == [] then []
    else ModifiedAt(s[..|s| - 1], t) + (if s[|s| - 1].lastModified == t then [s[|s| - 1]] else [])
  }

  /** `x` placed after every element of `sorted` that is at least as recent. */
  function Insert(sorted: seq<S3Object>, x: S3Object): seq<S3Object>
  {
    if sorted == [] || sorted[|sorted| - 1].lastModified >= x.lastModified then sorted + [x]
    else Insert(sorted[..|sorted| - 1], x) + [sorted[|sorted| - 1]]
  }

  /**
   * `sort(key=lambda x: x['LastModified'], reverse=True)`: a stable sort
   * newest first (Python keeps equal keys in input order under reverse=True).
   */
  function SortNewestFirst(s: seq<S3Object>): seq<S3Object>
  {
    if s == [] then [] else Insert(SortNewestFirst(s[..|s| - 1]), s[|s| - 1])
  }

  /** Insertion adds exactly `x`. */
  lemma {:induction false} InsertPermutes(sorted: seq<S3Object>, x: S3Object)
    ensures multiset(Insert(sorted, x)) == multiset(sorted) + multiset{x}
  {
    if !(sorted == [] || sorted[|sorted| - 1].lastModified >= x.lastModified) {
      var init := sorted[..|sorted| - 1];
      assert sorted == init + [sorted[|sorted| - 1]];
      InsertPermutes(init, x);
    }
  }

  /** Appending an object no more recent than any other keeps a sequence newest first. */
  lemma NewestFirstSnoc(s: seq<S3Object>, y: S3Object)
    requires NewestFirst(s)
    requires forall k :: 0 <= k < |s| ==> s[k].lastModified >= y.lastModified
    ensures NewestFirst(s + [y])
  {
  }

  /** Insertion into a newest-first sequence keeps it newest first. */
  lemma {:induction false} InsertSorted(sorted: seq<S3Object>, x: S3Object)
    requires NewestFirst(sorted)
    ensures NewestFirst(Insert(sorted, x))
  {
    if sorted == [] || sorted[|sorted| - 1].lastModified >= x.lastModified {
      NewestFirstSnoc(sorted, x);
    } else {
      var init, y := sorted[..|sorted| - 1], sorted[|sorted| - 1];
      InsertSorted(init, x);
      InsertPermutes(init, x);
      var r' := Insert(init, x);
      forall k | 0 <= k < |r'| ensures r'[k].lastModified >= y.lastModified {
        assert r'[k] in multiset(r');
      }
      NewestFirstSnoc(r', y);
    }
  }

  /** Insertion puts `x` after every object of its own time that is already there. */
  lemma {:induction false} InsertStable(sorted: seq<S3Object>, x: S3Object, t: int)
    ensures ModifiedAt(Insert(sorted, x), t) == ModifiedAt(sorted, t) + (if x.lastModified == t then [x] else [])
  {
    var r := Insert(sorted, x);
    if sorted == [] || sorted[|sorted| - 1].lastModified >= x.lastModified {
      assert r[..|r| - 1] == sorted;
    } else {
      var init := sorted[..|sorted| - 1];
      InsertStable(init, x, t);
      var r' := Insert(init, x);
      assert r[..|r| - 1] == r';
    }
  }

  /**
   * The sort's result is newest first, is a permutation of its input, and is
   * stable: the objects sharing one modification time keep their input order.
   */
  lemma {:induction false} SortNewestFirstCorrect(s: seq<S3Object>)
    ensures NewestFirst(SortNewestFirst(s))
    ensures multiset(SortNewestFirst(s)) == multiset(s)
    ensures forall t :: ModifiedAt(SortNewestFirst(s), t) == ModifiedAt(s, t)
  {
    if s != [] {
      var init := s[..|s| - 1];
      assert s == init + [s[|s| - 1]];
      SortNewestFirstCorrect(init);
      InsertSorted(SortNewestFirst(init), s[|s| - 1]);
      InsertPermutes(SortNewestFirst(init), s[|s| - 1]);
      forall t ensures ModifiedAt(SortNewestFirst(s), t) == ModifiedAt(s, t) {
        InsertStable(SortNewestFirst(init), s[|s| - 1], t);
      }
    }
  }

  /** The array while `x` moves left: `sorted` with `x` at position `j`, then `rest`. */
  function Shifting(sorted: seq<S3Object>, j: nat, x: S3Object, rest: seq<S3Object>): seq<S3Object>
    requires j <= |sorted|
  {
    sorted[..j] + [x] + sorted[j..] + rest
  }

  /**
   * One insertion step: `a[..i]` is sorted; swaps `a[i]` leftwards past the
   * strictly older objects before it.
   */
  method InsertInPlace(a: array<S3Object>, i: nat)
    requires i < a.Length
    modifies a
    ensures a[..i + 1] == Insert(old(a[..i]), old(a[i]))
    ensures a[i + 1..] == old(a[i + 1..])
  {
    ghost var sorted, rest := a[..i], a[i + 1..];
    var x := a[i];
    var j := i;
    assert sorted[..j] == sorted && sorted[j..] == [];
    assert a[..] == Shifting(sorted, j, x, rest);
    while j > 0 && a[j - 1].lastModified < x.lastModified
      invariant 0 <= j <= i
      invariant a[..] == Shifting(sorted, j, x, rest)
      invariant forall k :: j <= k < i ==> sorted[k].lastModified < x.lastModified
    {
      SwapStep(sorted, j, x, rest);
      assert a[j - 1] == a[..][j - 1] == sorted[j - 1];
      a[j - 1], a[j] := a[j], a[j - 1];
      j := j - 1;
    }
    InsertAt(sorted, j, x);
    InsertedLayout(sorted, j, x, rest);
  }

  /** Swapping `x` with the object before it moves it one place left. */
  lemma SwapStep(sorted: seq<S3Object>, j: nat, x: S3Object, rest: seq<S3Object>)
    requires 0 < j <= |sorted|
    ensures var s := Shifting(sorted, j, x, rest);
      && |s| == |sorted| + 1 + |rest| && s[j] == x && s[j - 1] == sorted[j - 1]
      && s[j - 1 := x][j := sorted[j - 1]] == Shifting(sorted, j - 1, x, rest)
  {
  }

  /** Where the insertion stops, the first i + 1 slots hold the insertion and the rest is untouched. */
  lemma InsertedLayout(sorted: seq<S3Object>, j: nat, x: S3Object, rest: seq<S3Object>)
    requires j <= |sorted|
    ensures var s := Shifting(sorted, j, x, rest);
      s[..|sorted| + 1] == sorted[..j] + [x] + sorted[j..] && s[|sorted| + 1..] == rest
  {
  }

  /**
   * `x` goes in at `j` when every object from `j` on is strictly older and
   * the one before `j` (if any) is at least as recent.
   */
  lemma {:induction false} InsertAt(sorted: seq<S3Object>, j: nat, x: S3Object)
    requires j <= |sorted| && (j == 0 || sorted[j - 1].lastModified >= x.lastModified)
    requires forall k :: j <= k < |sorted| ==> sorted[k].lastModified < x.lastModified
    ensures Insert(sorted, x) == sorted[..j] + [x] + sorted[j..]
  {
    if j < |sorted| {
      var init, y := sorted[..|sorted| - 1], sorted[|sorted| - 1];
      assert y.lastModified < x.lastModified;
      assert Insert(sorted, x) == Insert(init, x) + [y];
      assert forall k :: j <= k < |init| ==> init[k] == sorted[k];
      InsertAt(init, j, x);
      assert init[..j] == sorted[..j] && init[j..] + [y] == sorted[j..];
      assert init[..j] + [x] + (init[j..] + [y]) == (init[..j] + [x] + init[j..]) + [y];
    } else {
      assert sorted[..j] == sorted && sorted[j..] == [];
    }
  }

  /** The in-place sort of `all_objects`, as an insertion sort. */
  method SortInPlace(a: array<S3Object>)
    modifies a
    ensures a[..] == SortNewestFirst(old(a[..]))
  {
    ghost var input := a[..];
    var i := 0;
    while i < a.Length
      invariant 0 <= i <= a.Length
      invariant a[..i] == SortNewestFirst(input[..i])
      invariant a[i..] == input[i..]
    {
      assert input[..i + 1][..i] == input[..i];
      InsertInPlace(a, i);
      i := i + 1;
    }
    assert input[..a.Length] == input;
  }

  function Min(a: int, b: int): int
  {
    if a <= b then a else b
  }

  /**
   * `list_recently_modified_files`. The caller's account id (from STS) and
   * the listing pages are None when that call raises; any such exception
   * makes the function return None. Otherwise the files are the first
   * `numFiles` objects of the newest-first order, as (format(time), key).
   */
  method ListRecentlyModifiedFiles(bucketName: string, numFiles: nat, callerAccount: Option<string>,
                                   pages: Option<seq<ListPage>>, format: int -> string)
    returns (r: Option<RecentFiles>)
    ensures r.None? <==> callerAccount.None? || pages.None?
    ensures r.Some? ==>
              var newest := SortNewestFirst(ListedObjects(pages.value));
              && r.value.bucketName == bucketName && r.value.accountId == callerAccount.value
              && |r.value.files| == Min(numFiles, |newest|)
              && forall i :: 0 <= i < |r.value.files| ==>
                   r.value.files[i] == (format(newest[i].lastModified), newest[i].key)
  {
    if callerAccount.None? || pages.None? {
      return None;
    }
    var all := CollectObjects(pages.value);
    var allObjects := new S3Object[|all|](i requires 0 <= i < |all| => all[i]);
    assert allObjects[..] == all;
    SortInPlace(allObjects);
    var recent := allObjects[..Min(numFiles, allObjects.Length)];
    var files := seq(|recent|, i requires 0 <= i < |recent| => (format(recent[i].lastModified), recent[i].key));
    return Some(RecentFiles(files, bucketName, callerAccount.value));
  }
}

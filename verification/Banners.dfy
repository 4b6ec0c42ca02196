/** The banner list of a store: batch deletion by splicing in descending order, and the
    limit of five. */
module Banners {
  import opened Options

  const MAX_BANNERS: nat := 5

  // ----- Splicing and what it should leave -----

  /** splice(index, 1): nothing happens past the end. */
  function Splice(b: seq<string>, index: int): seq<string>
    requires 0 <= index
  {
    if index < |b| then b[..index] + b[index + 1..] else b
  }

  function SpliceAll(b: seq<string>, indices: seq<int>): seq<string>
    requires NonNegative(indices)
    decreases |indices|
  {
    if |indices| == 0 then b else SpliceAll(Splice(b, indices[0]), indices[1..])
  }

  predicate NonNegative(s: seq<int>) { forall k | 0 <= k < |s| :: 0 <= s[k] }

  /** The banners at the positions that were not selected, in their order. */
  function Keep(b: seq<string>, selected: seq<int>): seq<string> {
    if |b| == 0 then []
    else
      var last := |b| - 1;
      Keep(b[..last], selected) + (if last in selected then [] else [b[last]])
  }

  lemma {:induction false} KeepCongruent(b: seq<string>, s: seq<int>, t: seq<int>)
    requires forall i | 0 <= i < |b| :: i in s <==> i in t
    ensures Keep(b, s) == Keep(b, t)
  {
    if |b| == 0 {
    } else {
      KeepCongruent(b[..|b| - 1], s, t);
    }
  }

  lemma {:induction false} KeepAll(b: seq<string>, s: seq<int>)
    requires forall i | 0 <= i < |b| :: i !in s
    ensures Keep(b, s) == b
  {
    if |b| == 0 {
    } else {
      KeepAll(b[..|b| - 1], s);
    }
  }

  lemma {:induction false} KeepShrinks(b: seq<string>, s: seq<int>)
    ensures |Keep(b, s)| <= |b|
  {
    if |b| == 0 {
    } else {
      KeepShrinks(b[..|b| - 1], s);
    }
  }

  /** Filtering out one position is the splice at that position. */
  lemma {:induction false} KeepButOne(b: seq<string>, i: int)
    requires 0 <= i < |b|
    ensures Keep(b, [i]) == b[..i] + b[i + 1..]
  {
    var last := |b| - 1;
    if i == last {
      KeepAll(b[..last], [i]);
    } else {
      KeepButOne(b[..last], i);
    }
  }

  // ----- Sorting the valid indices -----

  /** The valid indices of a request, in their order. */
  function ValidIndices(indices: seq<int>, n: nat): (valid: seq<int>)
    ensures forall k | 0 <= k < |valid| :: 0 <= valid[k] < n
  {
    if |indices| == 0 then []
    else
      var i := indices[|indices| - 1];
      ValidIndices(indices[..|indices| - 1], n) + (if 0 <= i < n then [i] else [])
  }

  function InvalidIndices(indices: seq<int>, n: nat): seq<int> {
    if |indices| == 0 then []
    else
      var i := indices[|indices| - 1];
      InvalidIndices(indices[..|indices| - 1], n) + (if 0 <= i < n then [] else [i])
  }

  /** How often x was given. */
  function Count(s: seq<int>, x: int): nat {
    if |s| == 0 then 0 else (if s[0] == x then 1 else 0) + Count(s[1..], x)
  }

  lemma {:induction false} CountMembers(s: seq<int>, x: int)
    ensures Count(s, x) > 0 <==> x in s
  {
    if |s| == 0 {
    } else {
      CountMembers(s[1..], x);
    }
  }

  lemma {:induction false} CountAppend(s: seq<int>, y: int, x: int)
    ensures Count(s + [y], x) == Count(s, x) + (if y == x then 1 else 0)
  {
    if |s| == 0 {
    } else {
      CountAppend(s[1..], y, x);
      assert (s + [y])[1..] == s[1..] + [y];
    }
  }

  lemma {:induction false} ValidCount(indices: seq<int>, n: nat, i: int)
    requires 0 <= i < n
    ensures Count(ValidIndices(indices, n), i) == Count(indices, i)
  {
    if |indices| == 0 {
    } else {
      var last := |indices| - 1;
      assert indices == indices[..last] + [indices[last]];
      ValidCount(indices[..last], n, i);
      CountAppend(indices[..last], indices[last], i);
      CountAppend(ValidIndices(indices[..last], n), indices[last], i);
      assert ValidIndices(indices[..last], n) + [] == ValidIndices(indices[..last], n);
    }
  }

  function InsertDescending(x: int, s: seq<int>): seq<int> {
    if |s| == 0 || s[0] <= x then [x] + s else [s[0]] + InsertDescending(x, s[1..])
  }

  /** sort((a, b) => b - a). */
  function SortDescending(s: seq<int>): seq<int> {
    if |s| == 0 then [] else InsertDescending(s[0], SortDescending(s[1..]))
  }

  predicate Descending(s: seq<int>) { forall k | 0 <= k < |s| - 1 :: s[k] >= s[k + 1] }

  lemma {:induction false} InsertIsSorted(x: int, s: seq<int>)
    requires Descending(s)
    ensures var t := InsertDescending(x, s);
      Descending(t) && |t| > 0 && t[0] == (if |s| == 0 || s[0] <= x then x else s[0])
  {
    if |s| > 0 && s[0] > x {
      InsertIsSorted(x, s[1..]);
    }
  }

  lemma {:induction false} InsertAddsOne(y: int, s: seq<int>, x: int)
    ensures Count(InsertDescending(y, s), x) == Count(s, x) + (if y == x then 1 else 0)
  {
    if |s| > 0 && s[0] > y {
      InsertAddsOne(y, s[1..], x);
      var t := InsertDescending(y, s[1..]);
      assert ([s[0]] + t)[1..] == t;
    } else {
      assert ([y] + s)[1..] == s;
    }
  }

  lemma {:induction false} SortIsSorted(s: seq<int>)
    ensures Descending(SortDescending(s))
  {
    if |s| == 0 {
    } else {
      SortIsSorted(s[1..]);
      InsertIsSorted(s[0], SortDescending(s[1..]));
    }
  }

  lemma {:induction false} SortKeepsCounts(s: seq<int>, x: int)
    ensures Count(SortDescending(s), x) == Count(s, x)
    ensures x in SortDescending(s) <==> x in s
  {
    if |s| == 0 {
    } else {
      SortKeepsCounts(s[1..], x);
      InsertAddsOne(s[0], SortDescending(s[1..]), x);
    }
    CountMembers(s, x);
    CountMembers(SortDescending(s), x);
  }

  // ----- Exactly when splicing leaves the unselected banners -----

  /** Some position is selected twice although a later position is kept. */
  ghost predicate DoubledBeforeKept(n: nat, selected: seq<int>) {
    exists i, j | 0 <= i < j < n :: Count(selected, i) >= 2 && j !in selected
  }

  /** A descending list of positions below n. */
  predicate Positions(t: seq<int>, n: nat) {
    Descending(t) && NonNegative(t) && (|t| > 0 ==> t[0] < n)
  }

  lemma {:induction false} FirstIsLargest(t: seq<int>, x: int)
    requires Descending(t) && x in t
    ensures x <= t[0]
  {
    if x == t[0] {
    } else {
      FirstIsLargest(t[1..], x);
    }
  }

  /** The condition read along the list: positions below n are still in place, and clear
      says that nothing behind them was kept. */
  predicate Harmless(n: nat, clear: bool, t: seq<int>)
    requires Positions(t, n)
    decreases n, |t|
  {
    if |t| == 0 then true
    else if t[0] < n - 1 then Harmless(n - 1, false, t)
    else if |t| > 1 && t[1] == t[0] then clear && Harmless(n, clear, t[1..])
    else Harmless(n - 1, clear, t[1..])
  }

  /** p is still in place and tail are the banners kept behind it. */
  lemma {:induction false} SpliceLeaves(p: seq<string>, tail: seq<string>, t: seq<int>)
    requires Positions(t, |p|)
    ensures |SpliceAll(p + tail, t)| <= |Keep(p, t)| + |tail|
    ensures SpliceAll(p + tail, t) == Keep(p, t) + tail <==> Harmless(|p|, tail == [], t)
    decreases |p|, |t|
  {
    var n := |p|;
    if |t| == 0 {
      KeepAll(p, t);
    } else if t[0] < n - 1 {
      SpliceSkips(p, tail, t);
    } else if |t| > 1 && t[1] == t[0] {
      SpliceTwice(p, tail, t);
    } else {
      SpliceLast(p, tail, t);
    }
  }

  /** The last position in place is not selected: its banner joins the kept ones. */
  lemma {:induction false} SpliceSkips(p: seq<string>, tail: seq<string>, t: seq<int>)
    requires Positions(t, |p|) && |t| > 0 && t[0] < |p| - 1
    ensures |SpliceAll(p + tail, t)| <= |Keep(p, t)| + |tail|
    ensures SpliceAll(p + tail, t) == Keep(p, t) + tail <==> Harmless(|p|, tail == [], t)
    decreases |p|, |t|, 0
  {
    var n := |p|;
    var kept := [p[n - 1]] + tail;
    assert p + tail == p[..n - 1] + kept;
    SpliceLeaves(p[..n - 1], kept, t);
    if n - 1 in t { FirstIsLargest(t, n - 1); }
    assert Keep(p, t) + tail == Keep(p[..n - 1], t) + kept;
  }

  lemma SpliceLastStep(p: seq<string>, tail: seq<string>, t: seq<int>)
    requires Positions(t, |p|) && |t| > 0 && t[0] == |p| - 1
    ensures SpliceAll(p + tail, t) == SpliceAll(p[..|p| - 1] + tail, t[1..])
  {
    assert Splice(p + tail, |p| - 1) == p[..|p| - 1] + tail;
  }

  lemma KeepLastStep(p: seq<string>, t: seq<int>)
    requires Positions(t, |p|) && |t| > 0 && t[0] == |p| - 1
    ensures Keep(p, t) == Keep(p[..|p| - 1], t[1..])
  {
    assert t == [t[0]] + t[1..];
    KeepCongruent(p[..|p| - 1], t, t[1..]);
  }

  lemma {:induction false} SpliceLast(p: seq<string>, tail: seq<string>, t: seq<int>)
    requires Positions(t, |p|) && |t| > 0 && t[0] == |p| - 1 && (|t| > 1 ==> t[1] < t[0])
    ensures |SpliceAll(p + tail, t)| <= |Keep(p, t)| + |tail|
    ensures SpliceAll(p + tail, t) == Keep(p, t) + tail <==> Harmless(|p|, tail == [], t)
    decreases |p|, |t|, 0
  {
    SpliceLastStep(p, tail, t);
    KeepLastStep(p, t);
    SpliceLeaves(p[..|p| - 1], tail, t[1..]);
  }

  /** The second splice at the last position in place takes a banner of the tail. */
  lemma SpliceTwiceStep(p: seq<string>, tail: seq<string>, t: seq<int>)
    requires Positions(t, |p|) && |t| > 1 && t[0] == t[1] == |p| - 1
    ensures SpliceAll(p + tail, t) == SpliceAll(p + if tail == [] then [] else tail[1..], t[1..])
  {
    var n := |p|;
    var rest := if tail == [] then [] else tail[1..];
    var b := p[..n - 1];
    assert Splice(p + tail, n - 1) == b + tail;
    assert Splice(b + tail, n - 1) == b + rest;
    assert Splice(p + rest, n - 1) == b + rest;
    assert t[1..][0] == n - 1;
  }

  lemma {:induction false} SpliceTwice(p: seq<string>, tail: seq<string>, t: seq<int>)
    requires Positions(t, |p|) && |t| > 1 && t[0] == t[1] == |p| - 1
    ensures |SpliceAll(p + tail, t)| <= |Keep(p, t)| + |tail|
    ensures SpliceAll(p + tail, t) == Keep(p, t) + tail <==> Harmless(|p|, tail == [], t)
    decreases |p|, |t|, 0
  {
    SpliceTwiceStep(p, tail, t);
    assert t == [t[0]] + t[1..];
    KeepCongruent(p, t, t[1..]);
    SpliceLeaves(p, if tail == [] then [] else tail[1..], t[1..]);
  }

  /** No position is doubled, or nothing later is kept. */
  ghost predicate Meaning(n: nat, clear: bool, t: seq<int>) {
    forall i | 0 <= i < n && Count(t, i) >= 2 :: clear && forall j | i < j < n :: j in t
  }

  lemma {:induction false} HarmlessMeaning(n: nat, clear: bool, t: seq<int>)
    requires Positions(t, n)
    ensures Harmless(n, clear, t) <==> Meaning(n, clear, t)
    decreases n, |t|
  {
    if |t| > 0 {
      if t[0] < n - 1 {
        HarmlessMeaning(n - 1, false, t);
        MeaningSkips(n, clear, t);
      } else if |t| > 1 && t[1] == t[0] {
        HarmlessMeaning(n, clear, t[1..]);
        MeaningOfTwice(n, clear, t);
      } else {
        HarmlessMeaning(n - 1, clear, t[1..]);
        MeaningOfLast(n, clear, t);
      }
    }
  }

  lemma MeaningSkips(n: nat, clear: bool, t: seq<int>)
    requires Positions(t, n) && |t| > 0 && t[0] < n - 1
    ensures Meaning(n, clear, t) <==> Meaning(n - 1, false, t)
  {
    if n - 1 in t { FirstIsLargest(t, n - 1); }
    CountMembers(t, n - 1);
  }

  lemma MeaningOfTwice(n: nat, clear: bool, t: seq<int>)
    requires Positions(t, n) && |t| > 1 && t[0] == t[1] == n - 1
    ensures Meaning(n, clear, t) <==> clear && Meaning(n, clear, t[1..])
  {
    var s := t[1..];
    assert t == [t[0]] + s && s[0] == n - 1;
    assert Count(t, n - 1) >= 2;
    assert forall i | i != n - 1 :: Count(t, i) == Count(s, i);
    assert forall i | 0 <= i < n :: i in t <==> i in s;
  }

  lemma MeaningOfLast(n: nat, clear: bool, t: seq<int>)
    requires Positions(t, n) && |t| > 0 && t[0] == n - 1 && (|t| > 1 ==> t[1] < t[0])
    ensures Meaning(n, clear, t) <==> Meaning(n - 1, clear, t[1..])
  {
    var s := t[1..];
    assert t == [t[0]] + s;
    if n - 1 in s { FirstIsLargest(s, n - 1); }
    CountMembers(s, n - 1);
    assert Count(t, n - 1) == 1;
    assert forall i | i != n - 1 :: Count(t, i) == Count(s, i);
    assert forall i | 0 <= i < n - 1 :: i in t <==> i in s;
  }

  lemma SortedValid(indices: seq<int>, n: nat)
    ensures Positions(SortDescending(ValidIndices(indices, n)), n)
    ensures forall i | 0 <= i < n :: var t := SortDescending(ValidIndices(indices, n));
              Count(t, i) == Count(indices, i) && (i in t <==> i in indices)
  {
    var valid := ValidIndices(indices, n);
    var t := SortDescending(valid);
    SortIsSorted(valid);
    forall k | 0 <= k < |t| ensures 0 <= t[k] < n {
      SortKeepsCounts(valid, t[k]);
    }
    forall i | 0 <= i < n ensures Count(t, i) == Count(indices, i) && (i in t <==> i in indices) {
      SortKeepsCounts(valid, i);
      ValidCount(indices, n, i);
      CountMembers(t, i);
      CountMembers(indices, i);
    }
  }

  /** Batch deletion leaves exactly the unselected banners in their order, whatever the
      order of the indices and with the invalid ones ignored, if and only if no position
      is given twice while a later position is kept. */
  lemma {:induction false} DescendingSpliceKeeps(b: seq<string>, indices: seq<int>)
    ensures var t := SortDescending(ValidIndices(indices, |b|));
      && NonNegative(t)
      && (SpliceAll(b, t) == Keep(b, indices) <==> !DoubledBeforeKept(|b|, indices))
      && |SpliceAll(b, t)| <= |Keep(b, indices)| <= |b|
  {
    var t := SortDescending(ValidIndices(indices, |b|));
    SortedValid(indices, |b|);
    SpliceLeaves(b, [], t);
    assert b + [] == b && Keep(b, t) + [] == Keep(b, t);
    KeepCongruent(b, t, indices);
    HarmlessMeaning(|b|, true, t);
    KeepShrinks(b, indices);
  }

  predicate Distinct(s: seq<int>) { forall i, j | 0 <= i < j < |s| :: s[i] != s[j] }

  /** In particular for pairwise distinct indices. */
  lemma {:induction false} DistinctIndicesDeleteExactly(b: seq<string>, indices: seq<int>)
    requires Distinct(indices)
    ensures var t := SortDescending(ValidIndices(indices, |b|));
      NonNegative(t) && SpliceAll(b, t) == Keep(b, indices)
  {
    DescendingSpliceKeeps(b, indices);
    forall i ensures Count(indices, i) <= 1 { CountsOnce(indices, i); }
  }

  lemma {:induction false} CountsOnce(s: seq<int>, x: int)
    requires Distinct(s)
    ensures Count(s, x) <= 1
  {
    if |s| == 0 {
    } else {
      CountsOnce(s[1..], x);
      CountMembers(s[1..], x);
    }
  }

  // ----- The service -----

  /** The urls of the uploads that succeeded. */
  function Uploaded(uploads: seq<Option<string>>): (urls: seq<string>)
    ensures |urls| <= |uploads|
  {
    if |uploads| == 0 then []
    else
      var last := uploads[|uploads| - 1];
      Uploaded(uploads[..|uploads| - 1]) + (if last.Some? then [last.value] else [])
  }

  /** The successful uploads in their order, nothing else. */
  lemma UploadedInOrder(uploads: seq<Option<string>>, next: Option<string>)
    ensures Uploaded([]) == []
    ensures Uploaded(uploads + [next]) == Uploaded(uploads) + (match next case Some(url) => [url] case None => [])
  {
    assert (uploads + [next])[..|uploads|] == uploads;
  }

  /** Every index of the request is either valid or reported as invalid, as often as given. */
  lemma {:induction false} EveryIndexIsJudged(indices: seq<int>, n: nat, i: int)
    ensures Count(ValidIndices(indices, n), i) == (if 0 <= i < n then Count(indices, i) else 0)
    ensures Count(InvalidIndices(indices, n), i) == (if 0 <= i < n then 0 else Count(indices, i))
  {
    if |indices| == 0 {
    } else {
      var last := |indices| - 1;
      var before, x := indices[..last], indices[last];
      assert indices == before + [x];
      EveryIndexIsJudged(before, n, i);
      CountAppend(before, x, i);
      CountAppend(ValidIndices(before, n), x, i);
      CountAppend(InvalidIndices(before, n), x, i);
      assert ValidIndices(before, n) + [] == ValidIndices(before, n);
      assert InvalidIndices(before, n) + [] == InvalidIndices(before, n);
    }
  }

  datatype Removal = Removed(count: nat, invalid: seq<int>) | NoIndices | NoValidIndex

  class StoreService {
    var bannersUrl: seq<string>

    constructor ()
      ensures bannersUrl == []
    {
      bannersUrl := [];
    }

    /** upload is None when the storage refuses the file. */
    method AddBanner(upload: Option<string>) returns (ok: bool)
      modifies this
      ensures ok <==> upload.Some? && |old(bannersUrl)| < 5
      ensures bannersUrl == if ok then old(bannersUrl) + [upload.value] else old(bannersUrl)
      ensures |old(bannersUrl)| <= 5 ==> |bannersUrl| <= 5
    {
      if |bannersUrl| >= MAX_BANNERS || upload.None? {
        return false;
      }
      bannersUrl := bannersUrl + [upload.value];
      ok := true;
    }

    /** Files beyond the free slots are not uploaded at all. */
    method AddMultipleBanners(files: seq<Option<string>>) returns (ok: bool)
      modifies this
      ensures ok <==> |files| > 0 && |old(bannersUrl)| < 5
      ensures var slots := 5 - |old(bannersUrl)|;
        bannersUrl == if ok then old(bannersUrl) + Uploaded(if |files| <= slots then files else files[..slots])
                      else old(bannersUrl)
      ensures |old(bannersUrl)| <= 5 ==> |bannersUrl| <= 5
    {
      if |files| == 0 || |bannersUrl| >= MAX_BANNERS {
        return false;
      }
      var remainingSlots := MAX_BANNERS - |bannersUrl|;
      var filesToProcess := if |files| <= remainingSlots then files else files[..remainingSlots];
      bannersUrl := bannersUrl + Uploaded(filesToProcess);
      ok := true;
    }

    method RemoveBanner(bannerIndex: int) returns (ok: bool)
      modifies this
      ensures ok <==> 0 <= bannerIndex < |old(bannersUrl)|
      ensures ok ==> bannersUrl == old(bannersUrl[..bannerIndex]) + old(bannersUrl[bannerIndex + 1..])
      ensures !ok ==> bannersUrl == old(bannersUrl)
      ensures |old(bannersUrl)| <= 5 ==> |bannersUrl| <= 5
    {
      if bannerIndex >= |bannersUrl| || bannerIndex < 0 {
        return false;
      }
      bannersUrl := Keep(bannersUrl, [bannerIndex]);
      KeepButOne(old(bannersUrl), bannerIndex);
      ok := true;
    }

    method RemoveMultipleBanners(indices: seq<int>) returns (r: Removal)
      modifies this
      ensures var valid := ValidIndices(indices, |old(bannersUrl)|);
        match r
        case NoIndices => |indices| == 0 && bannersUrl == old(bannersUrl)
        case NoValidIndex => |indices| > 0 && |valid| == 0 && bannersUrl == old(bannersUrl)
        case Removed(count, invalid) =>
          count == |valid| > 0 && invalid == InvalidIndices(indices, |old(bannersUrl)|)
          && (bannersUrl == Keep(old(bannersUrl), indices) <==> !DoubledBeforeKept(|old(bannersUrl)|, indices))
      ensures |old(bannersUrl)| <= 5 ==> |bannersUrl| <= 5
    {
      if |indices| == 0 {
        return NoIndices;
      }
      var currentBanners := bannersUrl;
      var n := |currentBanners|;
      var validIndices: seq<int>, invalidIndices: seq<int> := [], [];
      var k := 0;
      while k < |indices|
        invariant k <= |indices|
        invariant validIndices == ValidIndices(indices[..k], n)
        invariant invalidIndices == InvalidIndices(indices[..k], n)
      {
        var index := indices[k];
        assert indices[..k + 1][..k] == indices[..k];
        if 0 <= index <= n - 1 {
          validIndices := validIndices + [index];
        } else {
          invalidIndices := invalidIndices + [index];
        }
        k := k + 1;
      }
      assert indices[..k] == indices;
      if |validIndices| == 0 {
        return NoValidIndex;
      }
      var sortedValidIndices := SortDescending(validIndices);
      DescendingSpliceKeeps(currentBanners, indices);
      var updatedBanners := currentBanners;
      k := 0;
      while k < |sortedValidIndices|
        invariant k <= |sortedValidIndices|
        invariant SpliceAll(updatedBanners, sortedValidIndices[k..]) == SpliceAll(currentBanners, sortedValidIndices)
      {
        updatedBanners := Splice(updatedBanners, sortedValidIndices[k]);
        assert sortedValidIndices[k..][1..] == sortedValidIndices[k + 1..];
        k := k + 1;
      }
      bannersUrl := updatedBanners;
      r := Removed(|validIndices|, invalidIndices);
    }
  }
}

/**
 The linear-scan operations every collection accessor is built from:
 `find` (first record whose field equals a key), `findIndex`, an
 order-preserving `filter`, and the shallow-merge update of the first record
 whose `id` matches.
 */
module Records {
  import opened Json

  /** The record passes the test `r => r.k === v`. */
  predicate Matches(r: Record, k: string, v: Option<Value>)
  {
    Field(r, k) == v
  }

  /** No record of `rs` passes the test `x.k === v`. */
  ghost predicate NoMatch(rs: seq<Record>, k: string, v: Option<Value>)
  {
    forall i :: 0 <= i < |rs| ==> !Matches(rs[i], k, v)
  }

  /** `i` is the first position whose record passes the test. */
  ghost predicate IsFirstIndex(rs: seq<Record>, k: string, v: Option<Value>, i: int)
  {
    && 0 <= i < |rs|
    && Matches(rs[i], k, v)
    && forall j :: 0 <= j < i ==> !Matches(rs[j], k, v)
  }

  /** `r` is what `rs.find(x => x.k === v)` returns: absent when no record
      passes, otherwise the record at the first position that does. */
  ghost predicate FirstMatch(rs: seq<Record>, k: string, v: Option<Value>, r: Option<Record>)
  {
    && (r.None? <==> NoMatch(rs, k, v))
    && forall i :: IsFirstIndex(rs, k, v, i) ==> r == Some(rs[i])
  }

  /** The positions listed in `idx`, in increasing order, are exactly the
      positions of `rs` whose record passes the test, and `r` holds those
      records in that order. */
  ghost predicate SelectedVia(rs: seq<Record>, k: string, v: Option<Value>, r: seq<Record>, idx: seq<int>)
  {
    && |idx| == |r|
    && (forall j :: 0 <= j < |idx| ==> 0 <= idx[j] < |rs| && r[j] == rs[idx[j]])
    && (forall j, j' :: 0 <= j < j' < |idx| ==> idx[j] < idx[j'])
    && (forall i :: 0 <= i < |rs| ==> (Matches(rs[i], k, v) <==> i in idx))
  }

  /** `r` is what `rs.filter(x => x.k === v)` returns: the passing records,
      each once, in their original order. */
  ghost predicate Selected(rs: seq<Record>, k: string, v: Option<Value>, r: seq<Record>)
  {
    exists idx :: SelectedVia(rs, k, v, r, idx)
  }

  /** `Selected` pins the filter's result down completely: two sequences
      that both meet it are equal. */
  lemma SelectedUnique(rs: seq<Record>, k: string, v: Option<Value>, r1: seq<Record>, r2: seq<Record>)
    requires Selected(rs, k, v, r1) && Selected(rs, k, v, r2)
    ensures r1 == r2
  {
    var idx1 :| SelectedVia(rs, k, v, r1, idx1);
    var idx2 :| SelectedVia(rs, k, v, r2, idx2);
    SelectedPositions(rs, k, v, r1, idx1);
    SelectedPositions(rs, k, v, r2, idx2);
    IncreasingSameElements(idx1, idx2);
  }

  /** The positions a selection lists are exactly the passing positions. */
  lemma SelectedPositions(rs: seq<Record>, k: string, v: Option<Value>, r: seq<Record>, idx: seq<int>)
    requires SelectedVia(rs, k, v, r, idx)
    ensures forall x :: x in idx <==> 0 <= x < |rs| && Matches(rs[x], k, v)
  {
  }

  /** The head of a non-empty sequence is one of its elements. */
  lemma HeadIsElement(b: seq<int>)
    ensures |b| > 0 ==> b[0] in b
  {
  }

  /** Two strictly increasing sequences with the same elements are equal. */
  lemma {:induction false} IncreasingSameElements(a: seq<int>, b: seq<int>)
    requires Increasing(a) && Increasing(b)
    requires forall x :: x in a <==> x in b
    ensures a == b
    decreases |a|
  {
    if |a| == 0 {
      HeadIsElement(b);
    } else {
      HeadIsElement(a);
      HeadIsElement(b);
      IncreasingHead(a);
      IncreasingHead(b);
      assert a[0] == b[0];
      IncreasingTail(a);
      IncreasingTail(b);
      IncreasingSameElements(a[1..], b[1..]);
      assert a == [a[0]] + a[1..] && b == [b[0]] + b[1..];
    }
  }

  /** The elements strictly increase from left to right. */
  predicate Increasing(a: seq<int>)
  {
    forall j, j' :: 0 <= j < j' < |a| ==> a[j] < a[j']
  }

  /** The head of a strictly increasing sequence is below every other
      element. */
  lemma IncreasingHead(a: seq<int>)
    requires Increasing(a) && |a| > 0
    ensures forall x :: x in a ==> a[0] <= x
  {
  }

  /** The tail of a strictly increasing sequence is strictly increasing and
      holds every element but the head. */
  lemma IncreasingTail(a: seq<int>)
    requires Increasing(a) && |a| > 0
    ensures Increasing(a[1..])
    ensures forall x :: x in a[1..] <==> x in a && x != a[0]
  {
  }

  /** When some record passes the test, there is a first one that does. */
  lemma FirstIndexExists(rs: seq<Record>, k: string, v: Option<Value>)
    requires !NoMatch(rs, k, v)
    ensures exists i :: IsFirstIndex(rs, k, v, i)
  {
    var r := IndexOf(rs, k, v);
    assert IsFirstIndex(rs, k, v, r.value);
  }

  /** `rs.findIndex(x => x.k === v)`, with `None` for -1. */
  function IndexOf(rs: seq<Record>, k: string, v: Option<Value>): (r: Option<nat>)
    ensures r.None? <==> NoMatch(rs, k, v)
    ensures r.Some? ==> IsFirstIndex(rs, k, v, r.value)
    decreases |rs|
  {
    if |rs| == 0 then None
    else if Matches(rs[0], k, v) then Some(0)
    else match IndexOf(rs[1..], k, v)
      case None => None
      case Some(j) => Some(j + 1)
  }

  /** `rs.find(x => x.k === v)`. */
  function Find(rs: seq<Record>, k: string, v: Option<Value>): (r: Option<Record>)
    ensures FirstMatch(rs, k, v, r)
    ensures r.Some? ==> Matches(r.value, k, v)
  {
    match IndexOf(rs, k, v)
    case None => None
    case Some(i) => Some(rs[i])
  }

  /** `rs.filter(x => x.k === v)`. */
  function FilterBy(rs: seq<Record>, k: string, v: Option<Value>): (r: seq<Record>)
    ensures |r| <= |rs|
    ensures forall j :: 0 <= j < |r| ==> Matches(r[j], k, v)
    decreases |rs|
  {
    if |rs| == 0 then []
    else (if Matches(rs[0], k, v) then [rs[0]] else []) + FilterBy(rs[1..], k, v)
  }

  /** `FilterBy` meets the selection specification: it keeps exactly the
      passing records, each once, in their original order. */
  lemma {:induction false} FilterBySelected(rs: seq<Record>, k: string, v: Option<Value>)
    ensures Selected(rs, k, v, FilterBy(rs, k, v))
    decreases |rs|
  {
    if |rs| == 0 {
      assert SelectedVia(rs, k, v, [], []);
    } else {
      FilterBySelected(rs[1..], k, v);
      SelectedCons(rs[0], rs[1..], k, v, FilterBy(rs[1..], k, v));
      assert [rs[0]] + rs[1..] == rs;
    }
  }

  /** Putting one record in front of a collection puts it in front of the
      selection exactly when it passes the test. */
  lemma SelectedCons(x: Record, rs: seq<Record>, k: string, v: Option<Value>, tail: seq<Record>)
    requires Selected(rs, k, v, tail)
    ensures Selected([x] + rs, k, v, (if Matches(x, k, v) then [x] else []) + tail)
  {
    var idx :| SelectedVia(rs, k, v, tail, idx);
    var all := [x] + rs;
    var shifted := seq(|idx|, j requires 0 <= j < |idx| => idx[j] + 1);
    ShiftedPositions(x, rs, k, v, tail, idx, shifted);
    if Matches(x, k, v) {
      PrependPosition(x, rs, k, v, tail, shifted);
    } else {
      assert SelectedVia(all, k, v, tail, shifted);
      assert [] + tail == tail;
    }
  }

  /** A passing record in front: position 0 joins the shifted positions. */
  lemma PrependPosition(x: Record, rs: seq<Record>, k: string, v: Option<Value>, tail: seq<Record>, shifted: seq<int>)
    requires Matches(x, k, v)
    requires |shifted| == |tail|
    requires forall j :: 0 <= j < |shifted| ==> 1 <= shifted[j] < |rs| + 1 && tail[j] == ([x] + rs)[shifted[j]]
    requires forall j, j' :: 0 <= j < j' < |shifted| ==> shifted[j] < shifted[j']
    requires forall i :: 1 <= i < |rs| + 1 ==> (Matches(([x] + rs)[i], k, v) <==> i in shifted)
    ensures SelectedVia([x] + rs, k, v, [x] + tail, [0] + shifted)
  {
  }

  /** The selection of `rs`, read as a selection of `[x] + rs` that leaves
      out position 0. */
  lemma ShiftedPositions(x: Record, rs: seq<Record>, k: string, v: Option<Value>, tail: seq<Record>, idx: seq<int>, shifted: seq<int>)
    requires SelectedVia(rs, k, v, tail, idx)
    requires |shifted| == |idx| && forall j :: 0 <= j < |idx| ==> shifted[j] == idx[j] + 1
    ensures forall j :: 0 <= j < |shifted| ==> 1 <= shifted[j] < |rs| + 1 && tail[j] == ([x] + rs)[shifted[j]]
    ensures forall j, j' :: 0 <= j < j' < |shifted| ==> shifted[j] < shifted[j']
    ensures forall i :: 1 <= i < |rs| + 1 ==> (Matches(([x] + rs)[i], k, v) <==> i in shifted)
    ensures 0 !in shifted
  {
  }

  /** Filtering distributes over concatenation, so the filter of a collection
      grown by appending is the old filter followed by the filter of the new
      records. */
  lemma {:induction false} FilterAppend(a: seq<Record>, b: seq<Record>, k: string, v: Option<Value>)
    ensures FilterBy(a + b, k, v) == FilterBy(a, k, v) + FilterBy(b, k, v)
    decreases |a|
  {
    if |a| == 0 {
      assert a + b == b;
    } else {
      assert (a + b)[0] == a[0];
      assert (a + b)[1..] == a[1..] + b;
      FilterAppend(a[1..], b, k, v);
    }
  }

  /** `find` on a collection with one more record in front. */
  lemma FindCons(y: Record, t: seq<Record>, k: string, v: Option<Value>)
    ensures Find([y] + t, k, v) == if Matches(y, k, v) then Some(y) else Find(t, k, v)
  {
  }

  /** `find` after an append: the old answer if there was one, otherwise the
      appended record if it passes. */
  lemma FindAfterAppend(rs: seq<Record>, x: Record, k: string, v: Option<Value>)
    ensures Find(rs + [x], k, v) ==
      match Find(rs, k, v)
      case Some(earlier) => Some(earlier)
      case None => if Matches(x, k, v) then Some(x) else None
  {
    var all := rs + [x];
    if NoMatch(rs, k, v) {
      if Matches(x, k, v) {
        assert IsFirstIndex(all, k, v, |rs|);
      } else {
        assert NoMatch(all, k, v);
      }
    } else {
      FirstIndexExists(rs, k, v);
      var i :| IsFirstIndex(rs, k, v, i);
      assert IsFirstIndex(all, k, v, i);
    }
  }

  /** `i` is the first position whose record passes both tests. */
  ghost predicate IsFirstJointIndex(rs: seq<Record>, k1: string, v1: Option<Value>, k2: string, v2: Option<Value>, i: int)
  {
    && 0 <= i < |rs|
    && Matches(rs[i], k1, v1) && Matches(rs[i], k2, v2)
    && forall j :: 0 <= j < i ==> !(Matches(rs[j], k1, v1) && Matches(rs[j], k2, v2))
  }

  /** `rs.filter(x => x.k1 === v1).find(x => x.k2 === v2)` is the first record
      of the whole collection that passes both tests. */
  lemma {:induction false} FindWithinFilter(rs: seq<Record>, k1: string, v1: Option<Value>, k2: string, v2: Option<Value>)
    ensures Find(FilterBy(rs, k1, v1), k2, v2).None? <==>
      forall i :: 0 <= i < |rs| ==> !(Matches(rs[i], k1, v1) && Matches(rs[i], k2, v2))
    ensures forall i :: IsFirstJointIndex(rs, k1, v1, k2, v2, i) ==>
      Find(FilterBy(rs, k1, v1), k2, v2) == Some(rs[i])
    decreases |rs|
  {
    if |rs| == 0 {
      assert FilterBy(rs, k1, v1) == [];
    } else {
      FindWithinFilter(rs[1..], k1, v1, k2, v2);
      FindFilterCons(rs, k1, v1, k2, v2);
      JointStep(rs, k1, v1, k2, v2, Find(FilterBy(rs, k1, v1), k2, v2), Find(FilterBy(rs[1..], k1, v1), k2, v2));
    }
  }

  /** One step of `filter` then `find`: the head is the answer when it passes
      both tests, and otherwise the answer comes from the tail. */
  lemma FindFilterCons(rs: seq<Record>, k1: string, v1: Option<Value>, k2: string, v2: Option<Value>)
    requires |rs| > 0
    ensures Find(FilterBy(rs, k1, v1), k2, v2) ==
      if Matches(rs[0], k1, v1) && Matches(rs[0], k2, v2) then Some(rs[0])
      else Find(FilterBy(rs[1..], k1, v1), k2, v2)
  {
    var rest := FilterBy(rs[1..], k1, v1);
    if Matches(rs[0], k1, v1) {
      assert FilterBy(rs, k1, v1) == [rs[0]] + rest;
      FindCons(rs[0], rest, k2, v2);
    } else {
      assert FilterBy(rs, k1, v1) == [] + rest == rest;
    }
  }

  /** The first record passing both tests, found through the head or else
      through the tail, is the first such record of the whole collection. */
  lemma JointStep(rs: seq<Record>, k1: string, v1: Option<Value>, k2: string, v2: Option<Value>, whole: Option<Record>, tail: Option<Record>)
    requires |rs| > 0
    requires whole == if Matches(rs[0], k1, v1) && Matches(rs[0], k2, v2) then Some(rs[0]) else tail
    requires tail.None? <==>
      forall i :: 0 <= i < |rs[1..]| ==> !(Matches(rs[1..][i], k1, v1) && Matches(rs[1..][i], k2, v2))
    requires forall i :: IsFirstJointIndex(rs[1..], k1, v1, k2, v2, i) ==> tail == Some(rs[1..][i])
    ensures whole.None? <==>
      forall i :: 0 <= i < |rs| ==> !(Matches(rs[i], k1, v1) && Matches(rs[i], k2, v2))
    ensures forall i :: IsFirstJointIndex(rs, k1, v1, k2, v2, i) ==> whole == Some(rs[i])
  {
    var t := rs[1..];
    assert forall i :: 1 <= i < |rs| ==> rs[i] == t[i - 1];
    forall i | IsFirstJointIndex(rs, k1, v1, k2, v2, i)
      ensures whole == Some(rs[i])
    {
      if i > 0 {
        forall j | 0 <= j < i - 1
          ensures !(Matches(t[j], k1, v1) && Matches(t[j], k2, v2))
        {
          assert t[j] == rs[j + 1];
        }
        assert IsFirstJointIndex(t, k1, v1, k2, v2, i - 1);
      }
    }
  }

  /** What `findIndex` followed by `arr[index] = { ...arr[index], ...patch }`
      leaves behind: with no record whose `id` matches, the collection is
      untouched and the result is absent; otherwise exactly the first matching
      position holds the merged record, which is also the result. */
  ghost predicate IsFirstUpdate(rs: seq<Record>, id: Option<Value>, patch: Record, u: Updated)
  {
    && |u.records| == |rs|
    && (NoMatch(rs, "id", id) ==> u == Updated(rs, None))
    && forall i :: IsFirstIndex(rs, "id", id, i) ==>
         u == Updated(rs[i := Merge(rs[i], patch)], Some(Merge(rs[i], patch)))
  }

  /** The collection after an update, and the returned record (`null` when no
      record matched). */
  datatype Updated = Updated(records: seq<Record>, result: Option<Record>)

  /** The shared body of `updateTenant` and `updateSubscription`. */
  function UpdateById(rs: seq<Record>, id: Option<Value>, patch: Record): (u: Updated)
    ensures IsFirstUpdate(rs, id, patch, u)
  {
    match IndexOf(rs, "id", id)
    case None => Updated(rs, None)
    case Some(i) =>
      var merged := Merge(rs[i], patch);
      Updated(rs[i := merged], Some(merged))
  }

  /** Re-applying a patch that does not move the record's `id` gives the same
      collection and result as applying it once. */
  lemma UpdateIdempotent(rs: seq<Record>, id: Option<Value>, patch: Record)
    requires "id" in patch ==> Some(patch["id"]) == id
    ensures UpdateById(UpdateById(rs, id, patch).records, id, patch) == UpdateById(rs, id, patch)
  {
    var once := UpdateById(rs, id, patch);
    if !NoMatch(rs, "id", id) {
      FirstIndexExists(rs, "id", id);
      var i :| IsFirstIndex(rs, "id", id, i);
      var merged := Merge(rs[i], patch);
      MergeIdempotent(rs[i], patch);
      assert Field(merged, "id") == id;
      assert IsFirstIndex(once.records, "id", id, i);
      assert once.records[i := merged] == once.records;
    }
  }

  /** Two updates of the same record, where the second patch covers every
      key of the first and the first leaves `id` alone, leave what the second
      alone leaves. */
  lemma UpdateOverridden(rs: seq<Record>, id: Option<Value>, first: Record, second: Record)
    requires "id" !in first && first.Keys <= second.Keys
    ensures UpdateById(UpdateById(rs, id, first).records, id, second).records == UpdateById(rs, id, second).records
  {
    if !NoMatch(rs, "id", id) {
      FirstIndexExists(rs, "id", id);
      var i :| IsFirstIndex(rs, "id", id, i);
      var once := UpdateById(rs, id, first).records;
      assert once == rs[i := Merge(rs[i], first)];
      FirstIndexAfterMerge(rs, i, first, "id", id, i);
      MergeOverridden(rs[i], first, second);
      assert once[i := Merge(once[i], second)] == rs[i := Merge(rs[i], second)];
    }
  }

  /** An update whose patch only repeats values the record already holds
      leaves the collection as it was. */
  lemma UpdateUnchanged(rs: seq<Record>, id: Option<Value>, patch: Record, i: int)
    requires IsFirstIndex(rs, "id", id, i)
    requires forall k :: k in patch ==> Field(rs[i], k) == Some(patch[k])
    ensures UpdateById(rs, id, patch).records == rs
  {
    assert Merge(rs[i], patch) == rs[i];
    assert rs[i := rs[i]] == rs;
  }

  /** An update with the empty patch leaves the collection as it was. */
  lemma UpdateEmptyPatch(rs: seq<Record>, id: Option<Value>)
    ensures UpdateById(rs, id, map[]).records == rs
  {
    if !NoMatch(rs, "id", id) {
      FirstIndexExists(rs, "id", id);
      var i :| IsFirstIndex(rs, "id", id, i);
      MergeIdempotent(rs[i], map[]);
      assert rs[i := rs[i]] == rs;
    }
  }

  /** Merging a patch that lacks key `k` leaves the record's answer to the
      test on `k` unchanged, so every first position on `k` stays where it was. */
  lemma FirstIndexAfterMerge(rs: seq<Record>, j: int, patch: Record, k: string, v: Option<Value>, i: int)
    requires 0 <= j < |rs|
    requires k !in patch
    ensures IsFirstIndex(rs[j := Merge(rs[j], patch)], k, v, i) <==> IsFirstIndex(rs, k, v, i)
  {
    assert Field(Merge(rs[j], patch), k) == Field(rs[j], k);
    var after := rs[j := Merge(rs[j], patch)];
    assert forall p :: 0 <= p < |rs| ==> (Matches(after[p], k, v) <==> Matches(rs[p], k, v));
  }
}

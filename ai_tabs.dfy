// The `aiTabs` object of background.js and main/main.js: site id to tab id,
// iterated by `Object.entries` in insertion order. It is modelled as a list
// of entries with distinct keys; assigning to an existing key keeps its
// place, a new key goes last.

module AiTabs {
  import opened Common

  datatype Entry = Entry(siteId: string, tabId: int)

  predicate DistinctKeys(es: seq<Entry>) {
    forall i, j :: 0 <= i < j < |es| ==> es[i].siteId != es[j].siteId
  }

  predicate HasKey(es: seq<Entry>, k: string) {
    exists i :: 0 <= i < |es| && es[i].siteId == k
  }

  /** `aiTabs[k]`, with `None` for `undefined`. */
  function Lookup(es: seq<Entry>, k: string): (r: Option<int>)
    ensures r.None? <==> !HasKey(es, k)
    ensures r.Some? ==> exists i :: 0 <= i < |es| && es[i] == Entry(k, r.value)
    ensures DistinctKeys(es) ==> forall i :: 0 <= i < |es| && es[i].siteId == k ==> r == Some(es[i].tabId)
  {
    if |es| == 0 then None
    else if es[0].siteId == k then Some(es[0].tabId)
    else
      var r := Lookup(es[1..], k);
      assert forall i :: 1 <= i < |es| ==> es[1..][i - 1] == es[i];
      r
  }

  /** The index of key `k`, if present. */
  function IndexOfKey(es: seq<Entry>, k: string): (r: Option<nat>)
    ensures r.Some? ==> r.value < |es| && es[r.value].siteId == k
    ensures r.Some? ==> forall j :: 0 <= j < r.value ==> es[j].siteId != k
    ensures r.None? <==> !HasKey(es, k)
  {
    if |es| == 0 then None
    else if es[0].siteId == k then Some(0)
    else match IndexOfKey(es[1..], k)
      case None => None
      case Some(i) => Some(i + 1)
  }

  /** `aiTabs[k] = v` */
  function Put(es: seq<Entry>, k: string, v: int): (r: seq<Entry>)
    requires DistinctKeys(es)
    ensures DistinctKeys(r)
    ensures Lookup(r, k) == Some(v)
    ensures |r| == if HasKey(es, k) then |es| else |es| + 1
    ensures forall i :: 0 <= i < |es| && es[i].siteId != k ==> r[i] == es[i]
  {
    match IndexOfKey(es, k)
    case Some(i) =>
      var r := es[i := Entry(k, v)];
      assert r[i] == Entry(k, v);
      assert DistinctKeys(r);
      r
    case None =>
      var r := es + [Entry(k, v)];
      assert r[|es|] == Entry(k, v);
      r
  }

  /** Assigning one key leaves every other key's tab as it was. */
  lemma PutOthers(es: seq<Entry>, k: string, v: int)
    requires DistinctKeys(es)
    ensures forall k' :: k' != k ==> Lookup(Put(es, k, v), k') == Lookup(es, k')
  {
    match IndexOfKey(es, k)
    case Some(i) => PutKeepsOthers(es, es[i := Entry(k, v)], k);
    case None => PutKeepsOthers(es, es + [Entry(k, v)], k);
  }

  /** When `r` agrees with `es` at every entry of another key and adds no other key, lookups of other keys agree. */
  lemma PutKeepsOthers(es: seq<Entry>, r: seq<Entry>, k: string)
    requires DistinctKeys(es) && DistinctKeys(r) && |es| <= |r|
    requires forall i :: 0 <= i < |es| && es[i].siteId != k ==> r[i] == es[i]
    requires forall i :: 0 <= i < |r| && r[i].siteId != k ==> i < |es| && r[i] == es[i]
    ensures forall k' :: k' != k ==> Lookup(r, k') == Lookup(es, k')
  {
    forall k' | k' != k ensures Lookup(r, k') == Lookup(es, k') {
      if HasKey(es, k') {
        var i :| 0 <= i < |es| && es[i].siteId == k';
        assert r[i] == es[i];
      }
    }
  }

  /** `delete aiTabs[k]` */
  function Delete(es: seq<Entry>, k: string): (r: seq<Entry>)
    requires DistinctKeys(es)
    ensures IndexOfKey(es, k).None? ==> r == es
    ensures IndexOfKey(es, k).Some? ==> var i := IndexOfKey(es, k).value; r == es[..i] + es[i + 1..]
    ensures DistinctKeys(r)
    ensures !HasKey(r, k)
    ensures |r| == if HasKey(es, k) then |es| - 1 else |es|
  {
    match IndexOfKey(es, k)
    case None => es
    case Some(i) =>
      var r := es[..i] + es[i + 1..];
      assert forall j :: 0 <= j < |r| ==> r[j] == if j < i then es[j] else es[j + 1];
      r
  }

  /** Deleting one key leaves every other key's tab as it was. */
  lemma DeleteOthers(es: seq<Entry>, k: string)
    requires DistinctKeys(es)
    ensures forall k' :: k' != k ==> Lookup(Delete(es, k), k') == Lookup(es, k')
  {
    match IndexOfKey(es, k)
    case None =>
    case Some(i) =>
      SplicedEntries(es, i);
      SameOtherEntries(es[..i] + es[i + 1..], es, es[i].siteId);
  }

  /** Removing index `i` keeps every entry except the one there. */
  lemma SplicedEntries(es: seq<Entry>, i: nat)
    requires i < |es| && DistinctKeys(es)
    ensures DistinctKeys(es[..i] + es[i + 1..])
    ensures forall e :: e in es[..i] + es[i + 1..] ==> e in es
    ensures forall e :: e in es && e.siteId != es[i].siteId ==> e in es[..i] + es[i + 1..]
  {
    var r := es[..i] + es[i + 1..];
    assert forall j :: 0 <= j < |r| ==> r[j] == if j < i then es[j] else es[j + 1];
    forall e | e in es && e.siteId != es[i].siteId ensures e in r {
      var j :| 0 <= j < |es| && es[j] == e;
      if j < i { assert r[j] == e; } else { assert r[j - 1] == e; }
    }
  }

  /** Two lists with the same entries for every key but `k` agree on every other key. */
  lemma SameOtherEntries(a: seq<Entry>, b: seq<Entry>, k: string)
    requires DistinctKeys(a) && DistinctKeys(b)
    requires forall e :: e in a && e.siteId != k ==> e in b
    requires forall e :: e in b && e.siteId != k ==> e in a
    ensures forall k' :: k' != k ==> Lookup(a, k') == Lookup(b, k')
  {
    forall k' | k' != k ensures Lookup(a, k') == Lookup(b, k') {
      if HasKey(a, k') {
        var i :| 0 <= i < |a| && a[i].siteId == k';
        assert a[i] in b;
      }
    }
  }

  /** The index of the first entry holding tab `v`. */
  function FirstWithTab(es: seq<Entry>, v: int): (r: Option<nat>)
    ensures r.Some? ==> r.value < |es| && es[r.value].tabId == v
    ensures r.Some? ==> forall i :: 0 <= i < r.value ==> es[i].tabId != v
    ensures r.None? ==> forall i :: 0 <= i < |es| ==> es[i].tabId != v
  {
    if |es| == 0 then None
    else if es[0].tabId == v then Some(0)
    else match FirstWithTab(es[1..], v)
      case None => None
      case Some(i) => Some(i + 1)
  }

  /** `tabs.onRemoved` in background.js: the first entry holding the closed tab is deleted, and no other. */
  function RemoveTab(es: seq<Entry>, v: int): (r: seq<Entry>)
    ensures FirstWithTab(es, v).None? ==> r == es
    ensures FirstWithTab(es, v).Some? ==>
      var i := FirstWithTab(es, v).value;
      |r| == |es| - 1 && r == es[..i] + es[i + 1..]
  {
    match FirstWithTab(es, v)
    case None => es
    case Some(i) => es[..i] + es[i + 1..]
  }

  /** Closing a tab keeps the keys distinct and every other site's tab. */
  lemma RemoveTabKeepsOthers(es: seq<Entry>, v: int)
    requires DistinctKeys(es)
    ensures DistinctKeys(RemoveTab(es, v))
    ensures forall k :: Lookup(es, k).Some? && Lookup(es, k) != Some(v) ==> Lookup(RemoveTab(es, v), k) == Lookup(es, k)
    ensures |RemoveTab(es, v)| >= |es| - 1
  {
    match FirstWithTab(es, v)
    case None =>
    case Some(i) =>
      SplicedEntries(es, i);
      SameOtherEntries(es[..i] + es[i + 1..], es, es[i].siteId);
      assert Lookup(es, es[i].siteId) == Some(v);
  }

  /** Every tab id in order: `Object.values(aiTabs)`. */
  function Values(es: seq<Entry>): (r: seq<int>)
    ensures |r| == |es| && forall i :: 0 <= i < |es| ==> r[i] == es[i].tabId
  {
    if |es| == 0 then [] else [es[0].tabId] + Values(es[1..])
  }

  /** Successive assignments `aiTabs[e.siteId] = e.tabId`, one per entry of `puts` in order. */
  function PutAll(es: seq<Entry>, puts: seq<Entry>): (r: seq<Entry>)
    requires DistinctKeys(es)
    ensures DistinctKeys(r)
  {
    if |puts| == 0 then es
    else
      var last := puts[|puts| - 1];
      Put(PutAll(es, puts[..|puts| - 1]), last.siteId, last.tabId)
  }

  /** After the assignments, a site maps to the tab of its last assignment. */
  lemma {:induction false} PutAllLastWins(es: seq<Entry>, puts: seq<Entry>, j: nat)
    requires DistinctKeys(es) && j < |puts|
    requires forall l :: j < l < |puts| ==> puts[l].siteId != puts[j].siteId
    ensures Lookup(PutAll(es, puts), puts[j].siteId) == Some(puts[j].tabId)
  {
    var n := |puts|;
    var front := puts[..n - 1];
    if j < n - 1 {
      assert front[j] == puts[j];
      assert forall l :: j < l < n - 1 ==> front[l].siteId != front[j].siteId by {
        forall l | j < l < n - 1 ensures front[l].siteId != front[j].siteId {
          assert front[l] == puts[l];
        }
      }
      PutAllLastWins(es, front, j);
      PutAllStep(es, puts, front[j]);
    } else {
      PutAllLast(es, puts, j);
    }
  }

  /** The last assignment wins for its own key. */
  lemma PutAllLast(es: seq<Entry>, puts: seq<Entry>, j: nat)
    requires DistinctKeys(es) && j == |puts| - 1
    ensures Lookup(PutAll(es, puts), puts[j].siteId) == Some(puts[j].tabId)
  {
    assert PutAll(es, puts) == Put(PutAll(es, puts[..j]), puts[j].siteId, puts[j].tabId);
  }

  /** A key other than the last assignment's keeps the tab it had before it. */
  lemma PutAllStep(es: seq<Entry>, puts: seq<Entry>, e: Entry)
    requires DistinctKeys(es) && |puts| > 0 && puts[|puts| - 1].siteId != e.siteId
    requires Lookup(PutAll(es, puts[..|puts| - 1]), e.siteId) == Some(e.tabId)
    ensures Lookup(PutAll(es, puts), e.siteId) == Some(e.tabId)
  {
    PutAllUnfold(es, puts);
    PutKeeps(PutAll(es, puts[..|puts| - 1]), puts[|puts| - 1], e);
  }

  /** One more assignment on top of the earlier ones. */
  lemma PutAllUnfold(es: seq<Entry>, puts: seq<Entry>)
    requires DistinctKeys(es) && |puts| > 0
    ensures PutAll(es, puts) == Put(PutAll(es, puts[..|puts| - 1]), puts[|puts| - 1].siteId, puts[|puts| - 1].tabId)
  {
  }

  /** An assignment to another key keeps a key's tab. */
  lemma PutKeeps(es: seq<Entry>, put: Entry, e: Entry)
    requires DistinctKeys(es) && Lookup(es, e.siteId) == Some(e.tabId) && put.siteId != e.siteId
    ensures Lookup(Put(es, put.siteId, put.tabId), e.siteId) == Some(e.tabId)
  {
    PutOthers(es, put.siteId, put.tabId);
  }

  /** Deleting an entry's key removes exactly that entry and keeps the order of the rest. */
  lemma {:induction false} DeleteEntry(a: seq<Entry>, e: Entry, b: seq<Entry>)
    requires DistinctKeys(a + [e] + b)
    ensures Delete(a + [e] + b, e.siteId) == a + b
  {
    var es := a + [e] + b;
    assert es[|a|] == e;
    assert forall j :: 0 <= j < |a| ==> es[j] == a[j];
    assert IndexOfKey(es, e.siteId) == Some(|a|);
    assert es[..|a|] == a && es[|a| + 1..] == b;
  }
}

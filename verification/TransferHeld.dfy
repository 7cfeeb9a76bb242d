/** Counting lemmas about the index lists of acks and queues. */
module TransferHeld {
  import opened Wrappers
  import opened Chunking
  import opened TransferRecords

  ghost predicate Below(s: seq<nat>, n: nat) { forall k :: 0 <= k < |s| ==> s[k] < n }

  ghost predicate Distinct(s: seq<nat>) { forall j, k :: 0 <= j < k < |s| ==> s[j] != s[k] }

  lemma {:induction false} UnheldIsExact(n: nat, acked: set<nat>, flying: set<nat>)
    ensures forall i: nat :: i in Unheld(n, acked, flying) <==> i < n && i !in acked && i !in flying
    ensures Below(Unheld(n, acked, flying), n)
  {
    if n > 0 {
      UnheldIsExact(n - 1, acked, flying);
      var s := Unheld(n - 1, acked, flying);
      assert forall i: nat :: i in s + [n - 1] <==> i in s || i == n - 1;
    }
  }

  /** An ack lists exactly the parts held; with the missing ones they make up the whole. */
  lemma {:induction false} HeldIsExact(parts: seq<Option<Bytes>>)
    ensures forall k: nat :: k in Held(parts) <==> k < |parts| && parts[k].Some?
    ensures forall s: set<nat> {:trigger Unheld(|parts|, s, {})} ::
      (forall k: nat :: k < |parts| ==> (k in s <==> parts[k].Some?)) ==>
      |Held(parts)| + |Unheld(|parts|, s, {})| == |parts|
    decreases |parts|
  {
    if parts != [] {
      var n := |parts| - 1;
      HeldIsExact(parts[..n]);
      var h := Held(parts[..n]);
      assert forall k: nat :: k in h + [n] <==> k in h || k == n;
      forall s: set<nat> | forall k: nat :: k < |parts| ==> (k in s <==> parts[k].Some?)
        ensures |Held(parts)| + |Unheld(|parts|, s, {})| == |parts|
      {
        assert |h| + |Unheld(n, s, {})| == n;
      }
    }
  }

  /** Filling distinct empty places raises the number of held parts by their number. */
  lemma {:induction false} CountHeld(a: seq<Option<Bytes>>, b: seq<Option<Bytes>>, idx: seq<nat>)
    requires |a| == |b| && Below(idx, |a|) && Distinct(idx)
    requires forall k :: 0 <= k < |idx| ==> a[idx[k]].None?
    requires forall j: nat :: j < |a| ==> (b[j].Some? <==> a[j].Some? || j in idx)
    ensures |Held(b)| == |Held(a)| + |idx|
    decreases |idx|
  {
    hide Held;
    if idx == [] {
      SameHeld(a, b);
    } else {
      var n := |idx| - 1;
      var m := a[idx[n] := Some([])];
      assert idx == idx[..n] + [idx[n]];
      OneMoreHeld(a, idx[n], []);
      assert forall k :: 0 <= k < n ==> m[idx[..n][k]].None?;
      CountHeld(m, b, idx[..n]);
    }
  }

  lemma {:induction false} SameHeld(a: seq<Option<Bytes>>, b: seq<Option<Bytes>>)
    requires |a| == |b| && forall j :: 0 <= j < |a| ==> (b[j].Some? <==> a[j].Some?)
    ensures Held(a) == Held(b)
    decreases |a|
  {
    if a != [] { SameHeld(a[..|a| - 1], b[..|a| - 1]); }
  }

  lemma {:induction false} OneMoreHeld(a: seq<Option<Bytes>>, k: nat, p: Bytes)
    requires k < |a| && a[k].None?
    ensures |Held(a[k := Some(p)])| == |Held(a)| + 1
    decreases |a|
  {
    var n := |a| - 1;
    var b := a[k := Some(p)];
    if k < n {
      OneMoreHeld(a[..n], k, p);
      assert b[..n] == a[..n][k := Some(p)];
    } else {
      assert b[..n] == a[..n];
    }
  }

  /** The count reaches the total exactly when every part is there. */
  lemma FullIsAllHeld(parts: seq<Option<Bytes>>)
    ensures |Held(parts)| <= |parts|
    ensures |Held(parts)| == |parts| <==> forall j :: 0 <= j < |parts| ==> parts[j].Some?
  {
  }

  lemma {:induction false} NoneHeld(parts: seq<Option<Bytes>>)
    requires forall j :: 0 <= j < |parts| ==> parts[j].None?
    ensures Held(parts) == []
  {
    if parts != [] { NoneHeld(parts[..|parts| - 1]); }
  }
}

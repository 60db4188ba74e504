/** Counting a report of store events one event at a time. */
module StoreTally {
  import opened StoreEvents
  import opened StoreProtocol

  /** One reported event. */
  function CountedOne(t: Tally, k: nat, c: nat, n: nat): (t': Tally) {
    var total := Reports(t.counts, k) + c;
    if total >= n then
      Tally(t.counts - {k}, t.pending - {k}, t.processed + if k in t.pending then multiset{k} else multiset{})
    else t.(counts := t.counts[k := total])
  }

  lemma ConsumedNothing(t: Tally, report: map<nat, nat>, n: nat)
    ensures Consumed(t, Rest(report, report.Keys), n) == t
  {
    assert Rest(report, report.Keys) == map[];
    MergeNothing(t.counts, report);
    assert Finishing(t, map[], n) == {};
    assert t.counts - {} == t.counts;
    assert t.processed + multiset({} * t.pending) == t.processed;
  }

  lemma RestOneMore(report: map<nat, nat>, todo: set<nat>, k: nat)
    requires k in todo && todo <= report.Keys
    ensures k !in Rest(report, todo) && Rest(report, todo - {k}) == Rest(report, todo)[k := report[k]]
  {
  }

  lemma FinishingOneMore(t: Tally, a: map<nat, nat>, k: nat, c: nat, n: nat)
    requires k !in a
    ensures k !in Finishing(t, a, n)
    ensures Finishing(t, a[k := c], n) == Finishing(t, a, n) + if Reports(t.counts, k) + c >= n then {k} else {}
  {
  }

  lemma ProcessedOneMore(t: Tally, fa: set<nat>, fb: set<nat>, k: nat)
    requires k !in fa && (fb == fa || fb == fa + {k})
    ensures t.pending - fb == if k in fb then (t.pending - fa) - {k} else t.pending - fa
    ensures t.processed + multiset(fb * t.pending) ==
      t.processed + multiset(fa * t.pending) + if k in fb && k in t.pending - fa then multiset{k} else multiset{}
  {
    assert fb * t.pending == fa * t.pending + if k in fb && k in t.pending then {k} else {};
  }

  lemma CountsOneMore(counts: map<nat, nat>, a: map<nat, nat>, b: map<nat, nat>, fa: set<nat>, fb: set<nat>, k: nat,
                      c: nat, n: nat)
    requires k !in a && b == a[k := c] && k !in fa && fb == fa + if Reports(counts, k) + c >= n then {k} else {}
    ensures var m := Merged(counts, a) - fa;
      && Reports(m, k) == Reports(counts, k)
      && Merged(counts, b) - fb == if Reports(counts, k) + c >= n then m - {k} else m[k := Reports(counts, k) + c]
  {
    MergedFacts(counts, a);
    MergedFacts(counts, b);
    hide Merged;
    var ma, mb, x := Merged(counts, a), Merged(counts, b), Reports(counts, k) + c;
    assert k in mb && mb[k] == x;
    assert Reports(ma, k) == Reports(counts, k);
    forall j: nat | j != k ensures (j in mb <==> j in ma) && (j in ma ==> mb[j] == ma[j]) {
      assert Reports(b, j) == Reports(a, j);
    }
    assert mb == ma[k := x];
  }

  lemma ConsumedUpdate(t: Tally, a: map<nat, nat>, k: nat, c: nat, n: nat)
    requires k !in a
    ensures Consumed(t, a[k := c], n) == CountedOne(Consumed(t, a, n), k, c, n)
  {
    hide Finishing, Merged, Reports;
    FinishingOneMore(t, a, k, c, n);
    var fa, fb := Finishing(t, a, n), Finishing(t, a[k := c], n);
    CountsOneMore(t.counts, a, a[k := c], fa, fb, k, c, n);
    ProcessedOneMore(t, fa, fb, k);
  }

  /** Counting a report event by event, in any order, is counting it at once. */
  lemma ConsumedOneMore(t: Tally, report: map<nat, nat>, todo: set<nat>, k: nat, n: nat)
    requires k in todo && todo <= report.Keys
    ensures Consumed(t, Rest(report, todo - {k}), n) == CountedOne(Consumed(t, Rest(report, todo), n), k, report[k], n)
  {
    RestOneMore(report, todo, k);
    hide Rest, Consumed, CountedOne;
    ConsumedUpdate(t, Rest(report, todo), k, report[k], n);
  }
}

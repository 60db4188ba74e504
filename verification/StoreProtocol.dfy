/** The scheduler/worker store-event protocol as a state machine with any number of workers, reports
    that are aggregated and delivered in any order, and GPU events that finish in any order. */
module StoreProtocol {
  import opened Blocks
  import opened StoreEvents

  /** The scheduler's completion bookkeeping: reports counted per event, events not yet processed, and
      how often each event was processed. */
  datatype Tally = Tally(counts: map<nat, nat>, pending: set<nat>, processed: multiset<nat>)

  /** The events a report brings up to the expected number of workers. */
  function Finishing(t: Tally, report: map<nat, nat>, n: nat): (s: set<nat>) {
    set k | k in report && Reports(t.counts, k) + report[k] >= n
  }

  /** update_connector_output: add the report in; process and drop what is complete. */
  function Consumed(t: Tally, report: map<nat, nat>, n: nat): (t': Tally) {
    var ready := Finishing(t, report, n);
    Tally(Merged(t.counts, report) - ready, t.pending - ready, t.processed + multiset(ready * t.pending))
  }

  /** acc: blocks recorded this step; history: the contents of every event so far;
      recorded: all blocks ever recorded, in order. */
  datatype Net<T> = Net(
    workers: seq<Worker>, received: seq<nat>, done: seq<set<nat>>, reports: seq<map<nat, nat>>,
    tally: Tally, acc: seq<T>, history: seq<seq<T>>, recorded: seq<T>)

  function Flatten<T>(ss: seq<seq<T>>): (s: seq<T>) {
    if ss == [] then [] else Flatten(ss[..|ss| - 1]) + ss[|ss| - 1]
  }

  ghost predicate Start<T>(n: Net<T>) {
    && 0 < |n.workers| == |n.received| == |n.done|
    && (forall w :: 0 <= w < |n.workers| ==> n.workers[w] == Worker([], -1, {}, map[]) && n.received[w] == 0)
    && n.reports == [] && n.tally == Tally(map[], {}, multiset{})
    && n.acc == [] && n.history == [] && n.recorded == []
  }

  datatype Move<T> =
    | Record(batch: seq<T>)
    | FlushEvent
    | Receive(worker: nat)
    | GpuDone(worker: nat, event: nat)
    | Poll(worker: nat)
    | Send(worker: nat)
    | Merge(i: nat, j: nat)
    | Consume(i: nat)

  ghost predicate Step<T>(n: Net<T>, m: Move<T>, n': Net<T>) {
    match m
    case Record(batch) => n' == n.(acc := n.acc + batch, recorded := n.recorded + batch)
    case FlushEvent =>
      var k := |n.history|;
      && n.acc != []
      && n' == n.(acc := [], history := n.history + [n.acc],
                  tally := n.tally.(counts := n.tally.counts[k := 0], pending := n.tally.pending + {k}))
    case Receive(w) =>
      && w < |n.workers| == |n.received| && n.received[w] < |n.history|
      && n' == n.(workers := n.workers[w := Saved(n.workers[w], n.received[w])],
                  received := n.received[w := n.received[w] + 1])
    case GpuDone(w, k) => w < |n.done| && n' == n.(done := n.done[w := n.done[w] + {k}])
    case Poll(w) =>
      && w < |n.workers| == |n.done|
      && n' == n.(workers := n.workers[w := Harvested(n.workers[w], n.done[w])])
    case Send(w) =>
      && w < |n.workers| && n.workers[w].completed != map[]
      && n' == n.(workers := n.workers[w := n.workers[w].(completed := map[])],
                  reports := n.reports + [n.workers[w].completed])
    case Merge(i, j) =>
      && i < j < |n.reports|
      && n' == n.(reports := DropAt(n.reports, j)[i := Merged(n.reports[i], n.reports[j])])
    case Consume(i) =>
      && i < |n.reports|
      && n' == n.(reports := DropAt(n.reports, i), tally := Consumed(n.tally, n.reports[i], |n.workers|))
  }

  // ------------------------------------------------------------------ invariant

  /** Worker w has yet to deliver its report of event k. */
  predicate Owes(w: Worker, received: nat, k: nat) {
    k >= received || k in w.pending || k in w.completed
  }

  function Owing(ws: seq<Worker>, rs: seq<nat>, k: nat): (n: nat)
    requires |ws| == |rs|
    ensures n <= |ws|
  {
    if ws == [] then 0
    else Owing(ws[..|ws| - 1], rs[..|rs| - 1], k) + (if Owes(ws[|ws| - 1], rs[|rs| - 1], k) then 1 else 0)
  }

  /** Reports of event k under way. */
  function UnderWay(reports: seq<map<nat, nat>>, k: nat): (n: nat) {
    if reports == [] then 0 else UnderWay(reports[..|reports| - 1], k) + Reports(reports[|reports| - 1], k)
  }

  function Counted(t: Tally, n: nat, k: nat): (c: nat) {
    if k in t.pending then Reports(t.counts, k) else n
  }

  ghost predicate WorkerInv(w: Worker, received: nat, done: set<nat>, next: nat) {
    && WorkerOk(w) && received <= next && -1 <= w.hwm < received
    && (forall k: nat :: k in w.pending <==> w.hwm < k < received)
    && (forall k: nat :: k <= w.hwm ==> k in done)
  }

  ghost predicate WorkersInv<T>(n: Net<T>) {
    && 0 < |n.workers| == |n.received| == |n.done|
    && (forall w :: 0 <= w < |n.workers| ==> WorkerInv(n.workers[w], n.received[w], n.done[w], |n.history|))
  }

  ghost predicate ReportsInv<T>(n: Net<T>) {
    forall i, k :: 0 <= i < |n.reports| && k in n.reports[i] ==> k < |n.history| && n.reports[i][k] > 0
  }

  /** For every event, reports under way, reports counted and reports owed add up to the workers. */
  ghost predicate Balanced<T>(n: Net<T>) {
    && |n.workers| == |n.received|
    && (forall k: nat :: k < |n.history| ==>
          UnderWay(n.reports, k) + Counted(n.tally, |n.workers|, k) + Owing(n.workers, n.received, k) == |n.workers|)
  }

  ghost predicate TallyInv<T>(n: Net<T>) {
    && n.tally.counts.Keys == n.tally.pending
    && (forall k :: k in n.tally.pending ==> k < |n.history| && n.tally.counts[k] < |n.workers|)
    && (forall k: nat :: n.tally.processed[k] == if k < |n.history| && k !in n.tally.pending then 1 else 0)
  }

  ghost predicate LogInv<T>(n: Net<T>) {
    && n.recorded == Flatten(n.history) + n.acc
    && (forall k :: 0 <= k < |n.history| ==> n.history[k] != [])
  }

  ghost predicate NetInv<T>(n: Net<T>) {
    WorkersInv(n) && ReportsInv(n) && Balanced(n) && TallyInv(n) && LogInv(n)
  }

  // ------------------------------------------------------------------ counting lemmas

  lemma {:induction false} OwingUpdate(ws: seq<Worker>, rs: seq<nat>, i: nat, w: Worker, r: nat, k: nat)
    requires |ws| == |rs| && i < |ws|
    ensures Owing(ws[i := w], rs[i := r], k) + (if Owes(ws[i], rs[i], k) then 1 else 0)
      == Owing(ws, rs, k) + (if Owes(w, r, k) then 1 else 0)
  {
    var ws', rs', n := ws[i := w], rs[i := r], |ws| - 1;
    if i == n {
      assert ws'[..n] == ws[..n] && rs'[..n] == rs[..n];
    } else {
      assert ws'[..n] == ws[..n][i := w] && rs'[..n] == rs[..n][i := r];
      OwingUpdate(ws[..n], rs[..n], i, w, r, k);
    }
  }

  lemma {:induction false} OwingAll(ws: seq<Worker>, rs: seq<nat>, k: nat)
    requires |ws| == |rs| && forall w :: 0 <= w < |ws| ==> Owes(ws[w], rs[w], k)
    ensures Owing(ws, rs, k) == |ws|
  {
    if ws != [] { OwingAll(ws[..|ws| - 1], rs[..|rs| - 1], k); }
  }

  lemma {:induction false} OwingNone(ws: seq<Worker>, rs: seq<nat>, k: nat, w: nat)
    requires |ws| == |rs| && w < |ws| && Owing(ws, rs, k) == 0
    ensures !Owes(ws[w], rs[w], k)
  {
    if w < |ws| - 1 { OwingNone(ws[..|ws| - 1], rs[..|rs| - 1], k, w); }
  }

  lemma {:induction false} UnderWayDrop(reports: seq<map<nat, nat>>, i: nat, k: nat)
    requires i < |reports|
    ensures UnderWay(reports, k) == UnderWay(DropAt(reports, i), k) + Reports(reports[i], k)
  {
    hide Reports;
    var n, rest := |reports| - 1, DropAt(reports, i);
    if i == n {
      assert rest == reports[..n];
    } else {
      UnderWayDrop(reports[..n], i, k);
      assert rest[..n - 1] == DropAt(reports[..n], i);
      assert rest[n - 1] == reports[n];
    }
  }

  lemma {:induction false} UnderWayChange(reports: seq<map<nat, nat>>, i: nat, m: map<nat, nat>, k: nat)
    requires i < |reports|
    ensures UnderWay(reports[i := m], k) + Reports(reports[i], k) == UnderWay(reports, k) + Reports(m, k)
  {
    var n := |reports| - 1;
    if i == n {
      assert reports[i := m][..n] == reports[..n];
    } else {
      assert reports[i := m][..n] == reports[..n][i := m];
      UnderWayChange(reports[..n], i, m, k);
    }
  }

  lemma UnderWayAtLeast(reports: seq<map<nat, nat>>, i: nat, k: nat)
    requires i < |reports|
    ensures Reports(reports[i], k) <= UnderWay(reports, k)
  {
    UnderWayDrop(reports, i, k);
  }

  lemma {:induction false} UnderWayNothing(reports: seq<map<nat, nat>>, k: nat)
    requires forall i :: 0 <= i < |reports| ==> k !in reports[i]
    ensures UnderWay(reports, k) == 0
  {
    if reports != [] { UnderWayNothing(reports[..|reports| - 1], k); }
  }

  // ------------------------------------------------------------------ every step keeps the invariant

  lemma StartInv<T>(n: Net<T>)
    requires Start(n)
    ensures NetInv(n)
  {
    assert Flatten(n.history) == [];
  }

  lemma RecordKeeps<T>(n: Net<T>, batch: seq<T>, n': Net<T>)
    requires NetInv(n) && Step(n, Record(batch), n')
    ensures NetInv(n')
  {
    hide WorkersInv, ReportsInv, Balanced, TallyInv;
    OthersKeep(n, n');
    assert Flatten(n.history) + (n.acc + batch) == (Flatten(n.history) + n.acc) + batch;
  }

  lemma OthersKeep<T>(n: Net<T>, n': Net<T>)
    requires NetInv(n) && n' == n.(acc := n'.acc, recorded := n'.recorded)
    ensures WorkersInv(n') && ReportsInv(n') && Balanced(n') && TallyInv(n')
  {
  }

  lemma FlushKeeps<T>(n: Net<T>, n': Net<T>)
    requires NetInv(n) && Step(n, FlushEvent, n')
    ensures NetInv(n')
  {
    var k := |n.history|;
    assert n'.history[..k] == n.history;
    FlushLog(n, n');
    FlushBalanced(n, n');
    hide Balanced, LogInv;
    assert TallyInv(n');
  }

  lemma FlushLog<T>(n: Net<T>, n': Net<T>)
    requires LogInv(n) && Step(n, FlushEvent, n')
    ensures LogInv(n')
  {
    var k := |n.history|;
    assert n'.history[..k] == n.history;
    assert Flatten(n'.history) == Flatten(n.history) + n.acc;
  }

  lemma FlushBalanced<T>(n: Net<T>, n': Net<T>)
    requires WorkersInv(n) && ReportsInv(n) && Balanced(n) && TallyInv(n) && Step(n, FlushEvent, n')
    ensures Balanced(n')
  {
    var k := |n.history|;
    forall j: nat | j < |n'.history|
      ensures UnderWay(n'.reports, j) + Counted(n'.tally, |n'.workers|, j) + Owing(n'.workers, n'.received, j) ==
          |n'.workers|
    {
      if j == k {
        UnderWayNothing(n.reports, k);
        OwingAll(n.workers, n.received, k);
      } else {
        assert Counted(n'.tally, |n'.workers|, j) == Counted(n.tally, |n.workers|, j);
      }
    }
  }

  lemma WorkerMoves<T>(n: Net<T>, w: nat, x: Worker, r: nat, n': Net<T>)
    requires WorkersInv(n) && Balanced(n) && w < |n.workers|
    requires n'.workers == n.workers[w := x] && n'.received == n.received[w := r]
    requires |n'.history| == |n.history| && n'.tally == n.tally
    requires forall k: nat :: k < |n.history| ==>
      UnderWay(n'.reports, k) + (if Owes(x, r, k) then 1 else 0)
      == UnderWay(n.reports, k) + (if Owes(n.workers[w], n.received[w], k) then 1 else 0)
    ensures Balanced(n')
  {
    hide WorkersInv, Owes, Owing, UnderWay;
    WorkerBounds(n);
    forall k: nat | k < |n'.history|
      ensures UnderWay(n'.reports, k) + Counted(n'.tally, |n'.workers|, k) + Owing(n'.workers, n'.received, k) ==
          |n'.workers|
    {
      OwingUpdate(n.workers, n.received, w, x, r, k);
    }
  }

  lemma WorkerBounds<T>(n: Net<T>)
    requires WorkersInv(n)
    ensures 0 < |n.workers| == |n.received| == |n.done|
  {
  }

  lemma ReceiveKeeps<T>(n: Net<T>, w: nat, n': Net<T>)
    requires NetInv(n) && Step(n, Receive(w), n')
    ensures NetInv(n')
  {
    hide Balanced, LogInv, UnderWay;
    var x, r := Saved(n.workers[w], n.received[w]), n.received[w] + 1;
    assert WorkerInv(n.workers[w], n.received[w], n.done[w], |n.history|);
    SavedKeepsOk(n.workers[w], n.received[w]);
    hide WorkerOk;
    assert WorkerInv(x, r, n.done[w], |n.history|);
    WorkerMoves(n, w, x, r, n');
    LogUnchanged(n, n');
  }

  lemma LogUnchanged<T>(n: Net<T>, n': Net<T>)
    requires LogInv(n) && n'.history == n.history && n'.acc == n.acc && n'.recorded == n.recorded
    ensures LogInv(n')
  {
  }

  lemma GpuDoneKeeps<T>(n: Net<T>, w: nat, k: nat, n': Net<T>)
    requires NetInv(n) && Step(n, GpuDone(w, k), n')
    ensures NetInv(n')
  {
    hide LogInv, WorkerOk, UnderWay, Owing;
    LogUnchanged(n, n');
    assert WorkerInv(n.workers[w], n.received[w], n.done[w], |n.history|);
  }

  lemma PollKeeps<T>(n: Net<T>, w: nat, n': Net<T>)
    requires NetInv(n) && Step(n, Poll(w), n')
    ensures NetInv(n')
  {
    hide Balanced, LogInv, UnderWay, Harvested;
    var x := Harvested(n.workers[w], n.done[w]);
    assert WorkerInv(n.workers[w], n.received[w], n.done[w], |n.history|);
    HarvestIsDonePrefix(n.workers[w], n.done[w]);
    PolledBelow(n.workers[w], n.received[w], n.done[w], |n.history|);
    hide WorkerOk;
    assert n'.received == n.received[w := n.received[w]];
    WorkerMoves(n, w, x, n.received[w], n');
    LogUnchanged(n, n');
  }

  lemma PolledBelow(w: Worker, received: nat, done: set<nat>, next: nat)
    requires WorkerInv(w, received, done, next)
    ensures WorkerInv(Harvested(w, done), received, done, next)
  {
    var x := Harvested(w, done);
    HarvestIsDonePrefix(w, done);
    assert x.hwm < received by {
      if w.pending != {} {
        var n := DonePrefix(w.queue, done);
        assert n > 0 ==> w.queue[n - 1] in w.queue;
      }
    }
    hide WorkerOk, Harvested;
    forall k: nat | k <= x.hwm ensures k in done {
      assert k in w.pending || k <= w.hwm;
    }
  }

  lemma SendKeeps<T>(n: Net<T>, w: nat, n': Net<T>)
    requires NetInv(n) && Step(n, Send(w), n')
    ensures NetInv(n')
  {
    hide Balanced, LogInv, UnderWay;
    var y, x := n.workers[w], n.workers[w].(completed := map[]);
    assert WorkerInv(y, n.received[w], n.done[w], |n.history|);
    assert WorkerInv(x, n.received[w], n.done[w], |n.history|);
    forall k: nat | k < |n.history|
      ensures UnderWay(n'.reports, k) + (if Owes(x, n.received[w], k) then 1 else 0)
        == UnderWay(n.reports, k) + (if Owes(y, n.received[w], k) then 1 else 0)
    {
      SentAdds(n.reports, y.completed, k);
      assert k in y.completed ==> k < n.received[w] && k !in y.pending && y.completed[k] == 1;
    }
    hide WorkerOk;
    assert n'.received == n.received[w := n.received[w]];
    WorkerMoves(n, w, x, n.received[w], n');
    LogUnchanged(n, n');
  }

  lemma SentAdds(reports: seq<map<nat, nat>>, m: map<nat, nat>, k: nat)
    ensures UnderWay(reports + [m], k) == UnderWay(reports, k) + Reports(m, k)
  {
    assert (reports + [m])[..|reports|] == reports;
  }

  lemma MergeKeeps<T>(n: Net<T>, i: nat, j: nat, n': Net<T>)
    requires NetInv(n) && Step(n, Merge(i, j), n')
    ensures NetInv(n')
  {
    hide WorkersInv, TallyInv, LogInv, UnderWay, Owing, Merged;
    LogUnchanged(n, n');
    var rest, m := DropAt(n.reports, j), Merged(n.reports[i], n.reports[j]);
    assert rest[i] == n.reports[i];
    MergedFacts(n.reports[i], n.reports[j]);
    forall k: nat ensures UnderWay(n'.reports, k) == UnderWay(n.reports, k) {
      UnderWayDrop(n.reports, j, k);
      UnderWayChange(rest, i, m, k);
    }
    assert forall x, k :: 0 <= x < |rest| && k in rest[x] ==> k < |n.history| && rest[x][k] > 0;
    TallyUnchanged(n, n');
  }

  lemma MergedFacts(a: map<nat, nat>, b: map<nat, nat>)
    ensures forall k :: Reports(Merged(a, b), k) == Reports(a, k) + Reports(b, k)
    ensures forall k :: k in Merged(a, b) <==> k in a || k in b
    ensures forall k :: k in Merged(a, b) ==> Merged(a, b)[k] == Reports(a, k) + Reports(b, k)
  {
  }

  lemma TallyUnchanged<T>(n: Net<T>, n': Net<T>)
    requires WorkersInv(n) && TallyInv(n)
    requires n'.workers == n.workers && n'.received == n.received && n'.done == n.done && n'.history == n.history
    ensures WorkersInv(n')
    ensures n'.tally == n.tally ==> TallyInv(n')
  {
  }

  /** A report names only events that are still being counted, and never pushes one past the number of
      workers: what is under way can never exceed what is missing. */
  lemma ReportIsExpected<T>(n: Net<T>, i: nat, k: nat)
    requires NetInv(n) && i < |n.reports| && k in n.reports[i]
    ensures k in n.tally.pending && k in n.tally.counts
    ensures n.tally.counts[k] + n.reports[i][k] + Owing(n.workers, n.received, k) <= |n.workers|
  {
    hide WorkersInv, LogInv, Owing, UnderWay;
    UnderWayAtLeast(n.reports, i, k);
  }

  /** Adding in a report of events still being counted, none of which it pushes past n. */
  lemma ConsumedFacts(t: Tally, rep: map<nat, nat>, n: nat)
    requires t.counts.Keys == t.pending
    requires forall k :: k in rep ==> k in t.pending && t.counts[k] + rep[k] <= n
    ensures var t', ready := Consumed(t, rep, n), Finishing(t, rep, n);
      && t'.counts.Keys == t'.pending == t.pending - ready && ready <= t.pending
      && (forall k :: k in t'.pending ==> t'.counts[k] == t.counts[k] + Reports(rep, k))
      && (forall k :: k in ready ==> k in rep && t.counts[k] + rep[k] == n)
      && (forall k :: t'.processed[k] == t.processed[k] + if k in ready then 1 else 0)
  {
    hide Merged;
    var ready := Finishing(t, rep, n);
    MergedFacts(t.counts, rep);
    assert ready * t.pending == ready;
    FinishingFacts(t, rep, n);
    hide Finishing;
    DroppedKeys(Merged(t.counts, rep), ready, t.pending);
    LoggedOnce(t.processed, ready);
  }

  lemma FinishingFacts(t: Tally, rep: map<nat, nat>, n: nat)
    requires t.counts.Keys == t.pending
    requires forall k :: k in rep ==> k in t.pending && t.counts[k] + rep[k] <= n
    ensures Finishing(t, rep, n) <= t.pending
    ensures forall k :: k in Finishing(t, rep, n) ==> k in rep && t.counts[k] + rep[k] == n
  {
  }

  lemma DroppedKeys(m: map<nat, nat>, s: set<nat>, keys: set<nat>)
    requires forall k :: k in m <==> k in keys
    ensures (m - s).Keys == keys - s
    ensures forall k :: k in keys - s ==> (m - s)[k] == m[k]
  {
    assert m.Keys == keys;
  }

  lemma LoggedOnce(log: multiset<nat>, s: set<nat>)
    ensures forall k :: (log + multiset(s))[k] == log[k] + if k in s then 1 else 0
  {
  }

  lemma ConsumeTally<T>(n: Net<T>, i: nat, n': Net<T>)
    requires NetInv(n) && i < |n.reports| && n'.history == n.history && n'.workers == n.workers
    requires n'.tally == Consumed(n.tally, n.reports[i], |n.workers|)
    ensures TallyInv(n')
    ensures forall k: nat :: k < |n.history| ==>
      Counted(n'.tally, |n.workers|, k) == Counted(n.tally, |n.workers|, k) + Reports(n.reports[i], k)
  {
    hide WorkersInv, LogInv, Balanced, ReportsInv, Consumed;
    var t, rep := n.tally, n.reports[i];
    forall k | k in rep ensures k in t.pending && k in t.counts && t.counts[k] + rep[k] <= |n.workers| {
      ReportIsExpected(n, i, k);
    }
    NotFinished(t, rep, |n.workers|);
    ConsumedFacts(t, rep, |n.workers|);
    hide Finishing;
  }

  lemma NotFinished(t: Tally, rep: map<nat, nat>, n: nat)
    ensures forall k :: k in rep && k !in Finishing(t, rep, n) ==> Reports(t.counts, k) + rep[k] < n
  {
  }

  lemma DropKeepsReports<T>(n: Net<T>, i: nat, n': Net<T>)
    requires ReportsInv(n) && i < |n.reports| && n'.history == n.history && n'.reports == DropAt(n.reports, i)
    ensures ReportsInv(n')
  {
    forall x | 0 <= x < |n'.reports| ensures n'.reports[x] == n.reports[if x < i then x else x + 1] {
    }
  }

  lemma ConsumeKeeps<T>(n: Net<T>, i: nat, n': Net<T>)
    requires NetInv(n) && Step(n, Consume(i), n')
    ensures NetInv(n')
  {
    hide WorkersInv, LogInv, TallyInv, UnderWay, Owing, Consumed, Counted, ReportsInv, DropAt;
    ConsumeTally(n, i, n');
    LogUnchanged(n, n');
    TallyUnchanged(n, n');
    DropKeepsReports(n, i, n');
    forall k: nat ensures UnderWay(n.reports, k) == UnderWay(n'.reports, k) + Reports(n.reports[i], k) {
      UnderWayDrop(n.reports, i, k);
    }
  }

  lemma StepKeeps<T>(n: Net<T>, m: Move<T>, n': Net<T>)
    requires NetInv(n) && Step(n, m, n')
    ensures NetInv(n')
  {
    hide NetInv, Step;
    match m
    case Record(batch) => RecordKeeps(n, batch, n');
    case FlushEvent => FlushKeeps(n, n');
    case Receive(w) => ReceiveKeeps(n, w, n');
    case GpuDone(w, k) => GpuDoneKeeps(n, w, k, n');
    case Poll(w) => PollKeeps(n, w, n');
    case Send(w) => SendKeeps(n, w, n');
    case Merge(i, j) => MergeKeeps(n, i, j, n');
    case Consume(i) => ConsumeKeeps(n, i, n');
  }

  // ------------------------------------------------------------------ theorems over runs

  ghost predicate Run<T>(ns: seq<Net<T>>, ms: seq<Move<T>>) {
    && |ns| == |ms| + 1 && Start(ns[0])
    && (forall i :: 0 <= i < |ms| ==> Step(ns[i], ms[i], ns[i + 1]))
  }

  lemma {:induction false} RunKeeps<T>(ns: seq<Net<T>>, ms: seq<Move<T>>, i: nat)
    requires Run(ns, ms) && i < |ns|
    ensures NetInv(ns[i])
  {
    hide Step, NetInv, Start;
    if i == 0 {
      StartInv(ns[0]);
    } else {
      RunKeeps(ns, ms, i - 1);
      StepKeeps(ns[i - 1], ms[i - 1], ns[i]);
    }
  }

  /** The worker has received event k, and its GPU events up to k are all done. */
  ghost predicate DoneOn<T>(n: Net<T>, w: nat, k: nat) {
    && w < |n.received| && w < |n.done| && k < n.received[w]
    && (forall j: nat :: j <= k ==> j in n.done[w])
  }

  ghost predicate DoneEverywhere<T>(n: Net<T>, k: nat) {
    forall w: nat :: w < |n.workers| ==> DoneOn(n, w, k)
  }

  /** No event is ever processed twice. A processed event has been received by every worker, and on
      every worker its own GPU event and those of all earlier store events are done. */
  lemma ProcessedOnceAfterAllWorkers<T>(ns: seq<Net<T>>, ms: seq<Move<T>>, i: nat, k: nat)
    requires Run(ns, ms) && i < |ns|
    ensures ns[i].tally.processed[k] <= 1
    ensures k in ns[i].tally.processed ==> DoneEverywhere(ns[i], k)
  {
    hide Step, NetInv, Start, DoneOn;
    RunKeeps(ns, ms, i);
    var n := ns[i];
    TallyFacts(n, k);
    if k in n.tally.processed {
      forall w: nat | w < |n.workers| ensures DoneOn(n, w, k) {
        ReportedMeansDone(n, w, k);
      }
    }
  }

  lemma TallyFacts<T>(n: Net<T>, k: nat)
    requires NetInv(n)
    ensures n.tally.processed[k] <= 1
    ensures k in n.tally.processed <==> k < |n.history| && k !in n.tally.pending
  {
  }

  lemma ReportedMeansDone<T>(n: Net<T>, w: nat, k: nat)
    requires NetInv(n) && k < |n.history| && k !in n.tally.pending && w < |n.workers|
    ensures DoneOn(n, w, k)
  {
    hide LogInv, TallyInv, ReportsInv, UnderWay, Owing, WorkerOk;
    OwingNone(n.workers, n.received, k, w);
    assert WorkerInv(n.workers[w], n.received[w], n.done[w], |n.history|);
  }

  /** Everything under way has arrived: no report in flight, and no worker owes one. */
  ghost predicate Drained<T>(n: Net<T>) {
    && n.reports == [] && |n.workers| == |n.received|
    && (forall w, k: nat :: 0 <= w < |n.workers| && k < |n.history| ==> !Owes(n.workers[w], n.received[w], k))
  }

  /** Every event is then processed exactly once, and the blocks ever recorded are, in order, those of the
      events and those not flushed yet. */
  lemma DrainedMeansProcessed<T>(ns: seq<Net<T>>, ms: seq<Move<T>>, i: nat)
    requires Run(ns, ms) && i < |ns| && Drained(ns[i])
    ensures forall k: nat :: ns[i].tally.processed[k] == if k < |ns[i].history| then 1 else 0
    ensures ns[i].tally.pending == {} && ns[i].recorded == Flatten(ns[i].history) + ns[i].acc
  {
    hide Step, Start;
    RunKeeps(ns, ms, i);
    RecordedInOneEvent(ns, ms, i);
    var n := ns[i];
    hide LogInv, WorkersInv, ReportsInv, Owing;
    forall k: nat | k < |n.history| ensures k !in n.tally.pending {
      OwingNobody(n.workers, n.received, k);
    }
    assert forall k :: k in n.tally.pending ==> k < |n.history|;
  }

  lemma {:induction false} OwingNobody(ws: seq<Worker>, rs: seq<nat>, k: nat)
    requires |ws| == |rs| && forall w :: 0 <= w < |ws| ==> !Owes(ws[w], rs[w], k)
    ensures Owing(ws, rs, k) == 0
  {
    if ws != [] { OwingNobody(ws[..|ws| - 1], rs[..|rs| - 1], k); }
  }

  /** Every block recorded so far is in exactly one place: in order, the events' contents followed by
      what this step has accumulated are all the blocks ever recorded. Flushed events never change. */
  lemma RecordedInOneEvent<T>(ns: seq<Net<T>>, ms: seq<Move<T>>, i: nat)
    requires Run(ns, ms) && i < |ns|
    ensures ns[i].recorded == Flatten(ns[i].history) + ns[i].acc
    ensures forall k :: 0 <= k < |ns[i].history| ==> ns[i].history[k] != []
  {
    hide Step, Start;
    RunKeeps(ns, ms, i);
    hide WorkersInv, ReportsInv, TallyInv, Balanced;
  }

  lemma {:induction false} EventsAreFinal<T>(ns: seq<Net<T>>, ms: seq<Move<T>>, i: nat, j: nat)
    requires Run(ns, ms) && i <= j < |ns|
    ensures ns[i].history <= ns[j].history
    decreases j
  {
    if i < j {
      EventsAreFinal(ns, ms, i, j - 1);
      assert Step(ns[j - 1], ms[j - 1], ns[j]);
    }
  }
}

/** Store-event reporting: the worker's FIFO watermark and the counting of workers' reports. */
module StoreEvents {
  import opened Blocks

  /** A worker's store side: GPU events in flight, watermark, events awaiting report, reports to send. */
  datatype Worker = Worker(queue: seq<nat>, hwm: int, pending: set<nat>, completed: map<nat, nat>)

  /** wait_for_save for event k. */
  function Saved(w: Worker, k: nat): (w': Worker) {
    w.(queue := w.queue + [k], pending := w.pending + {k})
  }

  /** How many events at the head of the queue are done. */
  function DonePrefix(queue: seq<nat>, done: set<nat>): (n: nat)
    ensures n <= |queue|
    ensures forall i :: 0 <= i < n ==> queue[i] in done
    ensures n < |queue| ==> queue[n] !in done
  {
    if queue == [] || queue[0] !in done then 0 else 1 + DonePrefix(queue[1..], done)
  }

  /** The watermark after polling: the last event of the done prefix. */
  function Watermark(w: Worker, done: set<nat>): (h: int) {
    var n := DonePrefix(w.queue, done);
    if n == 0 then w.hwm else w.queue[n - 1]
  }

  function Polled(w: Worker, done: set<nat>): (w': Worker) {
    w.(queue := w.queue[DonePrefix(w.queue, done)..], hwm := Watermark(w, done))
  }

  function UpTo(pending: set<nat>, h: int): (s: set<nat>) {
    set j | j in pending && j <= h
  }

  function Ones(s: set<nat>): (m: map<nat, nat>) {
    map j | j in s :: 1
  }

  /** The events of s move from awaiting report to reported. */
  function Moved(w: Worker, s: set<nat>): (w': Worker) {
    w.(pending := w.pending - s, completed := w.completed + Ones(s))
  }

  lemma MoveOne(w: Worker, s: set<nat>, j: nat)
    ensures Moved(w, s + {j}) ==
      Moved(w, s).(pending := Moved(w, s).pending - {j}, completed := Moved(w, s).completed[j := 1])
  {
    assert Ones(s + {j}) == Ones(s)[j := 1];
    assert w.completed + Ones(s)[j := 1] == (w.completed + Ones(s))[j := 1];
    assert w.pending - (s + {j}) == (w.pending - s) - {j};
  }

  lemma MoveNone(w: Worker)
    ensures Moved(w, {}) == w
  {
    assert w.completed + Ones({}) == w.completed;
  }

  /** get_finished: everything at or below the watermark moves to the reports. */
  function Harvested(w: Worker, done: set<nat>): (w': Worker) {
    if w.pending == {} then w
    else Moved(Polled(w, done), UpTo(w.pending, Watermark(w, done)))
  }

  /** The queue is FIFO in event order, and holds exactly the events still awaiting report. */
  ghost predicate WorkerOk(w: Worker) {
    && (forall i, j :: 0 <= i < j < |w.queue| ==> w.queue[i] < w.queue[j])
    && (forall k :: k in w.queue <==> k in w.pending)
    && (forall k :: k in w.pending ==> w.hwm < k)
    && (forall k :: k in w.completed ==> k <= w.hwm && w.completed[k] == 1)
  }

  lemma SavedKeepsOk(w: Worker, k: nat)
    requires WorkerOk(w) && w.hwm < k && forall j :: j in w.pending ==> j < k
    ensures WorkerOk(Saved(w, k))
  {
    forall i | 0 <= i < |w.queue| ensures w.queue[i] < k {
      assert w.queue[i] in w.queue;
    }
  }

  /** Cutting an ascending queue after n events cuts its elements at the last one dropped. */
  lemma QueueCut(queue: seq<nat>, hwm: int, n: nat, h: int)
    requires n <= |queue| && h == if n == 0 then hwm else queue[n - 1]
    requires forall i, j :: 0 <= i < j < |queue| ==> queue[i] < queue[j]
    requires forall k :: k in queue ==> hwm < k
    ensures hwm <= h
    ensures forall k :: k in queue[n..] <==> k in queue && k > h
    ensures forall k :: k in queue && k <= h ==> exists i :: 0 <= i < n && queue[i] == k
  {
    assert n > 0 ==> queue[n - 1] in queue;
    forall i | 0 <= i < |queue| ensures queue[i] <= h <==> i < n {
      assert queue[i] in queue;
    }
    forall k | k in queue && k > h ensures k in queue[n..] {
      var i :| 0 <= i < |queue| && queue[i] == k;
      assert queue[n..][i - n] == k;
    }
  }

  /** FIFO watermark: polling moves to the reports exactly a prefix of the queue all of whose events are
      done, so an event is reported only when it and every earlier one it queued behind are done. */
  lemma HarvestIsDonePrefix(w: Worker, done: set<nat>)
    requires WorkerOk(w)
    ensures var w' := Harvested(w, done);
      && WorkerOk(w')
      && w.hwm <= w'.hwm
      && (forall k :: k in w'.pending <==> k in w.pending && k > w'.hwm)
      && (forall k :: k in w.pending && k <= w'.hwm ==> k in done)
      && (forall k :: k in w'.completed <==> k in w.completed || (k in w.pending && k <= w'.hwm))
  {
    var n, w' := DonePrefix(w.queue, done), Harvested(w, done);
    if w.pending != {} {
      hide WorkerOk, DonePrefix, Harvested, Watermark;
      QueueFacts(w);
      DonePrefixFacts(w.queue, done);
      HarvestParts(w, done);
      QueueCut(w.queue, w.hwm, n, w'.hwm);
      HarvestKeepsOk(w, n, w');
    }
  }

  lemma HarvestParts(w: Worker, done: set<nat>)
    requires w.pending != {}
    ensures var n, w' := DonePrefix(w.queue, done), Harvested(w, done);
      && w'.queue == w.queue[n..] && w'.hwm == (if n == 0 then w.hwm else w.queue[n - 1])
      && (forall k :: k in w'.pending <==> k in w.pending && k > w'.hwm)
      && (forall k :: k in w'.completed <==> k in w.completed || (k in w.pending && k <= w'.hwm))
      && (forall k :: k in w'.completed ==>
            w'.completed[k] == if k in w.pending && k <= w'.hwm then 1 else w.completed[k])
  {
  }

  lemma QueueFacts(w: Worker)
    requires WorkerOk(w)
    ensures forall i, j :: 0 <= i < j < |w.queue| ==> w.queue[i] < w.queue[j]
    ensures forall k :: k in w.queue ==> w.hwm < k
    ensures forall k :: k in w.queue <==> k in w.pending
  {
  }

  lemma DonePrefixFacts(queue: seq<nat>, done: set<nat>)
    ensures var n := DonePrefix(queue, done); n <= |queue| && forall i :: 0 <= i < n ==> queue[i] in done
  {
  }

  lemma HarvestKeepsOk(w: Worker, n: nat, w': Worker)
    requires WorkerOk(w) && n <= |w.queue| && w'.queue == w.queue[n..] && w.hwm <= w'.hwm
    requires forall k :: k in w.queue[n..] <==> k in w.queue && k > w'.hwm
    requires forall k :: k in w'.pending <==> k in w.pending && k > w'.hwm
    requires forall k :: k in w'.completed ==> if k in w.pending && k <= w'.hwm then w'.completed[k] == 1
                                               else k in w.completed && w'.completed[k] == w.completed[k]
    ensures WorkerOk(w')
  {
  }

  /** What polling leaves behind is headed by an event that is not done. */
  lemma HarvestStopsAtUndone(w: Worker, done: set<nat>)
    requires WorkerOk(w) && Harvested(w, done).pending != {}
    ensures exists k ::
      k in Harvested(w, done).pending && k !in done && forall j :: j in Harvested(w, done).pending ==> k <= j
  {
    hide WorkerOk, Harvested;
    HarvestIsDonePrefix(w, done);
    var w' := Harvested(w, done);
    var k :| k in w'.pending;
    assert k in w.pending;
    QueueAfter(w, done);
    HeadIsLeast(w');
  }

  lemma QueueAfter(w: Worker, done: set<nat>)
    requires WorkerOk(w) && w.pending != {}
    ensures var n := DonePrefix(w.queue, done); n < |w.queue| ==> w.queue[n] !in done
    ensures Harvested(w, done).queue == w.queue[DonePrefix(w.queue, done)..]
  {
  }

  lemma HeadIsLeast(w: Worker)
    requires WorkerOk(w) && w.pending != {}
    ensures w.queue != [] && w.queue[0] in w.pending && forall j :: j in w.pending ==> w.queue[0] <= j
  {
    var k :| k in w.pending;
    assert k in w.queue;
    assert w.queue[0] in w.queue;
  }

  class StoreWorker {
    var storeEvents: seq<nat>
    var storeHwm: int
    var pendingStoreEvents: set<nat>
    var completedStoreEvents: map<nat, nat>

    ghost function View(): (w: Worker)
      reads this
    {
      Worker(storeEvents, storeHwm, pendingStoreEvents, completedStoreEvents)
    }

    constructor ()
      ensures View() == Worker([], -1, {}, map[]) && WorkerOk(View())
    {
      storeEvents, storeHwm, pendingStoreEvents, completedStoreEvents := [], -1, {}, map[];
    }

    /** A GPU event is queued for the step's store event, if it has one with blocks in it. */
    method WaitForSave(storeEvent: Option<nat>, blocks: seq<nat>, ready: bool)
      modifies this
      ensures View() == if storeEvent.Some? && blocks != [] && ready then Saved(old(View()),
            storeEvent.value) else old(View())
    {
      if storeEvent.None? || blocks == [] || !ready { return; }
      storeEvents := storeEvents + [storeEvent.value];
      pendingStoreEvents := pendingStoreEvents + {storeEvent.value};
    }

    /** Pops done events from the head of the queue. `done` is what the event queries answer. */
    method PollEvents(done: set<nat>) returns (hwm: int)
      modifies this`storeEvents, this`storeHwm
      ensures View() == Polled(old(View()), done) && hwm == storeHwm
    {
      hwm := storeHwm;
      ghost var n := 0;
      while storeEvents != []
        invariant n <= |old(storeEvents)| && storeEvents == old(storeEvents)[n..]
        invariant DonePrefix(old(storeEvents), done) == n + DonePrefix(storeEvents, done)
        invariant hwm == if n == 0 then storeHwm else old(storeEvents)[n - 1]
        invariant storeHwm == old(storeHwm)
        decreases |storeEvents|
      {
        if storeEvents[0] !in done { break; }
        hwm := storeEvents[0];
        storeEvents := storeEvents[1..];
        n := n + 1;
      }
      storeHwm := hwm;
    }

    method GetFinished(done: set<nat>)
      modifies this
      ensures View() == Harvested(old(View()), done)
    {
      hide DonePrefix, Moved;
      if pendingStoreEvents == {} { return; }
      var hwm := PollEvents(done);
      ghost var was := View();
      var todo := set j | j in pendingStoreEvents && j <= hwm;
      ghost var ready, moved := UpTo(was.pending, was.hwm), {};
      MoveNone(was);
      while todo != {}
        invariant todo + moved == ready && todo !! moved
        invariant View() == Moved(was, moved)
        decreases |todo|
      {
        var j :| j in todo;
        MoveOne(was, moved, j);
        pendingStoreEvents := pendingStoreEvents - {j};
        completedStoreEvents := completedStoreEvents[j := 1];
        todo := todo - {j};
        moved := moved + {j};
      }
      assert moved == ready;
    }

    /** Hands the collected reports over and starts afresh. */
    method BuildWorkerMeta() returns (meta: Option<map<nat, nat>>)
      modifies this
      ensures meta == if old(completedStoreEvents) == map[] then None else Some(old(completedStoreEvents))
      ensures View() == old(View()).(completed := map[])
    {
      if completedStoreEvents == map[] { return None; }
      meta := Some(completedStoreEvents);
      completedStoreEvents := map[];
    }
  }

  // ------------------------------------------------------------------ reports

  function Reports(m: map<nat, nat>, k: nat): (n: nat) {
    if k in m then m[k] else 0
  }

  /** Reports of two workers (or groups of workers) added up. */
  function Merged(a: map<nat, nat>, b: map<nat, nat>): (m: map<nat, nat>)
    ensures m.Keys == a.Keys + b.Keys
    ensures forall k :: Reports(m, k) == Reports(a, k) + Reports(b, k)
  {
    map k | k in a.Keys + b.Keys :: Reports(a, k) + Reports(b, k)
  }

  /** Reports may be aggregated in any order. */
  lemma MergeAnyOrder(a: map<nat, nat>, b: map<nat, nat>, c: map<nat, nat>)
    ensures Merged(a, b) == Merged(b, a)
    ensures Merged(Merged(a, b), c) == Merged(a, Merged(b, c))
  {
  }

  /** The reports outside `todo`. */
  ghost function Rest(b: map<nat, nat>, todo: set<nat>): (m: map<nat, nat>) {
    map k | k in b && k !in todo :: b[k]
  }

  lemma MergeOneMore(a: map<nat, nat>, b: map<nat, nat>, todo: set<nat>, k: nat)
    requires k in todo && todo <= b.Keys
    ensures var m := Merged(a, Rest(b, todo)); Merged(a, Rest(b, todo - {k})) == m[k := Reports(m, k) + b[k]]
  {
    var m, m' := Merged(a, Rest(b, todo)), Merged(a, Rest(b, todo - {k}));
    forall j ensures Reports(Rest(b, todo - {k}), j) == if j == k then b[k] else Reports(Rest(b, todo), j) {
    }
    assert m'.Keys == m.Keys + {k};
    forall j | j in m' ensures m'[j] == Reports(a, j) + Reports(Rest(b, todo - {k}), j) {
      assert m'[j] == Reports(m', j);
    }
    forall j | j in m ensures m[j] == Reports(a, j) + Reports(Rest(b, todo), j) {
      assert m[j] == Reports(m, j);
    }
  }

  lemma RestOfAll(b: map<nat, nat>)
    ensures Rest(b, {}) == b
  {
  }

  lemma MergeNothing(a: map<nat, nat>, b: map<nat, nat>)
    ensures Merged(a, Rest(b, b.Keys)) == a
  {
    var m := Merged(a, Rest(b, b.Keys));
    assert m.Keys == a.Keys;
    forall k | k in a ensures m[k] == a[k] {
      assert m[k] == Reports(m, k);
    }
  }

  /** aggregate: copies one side and adds the other in, leaving both inputs alone. */
  method Aggregate(a: map<nat, nat>, b: map<nat, nat>) returns (m: map<nat, nat>)
    ensures m == Merged(a, b)
  {
    hide Merged, Rest;
    m := a;
    var todo := b.Keys;
    MergeNothing(a, b);
    while todo != {}
      invariant todo <= b.Keys && m == Merged(a, Rest(b, todo))
      decreases |todo|
    {
      var k :| k in todo;
      MergeOneMore(a, b, todo, k);
      m := m[k := Reports(m, k) + b[k]];
      todo := todo - {k};
    }
    RestOfAll(b);
  }
}

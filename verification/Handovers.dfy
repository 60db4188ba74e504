/** What the serving engine hands the connector at each scheduling step. */
module Handovers {
  import opened Blocks
  import opened Offloading
  import opened Engine
  import opened EngineSync

  /** The request's full page list: new pages are appended, except that a resumed request starts over. */
  function FullList(known: seq<nat>, newIds: Option<seq<nat>>, resumed: bool): (ids: seq<nat>) {
    if resumed then (if newIds.Some? then newIds.value else [])
    else known + (if newIds.Some? then newIds.value else [])
  }

  /** When the pages handed over are the table's new tail, the list synced is the block table itself. */
  lemma FullListIsTheTable(s: State, q: string)
    requires Tracked(s) && q in s.tables
    ensures var known := Known(s.mirror, q);
      FullList(known, Some(NewPages(s.tables, q, |known|)), false) == s.tables[q]
  {
    hide Tracked;
    SyncSeesTheTable(s, q);
  }

  /** A request's pages as one step of the serving engine hands them over. */
  datatype Handover = Handover(req: string, newIds: Option<seq<nat>>, resumed: bool, tokens: nat)

  datatype NewRequest = NewRequest(req: string, ids: seq<nat>, tokens: nat, promptLen: nat)

  /** scheduled: tokens scheduled for the request in this step; due: the interval controller's answer. */
  datatype CachedRequest = CachedRequest(handover: Handover, scheduled: nat, due: bool)

  /** What a copy is made for. */
  datatype Transfer = AfterPrefill | Interval | Promotion

  /** What the serving engine promises of a hand-over: with it the connector's copy is the block table
      and token counts do not shrink. */
  ghost predicate HandedOver(tables: map<string, seq<nat>>, mirror: map<string, seq<nat>>,
                             computed: map<string, nat>, h: Handover) {
    && h.req in tables && !IsWarmup(h.req)
    && FullList(Known(mirror, h.req), h.newIds, h.resumed) == tables[h.req]
    && (h.req in computed ==> computed[h.req] <= h.tokens)
  }

  /** A new request's list starts from nothing, like that of a resumed one. */
  function Arrival(n: NewRequest): (h: Handover) {
    Handover(n.req, Some(n.ids), true, n.tokens)
  }

  /** All hand-overs of a step, in the order they are dealt with. */
  function AllHandovers(arrived: seq<NewRequest>, cached: seq<CachedRequest>): (hs: seq<Handover>)
    ensures |hs| == |arrived| + |cached|
    ensures forall i :: 0 <= i < |arrived| ==> hs[i] == Arrival(arrived[i])
    ensures forall i :: 0 <= i < |cached| ==> hs[|arrived| + i] == cached[i].handover
  {
    seq(|arrived| + |cached|, i requires 0 <= i < |arrived| + |cached| =>
      if i < |arrived| then Arrival(arrived[i]) else cached[i - |arrived|].handover)
  }

  /** From position n on, every request is handed over properly; no request comes twice. */
  ghost predicate HandedFrom(tables: map<string, seq<nat>>, mirror: map<string, seq<nat>>,
                             computed: map<string, nat>, hs: seq<Handover>, n: nat) {
    && (forall i, j :: 0 <= i < j < |hs| ==> hs[i].req != hs[j].req)
    && (forall i :: n <= i < |hs| ==> HandedOver(tables, mirror, computed, hs[i]))
  }

  /** The first n requests' token counts are the ones handed over. */
  ghost predicate Tokened(computed: map<string, nat>, hs: seq<Handover>, n: nat) {
    forall i :: 0 <= i < n <= |hs| ==> hs[i].req in computed && computed[hs[i].req] == hs[i].tokens
  }

  lemma HandedNow(tables: map<string, seq<nat>>, mirror: map<string, seq<nat>>, computed: map<string, nat>,
                  hs: seq<Handover>, n: nat)
    requires n < |hs| && HandedFrom(tables, mirror, computed, hs, n)
    ensures HandedOver(tables, mirror, computed, hs[n]) && hs[n].req in tables
  {
    hide IsWarmup;
  }

  lemma HandedNext(tables: map<string, seq<nat>>, mirror: map<string, seq<nat>>, computed: map<string, nat>,
                   hs: seq<Handover>, n: nat, ids: seq<nat>)
    requires n < |hs| && HandedFrom(tables, mirror, computed, hs, n) && Tokened(computed, hs, n)
    ensures HandedFrom(tables, mirror[hs[n].req := ids], computed[hs[n].req := hs[n].tokens], hs, n + 1)
    ensures Tokened(computed[hs[n].req := hs[n].tokens], hs, n + 1)
  {
    hide IsWarmup;
    var mirror', computed' := mirror[hs[n].req := ids], computed[hs[n].req := hs[n].tokens];
    forall i | n + 1 <= i < |hs| ensures HandedOver(tables, mirror', computed', hs[i]) {
      assert hs[n].req != hs[i].req;
      assert HandedOver(tables, mirror, computed, hs[i]);
      assert Known(mirror', hs[i].req) == Known(mirror, hs[i].req);
    }
  }

  /** The running requests that are past their prefill. */
  function ActiveOf(cached: seq<CachedRequest>, prefillCompleted: set<string>): (active: seq<string>) {
    if cached == [] then []
    else
      var rest := ActiveOf(cached[..|cached| - 1], prefillCompleted);
      var q := cached[|cached| - 1].handover.req;
      if q in prefillCompleted then rest + [q] else rest
  }
}

/** The strategies page: the list loaded from the AutoTask backend, merged
    with realtime updates, optimistically updated on start and stop, and
    filtered by the selected tab. */
module Strategies {
  import opened Js
  import opened Storage
  import Lists

  const Running: Value := Str("running")
  const Stopped: Value := Str("stopped")

  function IdOf(s: Record): Value {
    Get(s, "id")
  }

  function StatusOf(s: Record): Value {
    Get(s, "status")
  }

  predicate IsRunning(s: Record) {
    StatusOf(s) == Running
  }

  predicate IsStopped(s: Record) {
    StatusOf(s) == Stopped
  }

  /** `updates[strategy.id] ? { ...strategy, ...updates[strategy.id] } : strategy`. */
  function MergeOne(updates: map<Value, Record>, s: Record): Record {
    if IdOf(s) in updates then Spread(s, updates[IdOf(s)]) else s
  }

  /** The realtime merge: same length and order; a strategy with an update
      takes every field of the update and keeps its others; a strategy
      without one is unchanged. */
  function MergeUpdates(list: seq<Record>, updates: map<Value, Record>): (r: seq<Record>)
    ensures |r| == |list|
    ensures forall i :: 0 <= i < |list| && IdOf(list[i]) !in updates ==> r[i] == list[i]
    ensures forall i :: 0 <= i < |list| && IdOf(list[i]) in updates ==>
      r[i].Keys == list[i].Keys + updates[IdOf(list[i])].Keys
    ensures forall i, k :: 0 <= i < |list| && IdOf(list[i]) in updates ==>
      Get(r[i], k) == (if k in updates[IdOf(list[i])] then updates[IdOf(list[i])][k] else Get(list[i], k))
  {
    Lists.MapSeq((s: Record) => MergeOne(updates, s), list)
  }

  /** `{ ...s, status }` for the entries whose id is `id`. */
  function WithStatusIf(id: Value, status: Value, s: Record): Record {
    if IdOf(s) == id then s["status" := status] else s
  }

  /** The optimistic update: exactly the entries with the given id get the
      new status; every other entry, and every other field, is unchanged. */
  function SetStatus(list: seq<Record>, id: Value, status: Value): (r: seq<Record>)
    ensures |r| == |list|
    ensures forall i :: 0 <= i < |list| && IdOf(list[i]) == id ==>
      StatusOf(r[i]) == status && IdOf(r[i]) == id && r[i] - {"status"} == list[i] - {"status"}
    ensures forall i :: 0 <= i < |list| && IdOf(list[i]) != id ==> r[i] == list[i]
  {
    Lists.MapSeq((s: Record) => WithStatusIf(id, status, s), list)
  }

  /** Repeating an optimistic update changes nothing more. */
  lemma SetStatusIdempotent(list: seq<Record>, id: Value, status: Value)
    ensures SetStatus(SetStatus(list, id, status), id, status) == SetStatus(list, id, status)
  {
    var once := SetStatus(list, id, status);
    var twice := SetStatus(once, id, status);
    forall i | 0 <= i < |list| ensures twice[i] == once[i] {
      if IdOf(list[i]) == id {
        assert once[i] == list[i]["status" := status];
      }
    }
  }

  /** Starting a strategy never lowers the running count. */
  lemma StartKeepsRunning(list: seq<Record>, id: Value)
    ensures RunningCount(SetStatus(list, id, Running)) >= RunningCount(list)
  {
    var f := (s: Record) => WithStatusIf(id, Running, s);
    Lists.FilterAfterMap(IsRunning, f, list);
  }

  /** The tab callback: `'running'` and `'stopped'` select by status; `'all'`
      and every other tab select everything. */
  predicate InTab(tab: string, s: Record) {
    if tab == "all" then true
    else if tab == "running" then IsRunning(s)
    else if tab == "stopped" then IsStopped(s)
    else true
  }

  /** `filteredStrategies`: an order-preserving subsequence of the list. */
  function FilteredStrategies(list: seq<Record>, tab: string): (r: seq<Record>)
    ensures Lists.SubsequenceOf(r, list)
    ensures tab != "running" && tab != "stopped" ==> r == list
    ensures tab == "running" ==> forall s :: s in r <==> s in list && IsRunning(s)
    ensures tab == "stopped" ==> forall s :: s in r <==> s in list && IsStopped(s)
  {
    var p := (s: Record) => InTab(tab, s);
    Lists.FilterSubsequence(p, list);
    Lists.FilterMembers(p, list);
    if tab != "running" && tab != "stopped" then
      Lists.FilterKeepsAll(p, list);
      Lists.Filter(p, list)
    else
      Lists.Filter(p, list)
  }

  /** The header counts. */
  function RunningCount(list: seq<Record>): (n: nat)
    ensures n <= |list|
  {
    |Lists.Filter(IsRunning, list)|
  }

  function StoppedCount(list: seq<Record>): (n: nat)
    ensures n <= |list|
  {
    |Lists.Filter(IsStopped, list)|
  }

  /** Running plus stopped never exceeds the total. */
  lemma CountsWithinTotal(list: seq<Record>)
    ensures RunningCount(list) + StoppedCount(list) <= |list|
  {
    Lists.FilterDisjoint(IsRunning, IsStopped, list);
  }

  /** The running tab shows as many cards as the running count says. */
  lemma RunningTabMatchesCount(list: seq<Record>)
    ensures |FilteredStrategies(list, "running")| == RunningCount(list)
    ensures |FilteredStrategies(list, "stopped")| == StoppedCount(list)
  {
    Lists.FilterSame((s: Record) => InTab("running", s), IsRunning, list);
    Lists.FilterSame((s: Record) => InTab("stopped", s), IsStopped, list);
  }

  /** What the page shows. */
  datatype View = NotAvailable | Spinner | Grid(shown: seq<Record>, emptyState: bool)

  /** The page's render branches: the notice on any backend other than
      AutoTask, the spinner while loading, else the filtered cards and, when
      there are none, the empty state. */
  function PageView(backend: string, loading: bool, list: seq<Record>, tab: string): (v: View)
    ensures v.NotAvailable? <==> backend != AutoTask
    ensures v.Spinner? <==> backend == AutoTask && loading
    ensures v.Grid? ==> Lists.SubsequenceOf(v.shown, list) && (v.emptyState <==> v.shown == [])
    ensures v.Grid? ==> v.shown == FilteredStrategies(list, tab)
  {
    if backend != AutoTask then NotAvailable
    else if loading then Spinner
    else
      var shown := FilteredStrategies(list, tab);
      Grid(shown, |shown| == 0)
  }

  /** The list endpoint's outcome: `response.data?.strategies` (None when
      missing), or a thrown error. */
  datatype ListResponse = Loaded(strategies: Option<seq<Record>>) | LoadFailed

  /** The page's state hooks. */
  class StrategiesPage {
    var strategies: seq<Record>
    var loading: bool
    var activeTab: string

    constructor ()
      ensures strategies == [] && loading && activeTab == "all"
    {
      strategies := [];
      loading := true;
      activeTab := "all";
    }

    /** `loadStrategies`: a missing list loads as empty, a failure keeps
        the old list, and loading ends either way. */
    method LoadStrategies(response: ListResponse)
      modifies this
      ensures !loading && activeTab == old(activeTab)
      ensures response.Loaded? ==> strategies == response.strategies.GetOr([])
      ensures response.LoadFailed? ==> strategies == old(strategies)
    {
      if response.Loaded? {
        strategies := response.strategies.GetOr([]);
      }
      loading := false;
    }

    /** The backend effect: data is loaded only on the AutoTask backend. */
    method OnBackend(backend: string, response: ListResponse)
      modifies this
      ensures backend == AutoTask ==> (
        && !loading && activeTab == old(activeTab)
        && strategies == (if response.Loaded? then response.strategies.GetOr([]) else old(strategies)))
      ensures backend != AutoTask ==> strategies == old(strategies) && loading == old(loading) && activeTab == old(activeTab)
    {
      if backend == AutoTask {
        LoadStrategies(response);
      }
    }

    /** The realtime effect: merge when the `strategies` slot is present. */
    method OnRealtimeStrategies(slot: Option<map<Value, Record>>)
      modifies this
      ensures strategies == (if slot.Some? then MergeUpdates(old(strategies), slot.value) else old(strategies))
      ensures loading == old(loading) && activeTab == old(activeTab)
    {
      if slot.Some? {
        strategies := MergeUpdates(strategies, slot.value);
      }
    }

    /** `handleStartStrategy`: `started` says whether `startStrategy`
        returned; when it threw, the list is left as it was. */
    method HandleStartStrategy(id: Value, started: bool)
      modifies this
      ensures strategies == (if started then SetStatus(old(strategies), id, Running) else old(strategies))
      ensures loading == old(loading) && activeTab == old(activeTab)
    {
      if started {
        strategies := SetStatus(strategies, id, Running);
      }
    }

    /** `handleStopStrategy`, the same with status `'stopped'`. */
    method HandleStopStrategy(id: Value, stopped: bool)
      modifies this
      ensures strategies == (if stopped then SetStatus(old(strategies), id, Stopped) else old(strategies))
      ensures loading == old(loading) && activeTab == old(activeTab)
    {
      if stopped {
        strategies := SetStatus(strategies, id, Stopped);
      }
    }

    method SelectTab(tab: string)
      modifies this
      ensures activeTab == tab && strategies == old(strategies) && loading == old(loading)
    {
      activeTab := tab;
    }
  }
}

/**
 * The assistant's data-source selector (public/services/data_source_service.ts).
 *
 * The service keeps the selected data-source id in one RxJS `BehaviorSubject<string | null>`.
 * Writers are: the default-setting seed, the DataSourceManagement plugin's selection events,
 * an explicit clear, and the `setDataSourceId` setters handed out by `setup` and `start`.
 *
 * The module first gives the service's state as a value (`ServiceState`) with one pure transition per
 * operation, proves what the service promises about them, and then models the service object
 * itself as a class whose methods are proved against those transitions.
 */
module DataSources {
  import opened Wrappers

  /** One option of a DataSourceManagement selection: the data source's id and its label (`name` here, since `label` is a Dafny keyword). */
  datatype DSOption = DSOption(id: string, name: string)

  /**
   * The selection rule. `values` are the values of the plugin's selection map, in insertion
   * order; each is the list of options one selector component holds. Exactly one option is
   * picked only when there is exactly one selector holding exactly one option. An empty single
   * list yields `undefined` in `getDSMDataSourceSelectionOption`, represented here by `None` like `null`: the one
   * caller maps both to `null`.
   */
  function SelectionOption(values: seq<seq<DSOption>>): (r: Option<DSOption>)
    ensures r.Some? <==> |values| == 1 && |values[0]| == 1
    ensures r.Some? ==> r.value == values[0][0]
  {
    if |values| == 0 || |values| > 1 || |values[0]| > 1 then None
    else if |values[0]| == 0 then None
    else Some(values[0][0])
  }

  /** The id a selection event writes into the cell: `option?.id ?? null`. */
  function SelectedId(values: seq<seq<DSOption>>): (r: Option<string>)
    ensures r.Some? <==> |values| == 1 && |values[0]| == 1
    ensures r.Some? ==> r.value == values[0][0].id
  {
    match SelectionOption(values)
    case None => None
    case Some(option) => Some(option.id)
  }

  /** The query-scoping filter: `{}` is `Query(None)`, `{ dataSourceId }` is `Query(Some(dataSourceId))`. */
  datatype Query = Query(dataSourceId: Option<string>)

  /** The error `getDataSourceQuery` throws ("No data source id"). */
  datatype QueryError = NoDataSourceId

  /**
   * The service's state.
   * - dataSourceId: the subject's current value, what `getValue()` returns;
   * - emitted: the values the subject has pushed to a subscriber attached from the start,
   *   beginning with the initial `null`;
   * - stopped: the subject has completed;
   * - enabled: a DataSourceManagement plugin was passed to the last `setup`;
   * - selectionHandlers: selection subscriptions still live (an earlier one that a later `setup`
   *   overwrote in the subscription field is not released, so it stays live);
   * - holdsSubscription: the subscription field holds a live subscription that `stop` releases.
   */
  datatype ServiceState = ServiceState(
    dataSourceId: Option<string>,
    emitted: seq<Option<string>>,
    stopped: bool,
    enabled: bool,
    selectionHandlers: nat,
    holdsSubscription: bool)

  /** A freshly constructed service. */
  const Initial := ServiceState(None, [None], false, false, 0, false)

  /**
   * The invariant every reachable state keeps: a subscriber has seen at least the initial value,
   * the last value it saw is the current one until the subject completes, and a subscription
   * held in the field is live and came from a `setup` that had the plugin.
   */
  predicate Invariant(s: ServiceState)
  {
    |s.emitted| > 0
    && (!s.stopped ==> s.emitted[|s.emitted| - 1] == s.dataSourceId)
    && (s.holdsSubscription ==> s.selectionHandlers > 0 && s.enabled)
  }

  /**
   * `dataSourceId$.next(v)`. RxJS's BehaviorSubject stores the value before the subject checks
   * whether it has completed, so the current value always follows the write; subscribers are
   * notified only while the subject has not completed.
   */
  function AfterNext(s: ServiceState, v: Option<string>): (t: ServiceState)
    ensures t.dataSourceId == v
    ensures s.stopped ==> t.emitted == s.emitted
    ensures !s.stopped ==> t.emitted == s.emitted + [v]
    ensures t.stopped == s.stopped && t.enabled == s.enabled
    ensures t.selectionHandlers == s.selectionHandlers && t.holdsSubscription == s.holdsSubscription
    ensures Invariant(s) ==> Invariant(t)
  {
    s.(dataSourceId := v, emitted := if s.stopped then s.emitted else s.emitted + [v])
  }

  /**
   * `initDefaultDataSourceIdIfNeed`, given the value the UI-settings client returns for
   * `defaultDataSource` (`None` for `null`). The client is always present when the plugin is,
   * since both are set by the same `setup`.
   */
  function AfterInitDefault(s: ServiceState, defaultDataSource: Option<string>): (t: ServiceState)
    ensures !s.enabled || s.dataSourceId.Some? ==> t == s
    ensures s.enabled && s.dataSourceId.None? && defaultDataSource.Some? && defaultDataSource.value != ""
            ==> t == AfterNext(s, defaultDataSource)
    ensures defaultDataSource.None? || defaultDataSource == Some("") ==> t == s
  {
    if !s.enabled || s.dataSourceId != None then s
    else if defaultDataSource.Some? && defaultDataSource.value != "" then AfterNext(s, defaultDataSource)
    else s
  }

  /** The selection handler `setup` subscribes: one run of it for one selection event. */
  function AfterSelection(s: ServiceState, values: seq<seq<DSOption>>): (t: ServiceState)
    requires s.selectionHandlers > 0
    ensures t.dataSourceId.Some? <==> |values| == 1 && |values[0]| == 1
    ensures t.dataSourceId.Some? ==> t.dataSourceId.value == values[0][0].id
    ensures t == AfterNext(s, t.dataSourceId)
  {
    AfterNext(s, SelectedId(values))
  }

  /**
   * `setup`: records whether the plugin is present and, when it is, subscribes one more
   * selection handler and keeps that subscription in the field (overwriting the field either way).
   */
  function AfterSetup(s: ServiceState, hasDataSourceManagement: bool): (t: ServiceState)
    ensures t.enabled == hasDataSourceManagement
    ensures t.holdsSubscription == hasDataSourceManagement
    ensures t.selectionHandlers == s.selectionHandlers + (if hasDataSourceManagement then 1 else 0)
    ensures t.dataSourceId == s.dataSourceId && t.emitted == s.emitted && t.stopped == s.stopped
    ensures Invariant(s) ==> Invariant(t)
  {
    s.(enabled := hasDataSourceManagement,
       holdsSubscription := hasDataSourceManagement,
       selectionHandlers := if hasDataSourceManagement then s.selectionHandlers + 1 else s.selectionHandlers)
  }

  /** `stop`: releases the subscription held in the field and completes the subject. */
  function AfterStop(s: ServiceState): (t: ServiceState)
    requires Invariant(s)
    ensures t.stopped && !t.holdsSubscription
    ensures t.selectionHandlers == if s.holdsSubscription then s.selectionHandlers - 1 else s.selectionHandlers
    ensures t.dataSourceId == s.dataSourceId && t.emitted == s.emitted && t.enabled == s.enabled
    ensures Invariant(t)
  {
    s.(stopped := true,
       holdsSubscription := false,
       selectionHandlers := if s.holdsSubscription then s.selectionHandlers - 1 else s.selectionHandlers)
  }

  /** `getDataSourceQuery`: the filter that scopes a request, or the error it throws. */
  function QueryOf(s: ServiceState): (r: Result<Query, QueryError>)
    ensures !s.enabled ==> r == Success(Query(None))
    ensures s.enabled ==> (r.Failure? <==> s.dataSourceId.None?)
    ensures s.enabled && s.dataSourceId == Some("") ==> r == Success(Query(None))
    ensures s.enabled && s.dataSourceId.Some? && s.dataSourceId.value != "" ==> r == Success(Query(s.dataSourceId))
    ensures r.Success? && r.value.dataSourceId.Some? ==> r.value.dataSourceId.value != ""
  {
    if !s.enabled then Success(Query(None))
    else match s.dataSourceId
      case None => Failure(NoDataSourceId)
      case Some(id) => if id == "" then Success(Query(None)) else Success(Query(Some(id)))
  }

  /** What can happen to the service, one call or one handler run at a time. */
  datatype Event =
    | InitRequested(defaultDataSource: Option<string>)
    | Cleared
    | IdSet(id: Option<string>)
    | SelectionChanged(values: seq<seq<DSOption>>)
    | SetUp(hasDataSourceManagement: bool)
    | Stopped

  /** One event. A selection event with no live handler has nobody to run it and changes nothing. */
  function Step(s: ServiceState, e: Event): (t: ServiceState)
    requires Invariant(s)
    ensures Invariant(t)
  {
    match e
    case InitRequested(d) => AfterInitDefault(s, d)
    case Cleared => AfterNext(s, None)
    case IdSet(id) => AfterNext(s, id)
    case SelectionChanged(values) => if s.selectionHandlers > 0 then AfterSelection(s, values) else s
    case SetUp(has) => AfterSetup(s, has)
    case Stopped => AfterStop(s)
  }

  /** A sequence of events, in order. Every state reachable from a valid one is valid. */
  function Run(s: ServiceState, events: seq<Event>): (t: ServiceState)
    requires Invariant(s)
    ensures Invariant(t)
    decreases |events|
  {
    if events == [] then s else Run(Step(s, events[0]), events[1..])
  }

  /** Running two event sequences one after the other is running their concatenation. */
  lemma {:induction false} RunAppend(s: ServiceState, first: seq<Event>, second: seq<Event>)
    requires Invariant(s)
    ensures Run(s, first + second) == Run(Run(s, first), second)
    decreases |first|
  {
    if first == [] {
      assert first + second == second;
    } else {
      assert (first + second)[0] == first[0];
      assert (first + second)[1..] == first[1..] + second;
      RunAppend(Step(s, first[0]), first[1..], second);
    }
  }

  /** What subscribers have seen is never taken back: the notification stream only grows. */
  lemma {:induction false} EmittedOnlyGrows(s: ServiceState, events: seq<Event>)
    requires Invariant(s)
    ensures s.emitted <= Run(s, events).emitted
    decreases |events|
  {
    if events != [] {
      var t := Step(s, events[0]);
      assert s.emitted <= t.emitted;
      EmittedOnlyGrows(t, events[1..]);
    }
  }

  /** Once the subject has completed it stays completed and subscribers get nothing more. */
  lemma {:induction false} StoppedStreamIsFinal(s: ServiceState, events: seq<Event>)
    requires Invariant(s) && s.stopped
    ensures Run(s, events).stopped
    ensures Run(s, events).emitted == s.emitted
    decreases |events|
  {
    if events != [] {
      StoppedStreamIsFinal(Step(s, events[0]), events[1..]);
    }
  }

  /** Whether the service is enabled changes only by `setup`. */
  lemma {:induction false} EnabledOnlyBySetup(s: ServiceState, events: seq<Event>)
    requires Invariant(s)
    requires forall i :: 0 <= i < |events| ==> !events[i].SetUp?
    ensures Run(s, events).enabled == s.enabled
    decreases |events|
  {
    if events != [] {
      EnabledOnlyBySetup(Step(s, events[0]), events[1..]);
    }
  }

  /**
   * Without the plugin, queries are never scoped and never fail, whatever ids are written,
   * as long as no later `setup` brings the plugin.
   */
  lemma {:induction false} DisabledQueryIsEmpty(s: ServiceState, events: seq<Event>)
    requires Invariant(s) && !s.enabled
    requires forall i :: 0 <= i < |events| ==> events[i] != SetUp(true)
    ensures QueryOf(Run(s, events)) == Success(Query(None))
    decreases |events|
  {
    if events != [] {
      DisabledQueryIsEmpty(Step(s, events[0]), events[1..]);
    }
  }

  /** Seeding from the default setting is idempotent. */
  lemma InitDefaultIdempotent(s: ServiceState, defaultDataSource: Option<string>)
    ensures AfterInitDefault(AfterInitDefault(s, defaultDataSource), defaultDataSource)
            == AfterInitDefault(s, defaultDataSource)
  {
  }

  /**
   * Once an id is set, however many times the default seed runs and whatever default it reads,
   * the id stays the one that was set: the seed never overrides a selection.
   */
  lemma {:induction false} SetIdSurvivesInitDefault(s: ServiceState, id: string, events: seq<Event>)
    requires Invariant(s)
    requires forall i :: 0 <= i < |events| ==> events[i].InitRequested?
    ensures Run(AfterNext(s, Some(id)), events).dataSourceId == Some(id)
    decreases |events|
  {
    if events != [] {
      var t := AfterNext(s, Some(id));
      assert Step(t, events[0]) == t;
      SetIdSurvivesInitDefault(s, id, events[1..]);
    }
  }

  /** The last write decides the current value, before and after the subject completes. */
  lemma LastWriteWins(s: ServiceState, events: seq<Event>, id: Option<string>)
    requires Invariant(s)
    ensures Run(s, events + [IdSet(id)]).dataSourceId == id
  {
    RunAppend(s, events, [IdSet(id)]);
  }

  /** A successful query loses nothing about a set id: equal queries come from equal ids. */
  lemma QueryDeterminesId(s: ServiceState, t: ServiceState)
    requires s.enabled && t.enabled
    requires QueryOf(s).Success? && QueryOf(s) == QueryOf(t)
    ensures s.dataSourceId == t.dataSourceId
  {
  }

  /** The service object. Its fields are those of the TypeScript class; `emitted` is the subscribers' view. */
  class DataSourceService {
    var dataSourceId: Option<string>
    ghost var emitted: seq<Option<string>>
    var stopped: bool
    var enabled: bool
    var selectionHandlers: nat
    var holdsSubscription: bool

    ghost function State(): ServiceState
      reads this
    {
      ServiceState(dataSourceId, emitted, stopped, enabled, selectionHandlers, holdsSubscription)
    }

    ghost predicate Valid()
      reads this
    {
      Invariant(State())
    }

    constructor ()
      ensures Valid() && State() == Initial
    {
      dataSourceId := None;
      emitted := [None];
      stopped := false;
      enabled := false;
      selectionHandlers := 0;
      holdsSubscription := false;
    }

    /** `dataSourceId$.next(v)`. */
    method Next(v: Option<string>)
      requires Valid()
      modifies this
      ensures Valid() && State() == AfterNext(old(State()), v)
    {
      dataSourceId := v;
      if !stopped {
        emitted := emitted + [v];
      }
    }

    method InitDefaultDataSourceIdIfNeed(defaultDataSource: Option<string>)
      requires Valid()
      modifies this
      ensures Valid() && State() == AfterInitDefault(old(State()), defaultDataSource)
    {
      if !enabled || dataSourceId != None {
        return;
      }
      if defaultDataSource.Some? && defaultDataSource.value != "" {
        Next(defaultDataSource);
        return;
      }
    }

    method ClearDataSourceId()
      requires Valid()
      modifies this
      ensures Valid() && State() == AfterNext(old(State()), None)
      ensures dataSourceId == None
    {
      Next(None);
    }

    /** The setter returned by both `setup` and `start`. */
    method SetDataSourceId(newDataSourceId: Option<string>)
      requires Valid()
      modifies this
      ensures Valid() && State() == AfterNext(old(State()), newDataSourceId)
      ensures dataSourceId == newDataSourceId
    {
      Next(newDataSourceId);
    }

    method GetDataSourceQuery() returns (r: Result<Query, QueryError>)
      ensures r == QueryOf(State())
    {
      if !enabled {
        return Success(Query(None));
      }
      var id := dataSourceId;
      if id == None {
        return Failure(NoDataSourceId);
      }
      if id.value == "" {
        return Success(Query(None));
      }
      return Success(Query(id));
    }

    method Setup(hasDataSourceManagement: bool)
      requires Valid()
      modifies this
      ensures Valid() && State() == AfterSetup(old(State()), hasDataSourceManagement)
    {
      enabled := hasDataSourceManagement;
      if hasDataSourceManagement {
        selectionHandlers := selectionHandlers + 1;
      }
      holdsSubscription := hasDataSourceManagement;
    }

    /** One run of the selection handler that `setup` subscribed. */
    method OnSelectionChanged(values: seq<seq<DSOption>>)
      requires Valid() && selectionHandlers > 0
      modifies this
      ensures Valid() && State() == AfterSelection(old(State()), values)
    {
      var selected := SelectionOption(values);
      var id := match selected case None => None case Some(option) => Some(option.id);
      Next(id);
    }

    method Stop()
      requires Valid()
      modifies this
      ensures Valid() && State() == AfterStop(old(State()))
    {
      if holdsSubscription {
        selectionHandlers := selectionHandlers - 1;
        holdsSubscription := false;
      }
      stopped := true;
    }
  }
}

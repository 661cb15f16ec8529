# Dashboards assistant: data-source selector and chat-flyout layout

This project models the two pieces of logic in the chat assistant plugin for the dashboards
application that are more than UI glue.

- **`DataSourceService`** (`data_sources.dfy`) keeps the selected data-source id in one RxJS
  `BehaviorSubject<string | null>`. The id is written in four ways:
  - seeded from the `defaultDataSource` UI setting, but only when the DataSourceManagement plugin
    is present and no id is set yet;
  - overwritten by the plugin's selection events;
  - cleared;
  - overwritten by the `setDataSourceId` setters that `setup` and `start` return.

  `getDataSourceQuery` turns the id into the request filter `{}` or `{ dataSourceId }`. It throws
  when the plugin is present but no id is set.
  The model gives the service's state as a value (`ServiceState`) with one pure transition per
  operation. It proves the service's promises about those transitions and about any sequence of
  them (`Run`). It then models the service object as the class `DataSourceService`, whose methods
  are proved to perform exactly those transitions.
- **The chat flyout** (`chat_flyout.dfy`) derives a layout on every render from three inputs: the
  selected tab, whether an override component is given, and whether the flyout is fullscreen. The
  layout holds the visibility of the chat page, the history page and the trace; whether the two
  panels form a resizable split; and the two panel sizes (0, 100 or `undefined`). The panels'
  hidden flags and initial sizes follow from the layout. A module-level latch,
  `chatHistoryPageLoaded`, keeps the history page mounted once it has been shown. The latch is the
  field of the class `FlyoutModule`, and `Render` updates it.

`Option` stands for `T | null` and `Result` for a value-or-exception (`wrappers.dfy`).

What the code does and does not do:
- The code has no provenance tag and no duplicate suppression.
- The id does not follow later changes of the default setting.
- Every write overwrites the id, and every write before `stop` notifies subscribers, including a
  write of the value already held.
- After `stop`, the subject's current value still follows writes. RxJS's `BehaviorSubject.next`
  stores the value before it checks for completion, so `getValue()` and `getDataSourceQuery` see
  later writes. Only subscribers stop receiving values, and so the model freezes what subscribers
  see, not the current value.

## Model

| member | source | states |
|---|---|---|
| `DataSources.SelectionOption` | public/services/data_source_service.ts:10-21 | An option is picked iff the selection has exactly one entry and that entry holds exactly one option; the pick is that option. No entries, several entries, several options in the one entry, or an empty entry all give none. |
| `DataSources.SelectedId` | public/services/data_source_service.ts:72-75 | The id a selection event writes is the picked option's id when there is one, and null otherwise (an empty single entry included). |
| `DataSources.AfterNext` | public/services/data_source_service.ts:24 | A write to the subject always sets the current value. Before completion it appends the value to what subscribers see; after completion subscribers see nothing new. Nothing else changes and the invariant is kept. |
| `DataSources.AfterInitDefault` | public/services/data_source_service.ts:31-40 | Unchanged state when the plugin is absent or an id is already set. Otherwise the default is written iff it is a non-empty string; a null or empty default leaves the state unchanged. |
| `DataSources.AfterSelection` | public/services/data_source_service.ts:72-75 | One handler run writes an id iff the selection has one entry holding one option, and that id is the option's id. Otherwise it writes null. The run is exactly one write to the subject. |
| `DataSources.AfterSetup` | public/services/data_source_service.ts:67-75 | The service is enabled iff the plugin is given. With the plugin, one more live selection handler exists and its subscription is held. The id and the notifications are untouched, and the invariant is kept. |
| `DataSources.AfterStop` | public/services/data_source_service.ts:91-94 | The subject is completed and the held subscription (if any) is released, with one live handler fewer. The id, the notifications and the enabled flag are untouched, and the invariant is kept. |
| `DataSources.QueryOf` | public/services/data_source_service.ts:46-58 | Without the plugin the filter is `{}` whatever the id. With the plugin the query fails iff the id is null. An empty id gives `{}` and any other id `{dataSourceId: id}`, so a scoped filter never carries an empty id. |
| `DataSources.Step` | public/services/data_source_service.ts:31-94 | Every operation keeps the state invariant. |
| `DataSources.Run` | public/services/data_source_service.ts:23-95 | Every state reachable from a valid one by any sequence of operations is valid. |
| `DataSources.EmittedOnlyGrows` | public/services/data_source_service.ts:24 | What subscribers have been sent is a prefix of what they are sent after any further operations. |
| `DataSources.StoppedStreamIsFinal` | public/services/data_source_service.ts:91-94 | After `stop` the subject stays completed, and no later operation sends subscribers anything. |
| `DataSources.EnabledOnlyBySetup` | public/services/data_source_service.ts:68 | Only `setup` changes whether the service is enabled. |
| `DataSources.DisabledQueryIsEmpty` | public/services/data_source_service.ts:46-49 | From a disabled state, with no later `setup` that brings the plugin, the query is `{}` after any operations; it is never scoped and never throws. |
| `DataSources.InitDefaultIdempotent` | public/services/data_source_service.ts:31-40 | Seeding from the default twice is the same as seeding once. |
| `DataSources.SetIdSurvivesInitDefault` | public/services/data_source_service.ts:32-34 | After an id is set, any number of default seeds with any defaults leave that id in place. |
| `DataSources.LastWriteWins` | public/services/data_source_service.ts:84-88 | After any operations, a `setDataSourceId(id)` makes the current value exactly `id`, also after `stop`. |
| `DataSources.QueryDeterminesId` | public/services/data_source_service.ts:50-57 | With the plugin, two states with the same successful query hold the same id. |
| `DataSources.DataSourceService.Next` | public/services/data_source_service.ts:37 | Every `dataSourceId$.next(...)` write (lines 37, 43, 74, 78, 86): the new state is `AfterNext` of the old state and the written value, so the current value becomes that value and subscribers are notified only before `stop`. |
| `DataSources.DataSourceService.constructor` | public/services/data_source_service.ts:24-29 | A new service holds null and has sent subscribers only null. It is not stopped, not enabled and has no subscription. |
| `DataSources.DataSourceService.InitDefaultDataSourceIdIfNeed` | public/services/data_source_service.ts:31-40 | The new state is `AfterInitDefault` of the old state and the default read from the settings. |
| `DataSources.DataSourceService.ClearDataSourceId` | public/services/data_source_service.ts:42-44 | The id becomes null by one write to the subject, and nothing else changes. |
| `DataSources.DataSourceService.SetDataSourceId` | public/services/data_source_service.ts:84-88 | The id becomes exactly the argument by one write to the subject, and nothing else changes. The setter `setup` returns (lines 77-79) is the same code. |
| `DataSources.DataSourceService.GetDataSourceQuery` | public/services/data_source_service.ts:46-58 | Returns `QueryOf` the current state, or its error in place of the throw. |
| `DataSources.DataSourceService.Setup` | public/services/data_source_service.ts:60-81 | The new state is `AfterSetup` of the old state. |
| `DataSources.DataSourceService.OnSelectionChanged` | public/services/data_source_service.ts:72-75 | When a selection handler is live, one run of it moves the state to `AfterSelection` of the old state and the selection values. |
| `DataSources.DataSourceService.Stop` | public/services/data_source_service.ts:91-94 | The new state is `AfterStop` of the old state. |
| `ChatFlyout.LeftPanelSize` | public/chat_flyout.tsx:59-67 | The size is undefined iff resizable. Otherwise it is 100 iff the chat page is visible, and 0 iff it is not. |
| `ChatFlyout.RightPanelSize` | public/chat_flyout.tsx:69-77 | The size is undefined iff resizable. Otherwise it is 100 iff the history page or the trace is visible, and 0 iff neither is. |
| `ChatFlyout.LayoutOf` | public/chat_flyout.tsx:28-80 | An override hides all three pages. History and trace follow their tab alone and are never both visible. The chat page is visible iff there is no override and either its tab is selected or fullscreen is on. Without fullscreen, a visible chat page excludes the other two. Resizable iff fullscreen with history or trace visible, and then both sizes are undefined. Otherwise left is 100/0 by chat visibility and right is 100/0 by history-or-trace visibility. |
| `ChatFlyout.FixedSizesPartition` | public/chat_flyout.tsx:59-80 | When not resizable, both sizes are set, they are never both 100, and they add up to 0 or 100. |
| `ChatFlyout.LeftInitialSize` | public/chat_flyout.tsx:114 | The initial size is set iff resizable, and then it is 70. |
| `ChatFlyout.RightInitialSize` | public/chat_flyout.tsx:127 | The initial size is set iff resizable, and then it is 30. |
| `ChatFlyout.PanelRules` | public/chat_flyout.tsx:108-128 | Over `LeftPanelHidden` (line 110, `leftPanelSize === 0`) and `RightPanelHidden` (line 123, `leftPanelSize === 100`): the left panel (hidden iff its size is 0) is hidden iff the chat page is not shown outside a split. The right panel (hidden iff the left size is 100) is hidden iff the chat page fills the flyout, and its own size is then 0. The two are never both hidden, and a split's initial sizes add up to 100. |
| `ChatFlyout.LatchStep` | public/chat_flyout.tsx:56 | After a render the latch is set iff it was set before or that render shows the history page. |
| `ChatFlyout.LoadedAfter` | public/chat_flyout.tsx:15-56 | The latch after a sequence of renders, one `LatchStep` per render; a latch that starts set is still set after them. |
| `ChatFlyout.LoadedAfterIff` | public/chat_flyout.tsx:15-56 | After any sequence of renders the latch is set iff it started set or some render showed the history page. |
| `ChatFlyout.LatchIsMonotone` | public/chat_flyout.tsx:56 | Once set after some prefix of the renders, the latch is still set after all of them. |
| `ChatFlyout.FlyoutModule.constructor` | public/chat_flyout.tsx:15 | The latch starts unset. |
| `ChatFlyout.FlyoutModule.Render` | public/chat_flyout.tsx:28-80 | Returns the derived layout and updates the latch by `LatchStep`. It reports the history page mounted (line 130) iff the latch is set after the render. |

## Left out

- public/hooks/use_sessions.ts: React effects, HTTP calls and abort-controller cancellation over a reducer (`fetch_reducer`) that is not part of this model. They are framework and I/O plumbing.
- public/tabs/history/__tests__/chat_history_list.test.tsx: it tests a list component whose source is not part of this model. It covers DOM rendering and locale date formatting.
- server/services/chat/chat_service.ts: a TypeScript interface with no logic.
- The JSX tree of `ChatFlyout` beyond panel sizes, hidden flags, initial sizes and whether the history page is mounted. This covers the flyout class names for fullscreen and hidden, the resizer element, the trace body shown only with a trace id, and the history page's refresh and hidden props. It is presentation.
- RxJS subscriber delivery is reduced to one log, `emitted`: what a subscriber attached from construction receives. Late subscribers' replay of the current value and the completion notification are not modelled.
- The UI-settings client and the DataSourceManagement plugin are foreign libraries. The default setting's value is a parameter of `InitDefaultDataSourceIdIfNeed`, and a selection event is a call of `OnSelectionChanged`. The plugin's presence is the flag `hasDataSourceManagement`. A non-string default setting is not modelled.
- `start` only returns a setter, and `SetDataSourceId` models that setter.
- DataSources.AfterSetup: assumes that subscribing to the plugin's `getSelection$()` does not run the handler synchronously inside `setup`, so `setup` itself writes nothing. If the plugin replays its current selection on subscribe, that replay is the `SelectionChanged` event that `Run` allows straight after `SetUp`, and `setup` then also writes the selected id (null for an empty selection).
- The selection option's `id` (`DSOption.id`) is a plain string. If the plugin's option type allowed a missing `id`, `?.id ?? null` would also map a single option without an id to null; that case is not modelled.
- Which plugin object a selection handler listens to is not modelled. All live handlers run the same code, so `OnSelectionChanged` is one run of any of them.
- DataSources.DataSourceService.OnSelectionChanged: requires a live selection handler, because RxJS runs the handler only while subscribed. In the event trace, `Step` treats such an event with no live handler as a change of nothing.

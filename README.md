# BetterHomepage widget canvas, modelled in Dafny

BetterHomepage is a browser start page made of a canvas of widgets: clocks,
search boxes, weather cards and other widgets. Each widget has a position in
percent of the viewport and a size. In edit mode the user can drag and resize
widgets. The collection is persisted to `localStorage` through a debounced
save. This project models the engine behind that canvas, split into these
modules:

- `WidgetRecords` (`widget_records.dfy`): the widget record. It also holds the
  collection updaters that both store hooks pass to React's state setter:
  - `map` on an id, `filter` on an id, `find` by id;
  - the `reduce` that recovers the id counter from `widget-<n>` ids, using
    `parseInt(id.split("-")[1], 10) || 0`;
  - the load of the stored array.
- `WidgetStore` (`widget_store.dfy`): the current `use-widget` hook, as a class.
  After every state change, its two effects run: the counter is recovered from
  the new collection, and the 300 ms save is re-armed.
- `LegacyWidgetStore` (`legacy_widget_store.dfy`): the earlier `useWidget` hook.
  Here the counter is recovered once, on load, and after that it only
  increases. New records get fixed defaults, and a raw-delta drag handler moves
  them.
- `DragController` (`drag_controller.dfy`): the page's `handleDragEnd`. It
  turns percent into pixels, adds the pointer delta, turns the result back into
  percent and clamps each axis to [0, 95].
- `ResizeController` (`resize_controller.dfy`): the draggable, resizable box.
  A resize gesture captures the start pointer and size, and attaches document
  listeners. Each move recomputes the size from that capture, with a floor of
  100 by 60, and re-arms a debounced commit. When the gesture ends, the commit
  is flushed and the listeners are detached. The effect on the body style
  locks scrolling while a resize is in progress.
- `Debounce` (`debounce.dfy`): a debounced call, or a cleared-and-re-armed
  `setTimeout`, modelled as one slot holding the latest waiting argument.
- `SearchWidget` (`search_widget.dfy`): the search URL for each engine, scope
  and set of flags; the query history (most recent first, de-duplicated, cut
  to the limit); and the submit handler.
- `WidgetDrawer` (`widget_drawer.dfy`): the `adjustColor` hex helper and the
  JSON import. The import validates a pasted record, then adds a widget of its
  type to the `use-widget` store.
- `DatetimeWidget` (`datetime_widget.dfy`):
  - the `yyyy` / `MM` / `dd` custom date format;
  - the locale options the other formats choose;
  - the defaults the display fills in;
  - which parts are shown.
- `Theme` (`theme.dfy`): the `use-theme` record and the updaters its setters
  apply, including the clamps on blur and scale.
- `Text` and `Numerals` (`text.dfy`, `numerals.dfy`): the JavaScript string and
  number operations the code above relies on, written out:
  - `trim`, `indexOf`, and `replace` with a string pattern;
  - `parseInt(s, 10)`, `toString(radix)` and `padStart`.

Calls into the browser or into libraries become parameters of the model:
- `JSON.parse` becomes a `parse` function.
- `encodeURIComponent` becomes an `encode` function.
- The widget registry becomes a `registry` function.
- `Date.now()` becomes a `now` number.
- The viewport size becomes two numbers.

State that the source changes in place (React state, refs and timers) is the
fields of a class. Its methods state the whole new state. Pure helpers are
functions, and the promised properties are lemmas about them.

## Model

| member | source | states |
|---|---|---|
| WidgetRecords.LoadWidgets | src/hooks/use-widget.ts:11-22 | a missing, empty or unparsable stored value loads as the empty collection; otherwise the parsed array |
| WidgetRecords.UpToDash | src/hooks/use-widget.ts:43 | the segment after a '-' runs to the next '-' or the end, and is a prefix of the rest |
| WidgetRecords.IdNumberOfMinted | src/hooks/use-widget.ts:43-46 | the number `parseInt(id.split("-")[1], 10) \|\| 0` recovers from `widget-<n>` is n |
| WidgetRecords.MaxFromZeroBounds | src/hooks/use-widget.ts:42-45 | the `reduce` with `Math.max` from 0 bounds every element, and is 0 or one of them |
| WidgetRecords.MaxIdNumberBounds | src/hooks/use-widget.ts:41-48 | the recovered counter bounds every record's id number and, unless 0, is the number of one of them |
| WidgetRecords.MaxIdNumberEmpty | src/hooks/use-widget.ts:41-48 | an empty collection recovers 0 |
| WidgetRecords.MintedIsFresh | src/hooks/use-widget.ts:76-88 | an id minted from a number above the recovered counter belongs to no record |
| WidgetRecords.MaxIdNumberOnlyIds | src/hooks/use-widget.ts:41-48 | two collections with the same ids in the same order recover the same counter |
| WidgetRecords.MaxIdNumberAppend | src/hooks/use-widget.ts:41-48 | appending a record makes the counter the larger of the old counter and its number |
| WidgetRecords.AppendMinted | src/hooks/use-widget.ts:76-88 | appending `widget-<n>` with n above the counter adds an unused id and makes the counter exactly n |
| WidgetRecords.UpdateKeepsMax | src/hooks/useWidget.ts:57-82 | an id-preserving update leaves the recovered counter unchanged |
| WidgetRecords.MaxIdNumberRemove | src/hooks/use-widget.ts:132-137 | deleting never raises the recovered counter |
| WidgetRecords.UpdateWhere | src/hooks/use-widget.ts:123-130 | same length; each record with the id becomes `updater(record)`, the others stay |
| WidgetRecords.UpdateAbsent | src/hooks/use-widget.ts:123-130 | updating an id that no record has changes nothing |
| WidgetRecords.UpdateKeepsIds | src/hooks/use-widget.ts:123-130 | an id-preserving updater keeps every id in place |
| WidgetRecords.RemoveId | src/hooks/use-widget.ts:132-137 | the result has no record with the id and holds exactly the other records |
| WidgetRecords.RemoveIdConcat | src/hooks/use-widget.ts:132-137 | the filter works piecewise, so the surviving records keep their order |
| WidgetRecords.RemoveAbsent | src/hooks/use-widget.ts:132-137 | deleting an id that no record has changes nothing |
| WidgetRecords.RemoveIdempotent | src/hooks/use-widget.ts:132-137 | deleting twice is the same as deleting once |
| WidgetRecords.RemoveCount | src/hooks/use-widget.ts:132-137 | deleting removes exactly as many records as carry the id |
| WidgetRecords.FindById | src/hooks/use-widget.ts:139-142 | null exactly when no record has the id; otherwise the first record with it |
| WidgetStore.WidgetStore.Load | src/hooks/use-widget.ts:24-57 | the loaded collection, with the counter recovered from it and its save scheduled |
| WidgetStore.WidgetStore.Commit | src/hooks/use-widget.ts:41-57 | the new collection; the counter is recovered from it when it is non-empty, otherwise kept; a save of it is scheduled |
| WidgetStore.WidgetStore.FireSaveTimer | src/hooks/use-widget.ts:54-56 | the timer writes the scheduled collection once; the collection and the counter are kept |
| WidgetStore.WidgetStore.AddWidget | src/hooks/use-widget.ts:76-88 | the counter rises by one; a copy of the registry default under id `widget-<counter>` is appended; no earlier record has that id; a save of the new collection is pending and the last written one is kept |
| WidgetStore.WidgetStore.UpdateWidget | src/hooks/use-widget.ts:123-130 | the collection becomes the `map` with the updater; it is unchanged when no record has the id; the counter is recovered from the result when it is non-empty, otherwise kept; a save of the new collection is pending and the last written one is kept |
| WidgetStore.WidgetStore.UpdateWidgetPosition | src/hooks/use-widget.ts:90-104 | only the position of the matching records changes; the counter is recovered from the result when it is non-empty, otherwise kept; a save of the new collection is pending and the last written one is kept |
| WidgetStore.WidgetStore.UpdateWidgetSize | src/hooks/use-widget.ts:106-117 | only the size of the matching records changes; the counter is recovered from the result when it is non-empty, otherwise kept; a save of the new collection is pending and the last written one is kept |
| WidgetStore.WidgetStore.UpdateWidgetData | src/hooks/use-widget.ts:119-121 | the matching records are replaced by the new data; the counter is recovered from the result when it is non-empty, otherwise kept; a save of the new collection is pending and the last written one is kept |
| WidgetStore.WidgetStore.DeleteWidget | src/hooks/use-widget.ts:132-137 | the collection becomes the filter on the id; it is unchanged when no record has the id; the counter is recovered from the result when it is non-empty, otherwise kept; a save of the new collection is pending and the last written one is kept |
| WidgetStore.WidgetStore.GetWidgetById | src/hooks/use-widget.ts:139-142 | null exactly when no record has the id, otherwise the first record with it (`find`) |
| WidgetStore.WidgetStore.HandleResize | src/hooks/use-widget.ts:59-64 | the collection's contents and the counter are kept, and a save of it is re-scheduled; the last written collection is kept |
| WidgetStore.RemoveNewestRestoresCounter | src/hooks/use-widget.ts:41-48 | deleting the newest record (minted one above the counter of the records before it) leaves exactly those records, whose counter is again one below its number |
| WidgetStore.NewestIdReusedAfterDelete | src/hooks/use-widget.ts:41-48 | on a store with at least two records, the last minted one above the counter of the others, deleting that record and adding again mints the deleted id a second time, and the new record takes its place |
| WidgetStore.OnlyIdNotReusedAfterDelete | src/hooks/use-widget.ts:41-48 | on a store with one record, deleting it leaves the counter in place (the recovery skips an empty collection), so the next add mints a different id one above the counter |
| LegacyWidgetStore.DefaultWidget | src/hooks/useWidget.ts:47-52 | a new record sits at (50, 50), measures 150 by 150, has no configuration and carries the given id and type |
| LegacyWidgetStore.MintedIdsDiffer | src/hooks/useWidget.ts:43-45 | ids minted from different numbers differ, so a counter that only rises never mints an id twice |
| LegacyWidgetStore.LegacyWidgetStore.Load | src/hooks/useWidget.ts:16-30 | the loaded collection, with the counter set to its largest id number |
| LegacyWidgetStore.LegacyWidgetStore.SaveWidgets | src/hooks/useWidget.ts:32-37 | any waiting save is replaced by one save of the given collection |
| LegacyWidgetStore.LegacyWidgetStore.Commit | src/hooks/useWidget.ts:39-41 | the new collection, with a save of it scheduled; the counter is kept |
| LegacyWidgetStore.LegacyWidgetStore.FireSaveTimer | src/hooks/useWidget.ts:34-36 | the timer writes the scheduled collection once |
| LegacyWidgetStore.LegacyWidgetStore.AddWidget | src/hooks/useWidget.ts:43-55 | the counter rises by one; a default record with id `widget-<counter>` is appended; no earlier record has that id; a save of the new collection is pending and the last written one is kept |
| LegacyWidgetStore.LegacyWidgetStore.UpdateWhereId | src/hooks/useWidget.ts:57-82 | an id-preserving update of the matching records keeps the counter and the invariant; a save of the new collection is pending and the last written one is kept |
| LegacyWidgetStore.LegacyWidgetStore.UpdateWidgetPosition | src/hooks/useWidget.ts:57-64 | only the position of the matching records changes; the counter is kept; a save of the new collection is pending and the last written one is kept |
| LegacyWidgetStore.LegacyWidgetStore.UpdateWidgetSize | src/hooks/useWidget.ts:66-73 | only the size of the matching records changes; the counter is kept; a save of the new collection is pending and the last written one is kept |
| LegacyWidgetStore.LegacyWidgetStore.UpdateWidgetConfig | src/hooks/useWidget.ts:75-82 | only the configuration of the matching records changes; the counter is kept; a save of the new collection is pending and the last written one is kept |
| LegacyWidgetStore.LegacyWidgetStore.DeleteWidget | src/hooks/useWidget.ts:84-86 | the filter on the id, with the counter kept; a save of the new collection is pending and the last written one is kept |
| LegacyWidgetStore.LegacyWidgetStore.GetWidgetById | src/hooks/useWidget.ts:88-91 | null exactly when no record has the id, otherwise the first record with it (`find`) |
| LegacyWidgetStore.LegacyWidgetStore.HandleDragEnd | src/hooks/useWidget.ts:93-108 | the dragged records move by the raw delta with no clamping; the others are unchanged; the counter is kept; a save of the new collection is pending and the last written one is kept |
| DragController.ClampPercent | src/app/page.tsx:83-84 | the result lies in [0, 95]; a value already in range is kept; values below or above go to 0 or 95 |
| DragController.MovedPercentIsShift | src/app/page.tsx:67-80 | going through pixels and back shifts the percentage by the delta as a share of the viewport |
| DragController.DragTarget | src/app/page.tsx:67-84 | the new position lies in [0, 95] on both axes |
| DragController.DragTargetInRange | src/app/page.tsx:67-84 | a shifted coordinate inside [0, 95] is taken exactly |
| DragController.ZeroDeltaKeepsPosition | src/app/page.tsx:67-84 | a zero-delta drag keeps a position that is already in range |
| DragController.DragExample | src/app/page.tsx:67-84 | worked instance of `DragTargetInRange`: 10% of a 1000 px viewport moved 100 px right lands at 20% |
| DragController.HandleDragEnd | src/app/page.tsx:55-94 | an update is issued exactly in edit mode, with an active id that a record carries; it targets that id and a position clamped into [0, 95] from the first such record's position (`find`) |
| DragController.ApplyDrag | src/app/page.tsx:55-94 | every record of the dragged id moves to the clamped target `HandleDragEnd` computes; the other records and everything outside edit mode are unchanged |
| ResizeController.ResizedSize | src/components/draggable-resizable-box.tsx:109-128 | each axis is the start extent plus the pointer offset, floored at 100 by 60 |
| ResizeController.AxesIndependent | src/components/draggable-resizable-box.tsx:120-124 | the width ignores the vertical pointer position, and the height the horizontal one |
| ResizeController.BackToStart | src/components/draggable-resizable-box.tsx:103-124 | returning to the start pointer gives back the captured size |
| ResizeController.ShrinkToMinimum | src/components/draggable-resizable-box.tsx:29-30 | worked instance of `ResizedSize`: a 200 by 150 box dragged far up and left stops at 100 by 60 |
| ResizeController.ResizeBox.constructor | src/components/draggable-resizable-box.tsx:80-93 | not resizing, nothing attached or waiting, body styles cleared |
| ResizeController.ResizeBox.SyncBodyStyle | src/components/draggable-resizable-box.tsx:80-93 | overflow `hidden` and touch-action `none` exactly while resizing, empty otherwise |
| ResizeController.ResizeBox.ResizeStart | src/components/draggable-resizable-box.tsx:95-154 | resizing starts, and one listener set capturing the pointer and the live size is attached |
| ResizeController.ResizeBox.Move | src/components/draggable-resizable-box.tsx:109-134 | the shown size is the size from the last attached capture, and the waiting commit carries it; with no listener nothing changes |
| ResizeController.ResizeBox.Flush | src/components/draggable-resizable-box.tsx:75-77 | a waiting commit is made once, and nothing waits afterwards |
| ResizeController.ResizeBox.End | src/components/draggable-resizable-box.tsx:137-145 | resizing stops, the waiting size is committed exactly once, every listener is detached and the body styles are cleared |
| ResizeController.ResizeBox.DebounceElapse | src/components/draggable-resizable-box.tsx:75-77 | when the window elapses, the waiting size (if any) is committed once and the slot empties; gesture state, listeners, body styles and the mounted flag are unchanged |
| ResizeController.ResizeBox.Unmount | src/components/draggable-resizable-box.tsx:80-93 | the effect cleanup clears the body styles |
| ResizeController.ResizeBox.ComputedTransform | src/components/draggable-resizable-box.tsx:51-57 | a translation by the drag offset only while dragging and not resizing |
| Debounce.Schedule | src/hooks/use-widget.ts:50-57 | a new call replaces what was waiting |
| Debounce.Fire | src/hooks/use-widget.ts:50-57 | the waiting argument, if any, is delivered and the slot empties |
| Debounce.RunHoldsLatest | src/hooks/use-widget.ts:50-57 | after any run of events, the slot holds exactly the latest call not yet delivered |
| Debounce.AtMostOneWritePerWindow | src/hooks/use-widget.ts:50-57 | there are never more deliveries than elapses |
| Debounce.BurstCollapses | src/hooks/use-widget.ts:50-57 | a burst of calls followed by one elapse delivers only the last argument |
| Debounce.NoWriteWithoutElapse | src/hooks/use-widget.ts:50-57 | calls alone deliver nothing |
| Debounce.LatestDeliveredOnElapse | src/hooks/use-widget.ts:50-57 | a waiting call is never lost: the next elapse delivers it |
| SearchWidget.DefaultSearchData | src/components/widgets/search/widget-search.tsx:70-90 | google, same tab, web scope, language and region "auto", safe search on, history of 5 tracked |
| SearchWidget.Render | src/components/widgets/search/widget-search.tsx:102-159 | the printed URL starts with the address, and the parameters follow it |
| SearchWidget.QueryPrefix | src/components/widgets/search/widget-search.tsx:102-159 | every engine address starts with that engine's host |
| SearchWidget.Opt | src/components/widgets/search/widget-search.tsx:98-99 | a parameter is appended exactly when its condition holds |
| SearchWidget.BuildSearchUrl | src/components/widgets/search/widget-search.tsx:92-161 | the address is prefix, encoded query and suffix, and the parameters are the engine's; an unrecognised engine gets a plain Google web search |
| SearchWidget.ParamRules | src/components/widgets/search/widget-search.tsx:98-159 | language, region and safe search are each appended exactly for the engines that use them, when set; the values are carried; at most three parameters |
| SearchWidget.GetSearchUrl | src/components/widgets/search/widget-search.tsx:92-161 | the URL starts with the engine's host and with the scope's prefix, and the encoded query follows that prefix |
| SearchWidget.UrlPrefix | src/components/widgets/search/widget-search.tsx:158-159 | the address before the query starts with the engine's host, and is Google's for an unrecognised engine |
| SearchWidget.RenderShape | src/components/widgets/search/widget-search.tsx:92-161 | a printed URL is prefix, encoded query, suffix and parameters, in that order |
| SearchWidget.SliceTo | src/components/widgets/search/widget-search.tsx:316-319 | `slice(0, end)` is a prefix whose length follows JavaScript's rules, including a negative end |
| SearchWidget.WithoutQuery | src/components/widgets/search/widget-search.tsx:318 | the filter keeps exactly the entries with a different query |
| SearchWidget.WithoutQueryConcat | src/components/widgets/search/widget-search.tsx:318 | the filter works piecewise, so the kept entries stay in order |
| SearchWidget.UpdateHistory | src/components/widgets/search/widget-search.tsx:315-319 | the new entry comes first, followed by the older entries with a different query in their order; the length is exactly what `slice(0, max)` keeps, for a negative limit too |
| SearchWidget.ResubmitHead | src/components/widgets/search/widget-search.tsx:315-319 | resubmitting the newest query only refreshes its timestamp |
| SearchWidget.WithoutQueryAbsent | src/components/widgets/search/widget-search.tsx:318 | filtering a query that is absent changes nothing |
| SearchWidget.NavigationFor | src/components/widgets/search/widget-search.tsx:331-335 | the search URL, opened in a new tab exactly when `newTab` is set |
| SearchWidget.SearchBox.constructor | src/components/widgets/search/widget-search.tsx:283-290 | empty input, the configured scope, the stored history or none |
| SearchWidget.SearchBox.SetSearchQuery | src/components/widgets/search/widget-search.tsx:283 | only the input text changes |
| SearchWidget.SearchBox.SetScope | src/components/widgets/search/widget-search.tsx:284-286 | only the scope changes |
| SearchWidget.SearchBox.HandleSearch | src/components/widgets/search/widget-search.tsx:307-336 | a blank query does nothing; otherwise the trimmed query is navigated to, and with tracking on the updated history is kept and saved |
| SearchWidget.SearchBox.RecordQuery | src/components/widgets/search/widget-search.tsx:315-328 | the history becomes the update, and that history is saved |
| SearchWidget.SearchBox.Navigate | src/components/widgets/search/widget-search.tsx:331-335 | one navigation is performed |
| SearchWidget.SearchBox.ClearHistory | src/components/widgets/search/widget-search.tsx:348-354 | the history empties and the empty history is saved |
| WidgetDrawer.ClampByte | src/components/layout/add-widget-drawer.tsx:310-312 | a channel is clamped to [0, 255] |
| WidgetDrawer.Channels | src/components/layout/add-widget-drawer.tsx:306-308 | the three shifted-and-masked fields of a 24-bit value are bytes |
| WidgetDrawer.ChannelsPack | src/components/layout/add-widget-drawer.tsx:306-314 | packing the channels and splitting them again gives them back |
| WidgetDrawer.PackChannels | src/components/layout/add-widget-drawer.tsx:306-314 | splitting a 24-bit value and packing it again gives it back |
| WidgetDrawer.StripHash | src/components/layout/add-widget-drawer.tsx:301-303 | one leading '#' is dropped |
| WidgetDrawer.AdjustColor | src/components/layout/add-widget-drawer.tsx:299-315 | the result is '#' followed by six hex digits |
| WidgetDrawer.AdjustColorChannels | src/components/layout/add-widget-drawer.tsx:299-315 | each channel of the result is the input channel plus the amount, clamped to [0, 255] |
| WidgetDrawer.AdjustByZero | src/components/layout/add-widget-drawer.tsx:299-315 | an adjustment by 0 keeps the colour |
| WidgetDrawer.AdjustMonotone | src/components/layout/add-widget-drawer.tsx:299-315 | darkening never raises a channel, and lightening never lowers one |
| WidgetDrawer.TypeOfName | src/components/layout/add-widget-drawer.tsx:96 | a string is accepted exactly when it names a widget type, and that type is found |
| WidgetDrawer.ValidateImport | src/components/layout/add-widget-drawer.tsx:80-128 | an accepted input is not blank and parses |
| WidgetDrawer.ImportRules | src/components/layout/add-widget-drawer.tsx:80-128 | in both directions: blank is refused first, then unparsable; acceptance happens exactly for an object whose `type` names a widget type, and that type is the one added |
| WidgetDrawer.ImportForm.constructor | src/components/layout/add-widget-drawer.tsx:80-128 | empty input, no error, drawer closed |
| WidgetDrawer.ImportForm.SetJsonInput | src/components/layout/add-widget-drawer.tsx:80-128 | only the input changes |
| WidgetDrawer.ImportForm.SetJsonError | src/components/layout/add-widget-drawer.tsx:80-128 | only the error changes |
| WidgetDrawer.ImportForm.CloseForEditing | src/components/layout/add-widget-drawer.tsx:48-49 | the drawer closes and edit mode turns on |
| WidgetDrawer.ImportForm.ClearAndClose | src/components/layout/add-widget-drawer.tsx:116-119 | the form is cleared, the drawer closes and edit mode turns on |
| WidgetDrawer.ImportForm.HandleAddWidget | src/components/layout/add-widget-drawer.tsx:46-50 | one fresh-id copy of the type's default is appended to the store, and the drawer closes into edit mode; the store's save of the new collection is pending and its last written one kept |
| WidgetDrawer.ImportForm.RejectImport | src/components/layout/add-widget-drawer.tsx:82-103 | only the error is set; the store is untouched, including its pending save and last written collection |
| WidgetDrawer.ImportForm.AcceptImport | src/components/layout/add-widget-drawer.tsx:108-119 | one fresh-id copy of the type's default is appended; the form is cleared and closed into edit mode; the store's save of the new collection is pending and its last written one kept |
| WidgetDrawer.ImportForm.HandleJsonImport | src/components/layout/add-widget-drawer.tsx:80-128 | the outcome is the validation of the input; a rejection only sets the error, an acceptance adds one widget of the named type and clears the form; on acceptance the store's save of the new collection is pending, and either way its last written collection is kept |
| DatetimeWidget.Pad2 | src/components/widgets/datetime/widget-datetime.tsx:87-88 | the padded number has at least two decimal digits |
| DatetimeWidget.Pad2Exact | src/components/widgets/datetime/widget-datetime.tsx:87-88 | a month or day below 100 prints as exactly two digits that read back as the number |
| DatetimeWidget.CustomFormatWithoutTokens | src/components/widgets/datetime/widget-datetime.tsx:85-88 | a pattern without any of the tokens is returned unchanged |
| DatetimeWidget.CustomFormatIso | src/components/widgets/datetime/widget-datetime.tsx:85-88 | `yyyy-MM-dd` gives the year, the 1-based month and the day, joined by dashes |
| DatetimeWidget.FormatDate | src/components/widgets/datetime/widget-datetime.tsx:65-92 | custom text exactly for `custom` with a non-empty pattern; otherwise the locale options of the format |
| DatetimeWidget.ResolveDisplay | src/components/widgets/datetime/widget-datetime.tsx:141-161 | unset fields take 24h, medium, centred, both; the flags are on unless false; the custom font applies only when it is enabled and named |
| DatetimeWidget.Visible | src/components/widgets/datetime/widget-datetime.tsx:172-181 | time and date are each shown for their own option or both; the weekday only with the date |
| DatetimeWidget.EmptySettingsShowEverything | src/components/widgets/datetime/widget-datetime.tsx:141-181 | with no settings, everything is shown with seconds, in the medium format and the inherited font |
| Theme.DefaultTheme | src/hooks/use-theme.ts:12-17 | light mode, no image, blur 0, scale 100 |
| Theme.LoadTheme | src/hooks/use-theme.ts:23-38 | a missing, empty or unparsable stored value gives the defaults, otherwise the parsed record |
| Theme.ClampTo | src/hooks/use-theme.ts:70-83 | `Math.min(Math.max(lo, v), hi)` lies in [lo, hi] and keeps a value already in range |
| Theme.SwitchTheme | src/hooks/use-theme.ts:54-59 | the flag becomes the negation of the rendered flag, and nothing else changes |
| Theme.SwitchTwice | src/hooks/use-theme.ts:54-59 | toggling twice, with a render in between, restores the original |
| Theme.SwitchTwiceWithoutRender | src/hooks/use-theme.ts:54-59 | two toggles before a render act as one |
| Theme.SetBackgroundImage | src/hooks/use-theme.ts:62-67 | only the image changes |
| Theme.SetBackgroundBlur | src/hooks/use-theme.ts:70-75 | the blur is clamped to [0, 20] and the rest is kept |
| Theme.SetBackgroundScale | src/hooks/use-theme.ts:78-83 | the scale is clamped to [50, 150] and the rest is kept |
| Theme.SettersKeepRange | src/hooks/use-theme.ts:12-83 | the defaults lie in range, and every setter keeps a record in range |
| Theme.SettersIdempotent | src/hooks/use-theme.ts:62-83 | setting the same value twice is the same as setting it once |
| Text.Trim | src/components/widgets/search/widget-search.tsx:309 | `trim()` is empty exactly when every character is whitespace |
| Text.IndexOf | src/components/widgets/datetime/widget-datetime.tsx:85-88 | the first occurrence of the pattern, or none |
| Text.ReplaceFirst | src/components/widgets/datetime/widget-datetime.tsx:85-88 | only the first occurrence is replaced; with none, the string is unchanged |
| Text.ReplaceFirstAt | src/components/widgets/datetime/widget-datetime.tsx:85-88 | when the pattern does not start before a given place, the occurrence at that place is the one replaced |
| Numerals.ToBase | src/components/layout/add-widget-drawer.tsx:314 | `toString(16)` gives a non-empty string of digits |
| Numerals.ValueOfToBase | src/components/layout/add-widget-drawer.tsx:314 | the printed digits read back as the number |
| Numerals.PadStart | src/components/widgets/datetime/widget-datetime.tsx:87-88 | `padStart(len, c)` prepends copies of c up to the length |
| Numerals.ValueOfLeadingZeros | src/components/layout/add-widget-drawer.tsx:314 | leading zeros do not change the value |
| Numerals.ParseIntDecimalSpec | src/hooks/use-widget.ts:43 | `parseInt(s, 10)` is NaN exactly when, after leading whitespace and one sign, no decimal digit follows; otherwise it is the value of the leading digit run, negated after a `-` |
| Numerals.ParseIntDecimalReads | src/hooks/useWidget.ts:23 | whitespace, an optional sign, a digit run and any non-digit tail parse to the signed value of that run |
| Numerals.ParseIntDecimalNaN | src/hooks/useWidget.ts:23 | whitespace and a sign followed by nothing or by a character that is no digit, whitespace or sign parse to NaN |
| Numerals.DecimalDigitsParse | src/hooks/use-widget.ts:43 | a string of decimal digits parses to its value |
| Numerals.ParseNatToString | src/hooks/use-widget.ts:78 | a printed number parses back to itself |

## Left out

- Browser and library effects are not modelled: reading and writing `localStorage` (only the moment of each write is kept), `console`, toast notifications, `window.open`, and the document's `dark` class.
- Effects of the query cache are not modelled: `setQueryData` syncing the widget array into the cache, and the theme's write-back effect.
- `JSON.parse` and `JSON.stringify` are the `parse` parameter. The stored value is assumed to parse to a widget array or to fail. Another JSON value, such as an object or a number, is not modelled.
- `encodeURIComponent` is the `encode` parameter.
- `toLocaleDateString`, `toLocaleTimeString` and `formatTime` are out of scope. The model keeps only the options handed to the locale formatter.
- `Date.now()` and timers become parameters and events. The 300 ms, 100 ms and other delays are not timed.
- The pointer, the DOM and dnd-kit become numbers and listener records. The window resize listener is the `HandleResize` method.
- JavaScript numbers are modelled as unbounded reals and integers. Floating-point rounding in the drag and resize arithmetic is not captured.
- `trim`, and the leading-whitespace skip of `parseInt` (`Numerals.ParseIntDecimal`, through `Text.TrimStart`), recognise only the common whitespace characters (space, tab, line breaks, vertical tab, form feed, no-break space), not the full Unicode whitespace set.
- Error messages keep their fixed text only. The parser's message and the list of valid types that the handler appends are not modelled.
- `src/components/widgets/widget-types.ts` declares three widget types. The model has five: it adds `datetime` and `search`, the names the datetime and search widgets store.
- The JSON import passes the parsed record to `addWidget`, which takes only the type. So the imported fields are dropped, as the model shows.
- `Numerals.IntToString`, which prints a possibly negative year, has no contract of its own. The year is assumed non-negative in `DatetimeWidget.CustomFormatIso`.
- The save of the initial empty collection, scheduled before the stored value loads, is not modelled. Each store starts from the loaded collection.
- Listeners that fire after the box unmounts are not modelled: `ResizeController.ResizeBox.Unmount` does not detach them.
- WidgetStore.WidgetStore.AddWidget returns the appended record. The source's `addWidget` returns nothing; the returned value only names the record in the contract.
- WidgetDrawer.ImportForm.HandleAddWidget states the appended record as a copy of the type's default under an id no earlier record has, not as the exact `widget-<n>` id. The exact id is stated by `WidgetStore.WidgetStore.AddWidget`, which this method calls.
- WidgetDrawer.ImportForm.AcceptImport and WidgetDrawer.ImportForm.HandleJsonImport state the appended record the same way, as a fresh-id copy of the type's default.

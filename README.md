# Edge Productivity Hub — a Dafny model of the dashboard core

The Edge Productivity Hub is a browser new-tab page. A React dashboard holds a
set of widgets: a task list, a todo list, two bookmark panels, per-category
tool panels, a multi-engine search box, website analytics, a Pomodoro and
focus timer with daily goals and quotes, a weather card, a clock and a
settings panel. Three small scripts sit beside it: the history aggregator of
the extension's background page, the theme handler of the hosted page, and
the redirect page that forwards the new tab there.

The widgets share two things, and both are modelled explicitly:

- **The store.** `localStorage` is the class `Storage.Store`. It holds one
  `map<string, Value>`, where a value is a raw text or the decoded JSON the
  widgets write (a list of flat records, a list of texts, a list of flags, or a
  weather cache). Every entity has an `Encode`/`Decode` pair. A
  `DecodeEncode` lemma and a `Reload` lemma per widget prove that what a save
  effect writes is what the next mount reads.
- **The event bus.** The window's `CustomEvent`s are the datatype
  `Events.Event`, with one constructor per event name. The `Dashboard.Bus`
  class delivers an event to every subscribed listener of that name, in
  subscription order, and `Dashboard.Board` holds the mounted widgets. Follow-up effects a handler would start (a fetch, a geolocation
  request, `window.open`, a publish) are returned as values, not performed.

Each source file is one module, in the file's own form:

- A component's state is a `class` whose methods update its fields and the
  store under `modifies` clauses.
- The pure logic beside it (list edits, URL clean-up, formatting, icon choice,
  cache freshness) is functions with lemmas.
- Code that loops (the history aggregator, the bookmark-tree walk, the quote
  draw) is a method with loop invariants, proved against a specification
  function.
- Timers are explicit `Tick` methods, and `Date.now()` is a parameter.
  Randomness (the quote draws, the sample weather) is a parameter too.

Behaviours of the source that the model keeps as written:

- A new site's limit is stored in the minutes typed, while `setDailyLimit`
  stores seconds (`WebsiteAnalytics.NewLimit`, `WebsiteAnalytics.DailyLimitOf`).
- The tasks panel ignores `expandPanel` categories other than 'tasks' and
  'none', so it stays open when a tool panel opens.
- The theme handler publishes `themeChanged` without a theme name, so the
  dashboard switches to light mode for any URL theme
  (`ThemeHandler.UrlThemeMakesPageLight`).
- Nothing in these files publishes `userNameChanged`, `clockTypeChanged`,
  `clockFormatChanged`, `advancedFeaturesChanged`, `weatherLocationChanged`,
  or `expandPanel` with a tool category. The model treats these as
  environment actions, and `Dashboard.Bus.Publish` takes any event.
- The history aggregator accepts negative time gaps between visits.
- `tool-panel-expanded` is published but no file listens to it.
- `localStorage.getItem(k) || d` treats a stored empty string like an absent
  one (`Storage.TextOr`).
- JavaScript's truncating `%` is used where a negative operand can reach it
  (`Text.JsRem`).
- `hostname.replace('www.', '')` removes the first occurrence anywhere in the
  host (`Background.DomainOf`).

## Model

| member | source | states |
|---|---|---|
| WebsiteAnalytics.DecodeEncode | src/components/WebsiteAnalytics.tsx:14-20 | decoding the stored form of any site record gives that record back, the optional limit included |
| WebsiteAnalytics.Reload | src/components/WebsiteAnalytics.tsx:24-36 | a list saved under 'edge-homepage-website-data' is exactly the list the panel loads next time |
| WebsiteAnalytics.FormatTime | src/components/WebsiteAnalytics.tsx:64-73 | under 60 s: "{s}s"; under an hour: "{m}m" with m the whole minutes in s; otherwise "{h}h {m}m" with h*3600 + m*60 <= s < h*3600 + m*60 + 60 and m < 60 |
| WebsiteAnalytics.CleanUrlStrips | src/components/WebsiteAnalytics.tsx:80-83 | a url typed as an optional "http://" or "https://", an optional "www." and a host cleans to exactly the host |
| WebsiteAnalytics.NewLimit | src/components/WebsiteAnalytics.tsx:96 | a new site gets a limit iff it is distracting and a non-zero limit was typed, and that limit is kept as typed (minutes, not seconds) |
| WebsiteAnalytics.Add | src/components/WebsiteAnalytics.tsx:76-101 | an empty url is ignored (iff); an already tracked cleaned url raises the alert (iff); otherwise exactly one record with time 0 and visits 0 is appended |
| WebsiteAnalytics.AddTwiceRefused | src/components/WebsiteAnalytics.tsx:85-89 | the same form submitted again right after a successful add is refused as a duplicate |
| WebsiteAnalytics.Remove | src/components/WebsiteAnalytics.tsx:104-105 | a record survives iff its url differs from the removed one; afterwards the url is no longer tracked |
| WebsiteAnalytics.UpdateCategory | src/components/WebsiteAnalytics.tsx:110-114 | same length; exactly the records with the url get the new category, all other records and fields are unchanged |
| WebsiteAnalytics.LimitOf | src/components/WebsiteAnalytics.tsx:117-121 | empty input clears the limit; otherwise the limit is `parseInt` of the input, unconverted |
| WebsiteAnalytics.DailyLimitOf | src/components/WebsiteAnalytics.tsx:124-125 | empty input clears the limit; otherwise it is the parsed minutes times 60, always a whole number of minutes in seconds |
| WebsiteAnalytics.RemoveLimitStoresZero | src/components/WebsiteAnalytics.tsx:546 | the "Remove Limit" button stores a limit of 0 seconds, not an absent limit |
| WebsiteAnalytics.SetLimit | src/components/WebsiteAnalytics.tsx:126-128 | same length; exactly the records with the url get the new limit, everything else is unchanged |
| WebsiteAnalytics.TotalsPartition | src/components/WebsiteAnalytics.tsx:49-61 | the three category totals plus the time of sites outside the three categories is the time of all sites: each site is counted once |
| WebsiteAnalytics.NoUncounted | src/components/WebsiteAnalytics.tsx:49-59 | when every site has one of the three categories, no time falls outside the totals |
| WebsiteAnalytics.TotalTimeIsSum | src/components/WebsiteAnalytics.tsx:61 | with every site in one of the three categories, `totalTime` is the time of all sites |
| WebsiteAnalytics.Find | src/components/WebsiteAnalytics.tsx:176 | finds a record iff the url is tracked, and then it is the first record with that url |
| WebsiteAnalytics.Merge | src/components/WebsiteAnalytics.tsx:175-182 | the merge holds exactly the reported sites, in their order, with reported url, time and visits; a site not tracked before is 'neutral' without a limit |
| WebsiteAnalytics.MergeKeepsSettings | src/components/WebsiteAnalytics.tsx:176-180 | a reported site that was tracked keeps the category and limit of its tracked record |
| WebsiteAnalytics.MergeIdempotent | src/components/WebsiteAnalytics.tsx:175-184 | merging the same response a second time changes nothing |
| WebsiteAnalytics.TopSites | src/components/WebsiteAnalytics.tsx:408-410 | the first five (or fewer) entries of the time-sorted list: most time first, all taken from the list |
| WebsiteAnalytics.TopSitesHaveMostTime | src/components/WebsiteAnalytics.tsx:408-410 | every site left out of the top five has no more time than any site shown |
| WebsiteAnalytics.SortedSplit | src/components/WebsiteAnalytics.tsx:408-410 | in a time-sorted list every entry after a cut has no more time than any entry before it |
| WebsiteAnalytics.Details | src/components/WebsiteAnalytics.tsx:426-427 | a most-time-first permutation of the list that keeps the stored order among sites with equal time |
| WebsiteAnalytics.Analytics.constructor | src/components/WebsiteAnalytics.tsx:24-46 | the list is the decoded stored list, or [] when absent or unreadable, sorted most time first when the panel is visible (it starts outside edit mode), and the save effect writes it back |
| WebsiteAnalytics.Analytics.Render | src/components/WebsiteAnalytics.tsx:240-427 | a visible panel showing the tabs view reorders the state list itself into `Details` order, and the save effect writes that order; a hidden panel or the edit view leaves the order alone |
| WebsiteAnalytics.Analytics.ToggleEditMode | src/components/WebsiteAnalytics.tsx:219 | the header button switches between the tabs view and the edit view |
| WebsiteAnalytics.Analytics.AddManually | src/components/WebsiteAnalytics.tsx:233 | "Add Websites Manually" opens the edit view |
| WebsiteAnalytics.DetailsIdempotent | src/components/WebsiteAnalytics.tsx:426-427 | sorting the already sorted list again changes nothing, so later renders keep the order |
| WebsiteAnalytics.Analytics.Persist | src/components/WebsiteAnalytics.tsx:44-46 | writes the list under its key and changes no other key |
| WebsiteAnalytics.Analytics.AddWebsite | src/components/WebsiteAnalytics.tsx:76-101 | the step-by-step url cleanup gives the result of `Add`; the alert is raised iff the cleaned url is tracked; on success the form is reset; the list is persisted |
| WebsiteAnalytics.Analytics.RemoveWebsite | src/components/WebsiteAnalytics.tsx:104-107 | the list becomes `Remove` of the url; the selection is cleared only if it was that url |
| WebsiteAnalytics.Analytics.UpdateCategoryOf | src/components/WebsiteAnalytics.tsx:110-114 | the list becomes `UpdateCategory` of the url and is persisted |
| WebsiteAnalytics.Analytics.UpdateLimit | src/components/WebsiteAnalytics.tsx:117-121 | the matching records take the typed limit unconverted; the list is persisted |
| WebsiteAnalytics.Analytics.SetDailyLimit | src/components/WebsiteAnalytics.tsx:124-129 | the matching records take the typed minutes in seconds; the list is persisted |
| WebsiteAnalytics.Analytics.RequestBrowserData | src/components/WebsiteAnalytics.tsx:152-162 | the history request is sent, and loading starts, iff the extension messaging API exists; the callback keeps the list as it was when the request went out |
| WebsiteAnalytics.Analytics.ReceiveHistory | src/components/WebsiteAnalytics.tsx:162-187 | an error stops loading and keeps the list; a response with data replaces the list by the merge of the response into the list the callback captured; a response without data changes nothing |
| WebsiteAnalytics.Analytics.ResetAllData | src/components/WebsiteAnalytics.tsx:200-204 | the list is emptied only when the user confirms |
| WebsiteAnalytics.MergeSiteAgain | src/components/WebsiteAnalytics.tsx:175-184 | a reported site merged against the already merged list gets the same category and limit as in the first merge |
| TodoWidget.DecodeEncode | src/components/TodoWidget.tsx:7-11 | decoding the stored form of any todo gives that todo back |
| TodoWidget.Add | src/components/TodoWidget.tsx:32-41 | whitespace-only input leaves the list as it is; otherwise the old list is kept as a prefix and exactly one open todo with the trimmed text follows |
| TodoWidget.Toggle | src/components/TodoWidget.tsx:43-47 | same length and order; only todos with the id change, and only in `completed` |
| TodoWidget.ToggleTwice | src/components/TodoWidget.tsx:43-47 | toggling the same id twice restores the original list |
| TodoWidget.Delete | src/components/TodoWidget.tsx:49-51 | a todo survives iff its id differs from the deleted one |
| TodoWidget.DeleteUndoesAdd | src/components/TodoWidget.tsx:32-51 | deleting the todo just added (with a fresh id) gives back the list from before the add |
| TodoWidget.Reload | src/components/TodoWidget.tsx:21-30 | the list written under 'edge-homepage-todos' is the list the next mount loads |
| TodoWidget.Widget.constructor | src/components/TodoWidget.tsx:18-30 | the list is the stored list, or [] when nothing is stored, and the save effect writes it back |
| TodoWidget.Widget.Persist | src/components/TodoWidget.tsx:28-30 | writes the list under its key and changes no other key |
| TodoWidget.Widget.AddTodo | src/components/TodoWidget.tsx:32-41 | the list becomes `Add` of the input; the input is cleared only when a todo was added; the list is persisted |
| TodoWidget.Widget.ToggleTodo | src/components/TodoWidget.tsx:43-47 | the list becomes `Toggle` of the id and is persisted |
| TodoWidget.Widget.DeleteTodo | src/components/TodoWidget.tsx:49-51 | the list becomes `Delete` of the id and is persisted |
| Lists.Without | src/components/TodoWidget.tsx:50 | the filter-by-id every list widget uses: an element survives iff its id differs from the target |
| Lists.WithoutAppend | src/components/BookmarksWidget.tsx:51 | filtering a concatenation filters each part: survivors keep their relative order |
| Lists.WithoutAbsent | src/components/ModernTasks.tsx:99 | filtering an id no element has leaves the list exactly as it was |
| Lists.WithoutAppendedLast | src/components/TodoWidget.tsx:34-51 | removing the id of the element appended last removes that element and nothing of the earlier list that the id does not name |
| Lists.UpdateWhere | src/components/TodoWidget.tsx:44-46 | the map-by-id every list widget uses: same length, exactly the elements with the id are transformed, the others are unchanged |
| Lists.UpdateTwice | src/components/TodoWidget.tsx:43-47 | applying an id-preserving involution twice to the same id restores the list |
| BookmarksWidget.DecodeEncode | src/components/BookmarksWidget.tsx:7-11 | decoding the stored form of any bookmark gives that bookmark back |
| BookmarksWidget.Reload | src/components/BookmarksWidget.tsx:19-35 | a saved list is what the next mount loads, and with nothing stored the mount shows the three defaults |
| BookmarksWidget.NormalizeUrl | src/components/BookmarksWidget.tsx:42 | the stored url always starts with "http": it is the trimmed url when that starts with "http", otherwise "https://" in front of it |
| BookmarksWidget.TrimmedFixed | src/components/BookmarksWidget.tsx:42 | a text with no whitespace at either end is its own trim |
| BookmarksWidget.NormalizeIdempotent | src/components/BookmarksWidget.tsx:42 | normalising a normalised url changes nothing |
| BookmarksWidget.Add | src/components/BookmarksWidget.tsx:37-48 | acts iff the trimmed name and the trimmed url are both non-empty, and then appends exactly one bookmark with the trimmed name and the normalised url |
| BookmarksWidget.Delete | src/components/BookmarksWidget.tsx:50-52 | a bookmark survives iff its id differs from the deleted one |
| BookmarksWidget.DeleteKeepsOrder | src/components/BookmarksWidget.tsx:50-52 | deletion works piece by piece, so the survivors keep their order |
| BookmarksWidget.Widget.constructor | src/components/BookmarksWidget.tsx:14-35 | the list is the stored list, or the three defaults when nothing is stored, and is written back |
| BookmarksWidget.Widget.AddBookmark | src/components/BookmarksWidget.tsx:37-48 | when `Add` refuses, nothing changes; otherwise the list becomes its result, both inputs are cleared and the form is closed; the list is persisted |
| BookmarksWidget.Widget.DeleteBookmark | src/components/BookmarksWidget.tsx:50-52 | the list becomes `Delete` of the id and is persisted |
| ModernTasks.DecodeEncode | src/components/ModernTasks.tsx:9-14 | decoding the stored form of any task gives that task back |
| ModernTasks.Reload | src/components/ModernTasks.tsx:53-63 | the list written under 'edge-homepage-tasks' is the list the next mount loads |
| ModernTasks.Add | src/components/ModernTasks.tsx:65-76 | whitespace-only text leaves the list as it is; otherwise the old list is kept as a prefix and exactly one open task with the trimmed text follows |
| ModernTasks.Toggle | src/components/ModernTasks.tsx:78-82 | same length and order; only tasks with the id change, and only in `completed` |
| ModernTasks.ToggleTwice | src/components/ModernTasks.tsx:78-82 | toggling the same id twice restores the list |
| ModernTasks.SaveEdit | src/components/ModernTasks.tsx:89-96 | acts iff an id is being edited and the edit text is not blank; then exactly the tasks with that id take the trimmed text, everything else is unchanged |
| ModernTasks.Delete | src/components/ModernTasks.tsx:98-100 | a task survives iff its id differs from the deleted one |
| ModernTasks.DeleteKeepsOrder | src/components/ModernTasks.tsx:98-100 | deletion works piece by piece, so the survivors keep their order |
| ModernTasks.ExpandedAfter | src/components/ModernTasks.tsx:26-34 | 'tasks' flips the panel, 'none' closes it, any other category leaves it as it was |
| ModernTasks.NotExclusive | src/components/ModernTasks.tsx:26-34 | an open tasks panel stays open when any other panel is expanded |
| ModernTasks.Panel.constructor | src/components/ModernTasks.tsx:53-63 | closed, no edit in progress, the stored list or [] when nothing is stored, and the list is written back |
| ModernTasks.Panel.Persist | src/components/ModernTasks.tsx:61-63 | writes the list under its key and changes no other key |
| ModernTasks.Panel.HandlePanelExpand | src/components/ModernTasks.tsx:26-34 | the expand flag becomes `ExpandedAfter` of the category |
| ModernTasks.Panel.AddTask | src/components/ModernTasks.tsx:65-76 | the list becomes `Add` of the input; the input is cleared only when a task was added; the list is persisted |
| ModernTasks.Panel.ToggleTaskCompletion | src/components/ModernTasks.tsx:78-82 | the list becomes `Toggle` of the id and is persisted |
| ModernTasks.Panel.StartEditing | src/components/ModernTasks.tsx:84-87 | editing starts on the task's id with its text |
| ModernTasks.Panel.SaveEditing | src/components/ModernTasks.tsx:89-96 | when `SaveEdit` refuses, nothing changes (the store included); otherwise the list becomes its result and editing ends |
| ModernTasks.Panel.CancelEditing | src/components/ModernTasks.tsx:111-113 | Escape ends editing and touches nothing else, the list included |
| ModernTasks.Panel.DeleteTask | src/components/ModernTasks.tsx:98-100 | the list becomes `Delete` of the id and is persisted |
| ModernTasks.Panel.ToggleButton | src/components/ModernTasks.tsx:120 | the round button flips the panel |
| ModernTasks.Panel.SyncOpen | src/components/ModernTasks.tsx:40-45 | a given `isOpen` prop overrides the panel's flag |
| ModernTasks.Panel.Close | src/components/ModernTasks.tsx:47-52 | the panel closes; `onClose` is called iff it is given and the prop holds the panel open |
| ToolPanel.KeyInjective | src/components/CustomizableToolPanel.tsx:108-110 | different categories use different keys, so one panel's save never overwrites another's list |
| ToolPanel.ToolsOfCategory | src/components/CustomizableToolPanel.tsx:19-51 | every default tool carries the category of the panel it is listed under |
| ToolPanel.DecodeEncode | src/components/CustomizableToolPanel.tsx:11-17 | decoding the stored form of any tool gives that tool back |
| ToolPanel.Reload | src/components/CustomizableToolPanel.tsx:66-111 | a saved list is the list the next mount shows; with nothing saved the panel shows its category's defaults |
| ToolPanel.Add | src/components/CustomizableToolPanel.tsx:113-125 | acts iff name and url are both non-empty; then the old list is a prefix and one tool follows, with the name's slug as id and the panel's category |
| ToolPanel.Remove | src/components/CustomizableToolPanel.tsx:127-130 | a tool remains iff it was there and its id differs from the removed one |
| ToolPanel.AddKeepsCategory | src/components/CustomizableToolPanel.tsx:113-125 | a list whose tools all belong to the panel's category still does after an add |
| ToolPanel.ExpandedAfter | src/components/CustomizableToolPanel.tsx:91-102 | the panel is open afterwards only when its own category was named, and its own category always flips the flag |
| ToolPanel.Panel.constructor | src/components/CustomizableToolPanel.tsx:66-78 | closed, empty form, the stored list or the category's defaults |
| ToolPanel.Panel.HandlePanelExpand | src/components/CustomizableToolPanel.tsx:81-102 | the flag becomes `ExpandedAfter`; `tool-panel-expanded` with category and position is published exactly when the panel has just opened |
| ToolPanel.Panel.ToggleButton | src/components/CustomizableToolPanel.tsx:81-87 | the button flips the flag and publishes `tool-panel-expanded` exactly when the panel opens |
| ToolPanel.Panel.SaveTools | src/components/CustomizableToolPanel.tsx:108-111 | state and the category's key take the new list; no other key changes |
| ToolPanel.Panel.AddTool | src/components/CustomizableToolPanel.tsx:113-125 | when `Add` refuses nothing changes; otherwise the list becomes its result, is saved, and the form is cleared |
| ToolPanel.Panel.RemoveTool | src/components/CustomizableToolPanel.tsx:127-130 | the list becomes `Remove` of the id and is saved |
| ModernSearch.DecodeEncode | src/components/ModernSearch.tsx:8-15 | decoding the stored form of any engine gives that engine back |
| ModernSearch.Reload | src/components/ModernSearch.tsx:46-49 | a saved list is the list the next mount shows; with nothing saved the three default engines are shown |
| ModernSearch.SearchUrl | src/components/ModernSearch.tsx:71-76 | nothing is opened iff the query is blank; otherwise the url starts with the engine's url, and the rest decodes back to the trimmed query and contains no '&' or '#' |
| ModernSearch.ShortcutInput | src/components/ModernSearch.tsx:188 | the shortcut field holds at most one character, the first one typed, upper-cased |
| ModernSearch.ShortcutStable | src/components/ModernSearch.tsx:188 | passing a shortcut through the field a second time leaves it unchanged |
| ModernSearch.Add | src/components/ModernSearch.tsx:121-138 | acts iff name, url and shortcut are all non-empty; then the old list is a prefix and one engine follows, with the form's fields and the name's slug as id |
| ModernSearch.Remove | src/components/ModernSearch.tsx:140-144 | an engine remains iff it was there and its id differs from the removed one |
| ModernSearch.RemoveUndoesAdd | src/components/ModernSearch.tsx:121-144 | removing a just-added engine by its new id restores the list, when no other engine had that id |
| ModernSearch.Search.constructor | src/components/ModernSearch.tsx:45-56 | empty query, blank form, the stored engines or the defaults |
| ModernSearch.Search.HandleSearch | src/components/ModernSearch.tsx:71-76 | the url opened is `SearchUrl` of the query; the query is cleared exactly when a url is opened |
| ModernSearch.Search.PressEnter | src/components/ModernSearch.tsx:229-233 | Enter searches with the first engine; with an empty engine list the handler throws a TypeError and nothing changes |
| ModernSearch.Search.TypeShortcut | src/components/ModernSearch.tsx:188 | only the form's shortcut changes, to `ShortcutInput` of what was typed |
| ModernSearch.Search.AddSearchEngine | src/components/ModernSearch.tsx:121-138 | when `Add` refuses nothing changes; otherwise the list becomes its result, is saved, and the form is reset |
| ModernSearch.Search.RemoveSearchEngine | src/components/ModernSearch.tsx:140-144 | the list becomes `Remove` of the id and is saved |
| ModernBookmarks.DecodeEncode | src/components/ModernBookmarks.tsx:9-15 | decoding the stored form of any bookmark, with or without category and date, gives it back |
| ModernBookmarks.Reload | src/components/ModernBookmarks.tsx:53-72 | a saved list is the list the next mount shows; with nothing saved the three defaults are shown |
| ModernBookmarks.FolderCategory | src/components/ModernBookmarks.tsx:92 | a folder's category is its own non-empty title, else the inherited one |
| ModernBookmarks.LinkCategory | src/components/ModernBookmarks.tsx:108-111 | a link under a root container is filed as "General", otherwise under its parent's category (possibly none); never under a root container |
| ModernBookmarks.FlattenIsPreOrder | src/components/ModernBookmarks.tsx:88-115 | the ids of the bookmarks the walk yields are exactly the ids of the nodes with a url and no children, in depth-first pre-order; other nodes yield none |
| ModernBookmarks.FlattenAllIsPreOrder | src/components/ModernBookmarks.tsx:100-118 | the same for a list of siblings walked in order |
| ModernBookmarks.CategoriesNotRoot | src/components/ModernBookmarks.tsx:92-97 | no category added by the walk is empty or a root container |
| ModernBookmarks.CategoriesAllNotRoot | src/components/ModernBookmarks.tsx:94-100 | the same for a list of siblings |
| ModernBookmarks.ItemsNotUnderRoot | src/components/ModernBookmarks.tsx:103-113 | no extracted bookmark is filed under a root container |
| ModernBookmarks.ItemsAllNotUnderRoot | src/components/ModernBookmarks.tsx:100-113 | the same for a list of siblings |
| ModernBookmarks.SetAddAllSpec | src/components/ModernBookmarks.tsx:85-96 | adding to the insertion-ordered set keeps what was there, adds what is new, and never holds a name twice |
| ModernBookmarks.SetAddAllAppend | src/components/ModernBookmarks.tsx:96-100 | adding two runs of names one after the other is adding their concatenation |
| ModernBookmarks.ExtractedCategories | src/components/ModernBookmarks.tsx:85-129 | the categories shown after a fetch are distinct, exactly the folder categories met, and none is empty or a root container |
| ModernBookmarks.SortNewestFirst | src/components/ModernBookmarks.tsx:121-126 | the sorted list is a permutation of the extracted one, ordered by date, newest first |
| ModernBookmarks.NewestFirst | src/components/ModernBookmarks.tsx:121-126 | when every bookmark has a date, each comes before every older one |
| ModernBookmarks.InGroup | src/components/ModernBookmarks.tsx:198-205 | a group holds exactly the bookmarks whose category (or 'General') is its name |
| ModernBookmarks.InGroupEmpty | src/components/ModernBookmarks.tsx:198-205 | a group nobody belongs to is empty |
| ModernBookmarks.GroupBookmarks | src/components/ModernBookmarks.tsx:198-205 | throws iff some bookmark's group is an inherited `Object.prototype` name; otherwise a group exists iff some bookmark belongs to it and each group is its bookmarks in list order; the key list names each group once |
| ModernBookmarks.File | src/components/ModernBookmarks.tsx:199-203 | one reduce step: afterwards the groups are exactly those of the first `i + 1` bookmarks, each holding its bookmarks among them in order, and the key list still names each group once |
| ModernBookmarks.Add | src/components/ModernBookmarks.tsx:178-190 | acts iff name and url are non-empty; then one bookmark follows the old list, with the name's slug as id and an empty category stored as absent |
| ModernBookmarks.Remove | src/components/ModernBookmarks.tsx:192-195 | a bookmark remains iff it was there and its id differs from the removed one |
| ModernBookmarks.RemoveKeepsOrder | src/components/ModernBookmarks.tsx:192-195 | removal works piece by piece, so the survivors keep their order |
| ModernBookmarks.Extraction.ProcessNode | src/components/ModernBookmarks.tsx:88-115 | the walk of one node appends `Flatten` of it to the outer array and adds its `Categories` to the set |
| ModernBookmarks.Extraction.ProcessChildren | src/components/ModernBookmarks.tsx:100-118 | walking the children in order appends `FlattenAll` of them and adds `CategoriesAll` |
| ModernBookmarks.Panel.constructor | src/components/ModernBookmarks.tsx:38-67 | closed, no error, empty form, the stored list or the defaults |
| ModernBookmarks.Panel.SyncOpen | src/components/ModernBookmarks.tsx:40-45 | a given `isOpen` prop overrides the panel's flag |
| ModernBookmarks.Panel.Close | src/components/ModernBookmarks.tsx:47-52 | the panel closes; `onClose` is called iff it is given and the prop holds the panel open |
| ModernBookmarks.Panel.ShouldUseBrowserBookmarks | src/components/ModernBookmarks.tsx:148-153 | the mount fetches from the browser iff the stored flag is exactly 'true' |
| ModernBookmarks.Panel.SaveBookmarks | src/components/ModernBookmarks.tsx:69-72 | state and the bookmark key take the new list; no other key changes |
| ModernBookmarks.Panel.FetchBrowserBookmarks | src/components/ModernBookmarks.tsx:75-145 | without the bookmarks API: the list stays, the error message is set and the flag stored as 'false'; with a tree: the list is its walk sorted newest first, the categories its extracted set, and the flag stored as 'true' (the list itself is not stored) |
| ModernBookmarks.Panel.AddBookmark | src/components/ModernBookmarks.tsx:178-190 | when `Add` refuses nothing changes; otherwise the list becomes its result, is saved, and the form is cleared |
| ModernBookmarks.Panel.RemoveBookmark | src/components/ModernBookmarks.tsx:192-195 | the list becomes `Remove` of the id and is saved |
| ModernBookmarks.PrefixStep | src/components/ModernBookmarks.tsx:100-118 | walking one more sibling appends that sibling's bookmarks and categories to those of the siblings before it |
| ModernBookmarks.InGroupStep | src/components/ModernBookmarks.tsx:198-205 | one more bookmark joins the end of its own group and changes no other group |
| AdvancedFeatures.Toggle | src/components/AdvancedFeatures.tsx:127-134 | the timer's running flag flips; starting a finished timer loads a full work phase, otherwise time and phase stay |
| AdvancedFeatures.TicksAdd | src/components/AdvancedFeatures.tsx:72-97 | m firings followed by n firings are m + n firings |
| AdvancedFeatures.RunDown | src/components/AdvancedFeatures.tsx:75-78 | a running phase with k seconds left reaches zero after exactly k firings, still in the same phase |
| AdvancedFeatures.Cycle | src/components/AdvancedFeatures.tsx:72-97 | a started work phase, its switch, a full break and its switch bring the timer back to a fresh work phase |
| AdvancedFeatures.Frozen | src/components/AdvancedFeatures.tsx:75-92 | a paused timer, or a running one with negative time, never moves |
| AdvancedFeatures.ToggleTwice | src/components/AdvancedFeatures.tsx:127-134 | pausing and resuming keeps the countdown, except that a running timer at zero restarts a full work phase |
| AdvancedFeatures.StartAfterReset | src/components/AdvancedFeatures.tsx:127-141 | after a reset, starting runs a full work phase |
| AdvancedFeatures.FocusRunsOut | src/components/AdvancedFeatures.tsx:100-117 | active focus with k seconds left ends after k + 1 firings |
| AdvancedFeatures.FocusSession | src/components/AdvancedFeatures.tsx:100-117 | focus started for d minutes ends after d × 60 + 1 firings, at zero |
| AdvancedFeatures.FocusEnded | src/components/AdvancedFeatures.tsx:103-112 | once ended, focus mode stays ended |
| AdvancedFeatures.FormatTimeReadsBack | src/components/AdvancedFeatures.tsx:120-124 | for a non-negative count the text is digits, ':', two digits below 60, and minutes × 60 + seconds is the count; below 6000 it is exactly five characters |
| AdvancedFeatures.ToggleAt | src/components/AdvancedFeatures.tsx:151-155 | only the given flag flips; a flag past the end reads as unset, so the array grows with unset flags and a set one |
| AdvancedFeatures.ToggleAtTwice | src/components/AdvancedFeatures.tsx:151-155 | flipping the same present flag twice restores the flags |
| AdvancedFeatures.UpdateAt | src/components/AdvancedFeatures.tsx:158-162 | only the given goal changes, to the new text |
| AdvancedFeatures.LoadGoals | src/components/AdvancedFeatures.tsx:28-35 | the stored goals, or three blanks when nothing usable is stored |
| AdvancedFeatures.LoadProgress | src/components/AdvancedFeatures.tsx:36-43 | the stored flags, or three unset flags when nothing usable is stored |
| AdvancedFeatures.MinutesInput | src/components/AdvancedFeatures.tsx:261 | the typed number when it parses to a non-zero integer, else the field's default |
| AdvancedFeatures.InitialQuote | src/components/AdvancedFeatures.tsx:47-57 | the stored quote when non-empty, else one of the first five quotes picked by the random draw |
| AdvancedFeatures.Reload | src/components/AdvancedFeatures.tsx:28-69 | goals and flags written by the save effects are what the next mount loads |
| AdvancedFeatures.Features.constructor | src/components/AdvancedFeatures.tsx:22-69 | timer stopped at a full 25-minute work phase, break 5, focus 30 and inactive, goals and flags loaded and written back, quote as `InitialQuote` |
| AdvancedFeatures.Features.PomodoroTick | src/components/AdvancedFeatures.tsx:72-97 | one firing of the Pomodoro effect: minus one second while running and positive, the phase switch at zero, nothing when paused |
| AdvancedFeatures.Features.FocusTickNow | src/components/AdvancedFeatures.tsx:100-117 | one firing of the focus effect: minus one second while active and positive, focus ends at zero |
| AdvancedFeatures.Features.ToggleTimer | src/components/AdvancedFeatures.tsx:127-134 | the timer becomes `Toggle` of itself |
| AdvancedFeatures.Features.ResetTimer | src/components/AdvancedFeatures.tsx:137-141 | stopped, work phase, full work length |
| AdvancedFeatures.Features.UpdatePomodoroSettings | src/components/AdvancedFeatures.tsx:144-148 | the same state as a reset |
| AdvancedFeatures.Features.SetPomodoroMinutes | src/components/AdvancedFeatures.tsx:261 | only the work length changes, to `MinutesInput` with default 25 |
| AdvancedFeatures.Features.SetBreakMinutes | src/components/AdvancedFeatures.tsx:274 | only the break length changes, to `MinutesInput` with default 5 |
| AdvancedFeatures.Features.SetFocusDuration | src/components/AdvancedFeatures.tsx:336 | only the focus length changes, to `MinutesInput` with default 30 |
| AdvancedFeatures.Features.StartFocusMode | src/components/AdvancedFeatures.tsx:165-167 | focus active with the chosen minutes in seconds |
| AdvancedFeatures.Features.EndFocusMode | src/components/AdvancedFeatures.tsx:184-186 | focus inactive; the remaining time is kept |
| AdvancedFeatures.Features.ToggleGoalCompletion | src/components/AdvancedFeatures.tsx:151-155 | flags become `ToggleAt` of the index and are stored; goals and store stay in step |
| AdvancedFeatures.Features.UpdateGoal | src/components/AdvancedFeatures.tsx:158-162 | goals become `UpdateAt` of the index and are stored; goals and store stay in step |
| AdvancedFeatures.Features.GenerateNewQuote | src/components/AdvancedFeatures.tsx:189-210 | the loop stops at the first draw naming a quote other than the shown one; that quote is shown and stored, and every earlier draw named the shown quote |
| AdvancedFeatures.FirstDifferent | src/components/AdvancedFeatures.tsx:203-206 | the `while` loop stops at the first draw naming a quote other than the current one, and every earlier draw named the current quote |
| WeatherWidget.GetWeatherIcon | src/components/WeatherWidget.tsx:35-44 | Sun iff the lower-cased condition mentions sun or clear; CloudRain iff it does not but mentions rain; CloudSun iff none of the earlier keywords (snow, fog, mist, thunder, lightning included) occur and it mentions cloud; Cloud otherwise |
| WeatherWidget.IconIgnoresCase | src/components/WeatherWidget.tsx:36 | the icon does not depend on the condition's capitalisation |
| WeatherWidget.DecodeEncodeReading | src/components/WeatherWidget.tsx:162-188 | the cached form of a reading decodes back to that reading |
| WeatherWidget.FreshCache | src/components/WeatherWidget.tsx:185-200 | a cached reading is used only when present and strictly under three hours old; an older one never is |
| WeatherWidget.ShouldUpdate | src/components/WeatherWidget.tsx:220-227 | with no (or an empty) stored time, refresh; otherwise refresh iff the time parses and more than an hour has passed, strictly |
| WeatherWidget.UpdateDueAfterFetch | src/components/WeatherWidget.tsx:220-227 | after a successful fetch at t, the next refresh is due exactly when now − t exceeds an hour |
| WeatherWidget.MountRequest | src/components/WeatherWidget.tsx:266-301 | with an API key: by city iff custom location is on and a city is saved, by position iff not and the position is available; nothing without a key |
| WeatherWidget.SampleLocation | src/components/WeatherWidget.tsx:294 | without an API key the shown location is the saved city when custom location is on, else New York; never empty |
| WeatherWidget.ChangeRequest | src/components/WeatherWidget.tsx:48-74 | a location change fetches by city iff custom location is on and the city is non-empty, otherwise by position when available |
| WeatherWidget.CacheFallback | src/components/WeatherWidget.tsx:185-200 | a reading stored at t is what an error at `now` falls back to, exactly while now − t is under three hours |
| WeatherWidget.Widget.constructor | src/components/WeatherWidget.tsx:17-32 | placeholder reading, loading, no error; the custom flag from the store; the key, flag and saved city the mount effect reads are kept |
| WeatherWidget.Widget.HasApiKey | src/components/WeatherWidget.tsx:90-94 | a request is sent iff a non-empty API key is stored |
| WeatherWidget.Widget.HandleWeatherError | src/components/WeatherWidget.tsx:179-201 | loading ends; a fresh cached reading is shown with no error, otherwise the error message is shown over the old reading |
| WeatherWidget.Widget.ProcessWeatherData | src/components/WeatherWidget.tsx:147-176 | the reading is shown with its icon, cached with its time, and the update time is stored; no other key changes |
| WeatherWidget.Widget.StartFetch | src/components/WeatherWidget.tsx:84-95 | loading with no error; without an API key straight to the error handler |
| WeatherWidget.Widget.Receive | src/components/WeatherWidget.tsx:97-112 | a reading is processed and stored; a failure leaves the store alone and goes to the error handler |
| WeatherWidget.Widget.PositionFailed | src/components/WeatherWidget.tsx:204-217 | the position error message and the fixed sample are shown |
| WeatherWidget.Widget.FetchWeather | src/components/WeatherWidget.tsx:266-301 | the chosen request is `MountRequest` of the values read at mount, sent only while an API key is stored; without a key the generated sample is shown for `SampleLocation` with the API-key hint; a failed position shows the sample |
| WeatherWidget.Widget.Refresh | src/components/WeatherWidget.tsx:307-311 | fetches again iff `ShouldUpdate`, with the source chosen from the values read at mount, and ends in exactly the state `FetchWeather` promises for that source; otherwise nothing changes |
| WeatherWidget.Widget.HandleLocationChange | src/components/WeatherWidget.tsx:47-81 | adopts the event's city and flag; the request sent is `ChangeRequest` when it is a request and an API key is stored, loading with the error cleared and the display kept; without a key, shows a fresh cached reading or reports the fetch error; shows the sample on a failed position |
| NewIndex.Greeting | src/pages/NewIndex.tsx:62-66 | "Good Morning" iff the hour is before 12, "Good Afternoon" iff from 12 to before 18, "Good Evening" iff 18 or later |
| NewIndex.InitialAdvanced | src/pages/NewIndex.tsx:24-26 | advanced features start enabled iff the stored flag is exactly 'true' |
| NewIndex.ToggledTheme | src/pages/NewIndex.tsx:105-108 | the new mode is 'light' iff the old one is 'dark', and is always 'dark' or 'light' |
| NewIndex.ToggleThemeTwice | src/pages/NewIndex.tsx:105-108 | two toggles restore 'dark' or 'light'; any other stored mode ends at 'light' |
| NewIndex.ThemeModeFor | src/pages/NewIndex.tsx:79-81 | `themeChanged` selects 'dark' iff the theme is named exactly 'Dark', otherwise 'light' |
| NewIndex.UnnamedThemeIsLight | src/pages/NewIndex.tsx:79-81 | a theme without a name always selects 'light' |
| NewIndex.ClockStyleFor | src/pages/NewIndex.tsx:74-76 | `clockTypeChanged` selects 'digital' iff `isDigital`, else 'analog' |
| NewIndex.ToggledClockStyle | src/pages/NewIndex.tsx:101-103 | the new style is 'analog' iff the old one is 'digital' |
| NewIndex.ToggleClockStyleTwice | src/pages/NewIndex.tsx:101-103 | two toggles restore the style |
| NewIndex.Page.constructor | src/pages/NewIndex.tsx:15-26 | digital clock, overlays closed, the stored name or 'User', the stored mode or 'dark', the stored advanced flag, the greeting for the hour |
| NewIndex.Page.HandleUserNameChange | src/pages/NewIndex.tsx:69-71 | the shown name becomes the event's name |
| NewIndex.Page.HandleClockTypeChange | src/pages/NewIndex.tsx:74-76 | the style becomes `ClockStyleFor` of the event |
| NewIndex.Page.HandleThemeChange | src/pages/NewIndex.tsx:79-81 | the mode becomes `ThemeModeFor` of the event's theme |
| NewIndex.Page.HandleAdvancedFeaturesChange | src/pages/NewIndex.tsx:84-86 | the switch takes the event's value |
| NewIndex.Page.ToggleClockStyle | src/pages/NewIndex.tsx:101-103 | the style becomes `ToggledClockStyle` of the old one |
| NewIndex.Page.ToggleTheme | src/pages/NewIndex.tsx:105-111 | the mode becomes `ToggledTheme` of the old one and is stored, so a reload shows it again |
| NewIndex.Page.ToggleBookmarks | src/pages/NewIndex.tsx:233 | the bookmarks overlay flips |
| NewIndex.Page.SetSettingsOpen | src/pages/NewIndex.tsx:239-255 | the settings overlay opens or closes as asked |
| NewIndex.Page.MouseDown | src/pages/NewIndex.tsx:29-55 | outside every panel: `expandPanel` for 'none' is published and the bookmarks overlay closes; inside one nothing happens |
| ClockWidget.Greeting | src/components/ClockWidget.tsx:36-41 | "Good morning" iff the hour is before 12, "Good afternoon" iff from 12 to before 17, "Good evening" iff 17 or later |
| ClockWidget.InitialDigital | src/components/ClockWidget.tsx:6-8 | the face is analog iff the stored flag is exactly 'false' |
| ClockWidget.HandsInRange | src/components/ClockWidget.tsx:66-70 | each hand's angle stays within one turn from −90°; the hour hand reads the same twelve hours apart and moves 30° per hour |
| ClockWidget.HourHandFollowsMinutes | src/components/ClockWidget.tsx:69-70 | the hour hand is past its hour mark by the minute hand's share of a full turn, divided by twelve |
| ClockWidget.Clock.constructor | src/components/ClockWidget.tsx:5-11 | the current time, `InitialDigital` of the store, the stored name or 'User' |
| ClockWidget.Clock.Tick | src/components/ClockWidget.tsx:14-16 | the one-second timer takes the new time |
| ClockWidget.Clock.HandleClockTypeChange | src/components/ClockWidget.tsx:18-20 | the face takes the event's `isDigital` |
| ClockWidget.Clock.HandleUserNameChange | src/components/ClockWidget.tsx:22-24 | the name takes the event's name as it is, even when empty |
| SettingsPanel.InitialCompact | src/components/SettingsPanel.tsx:17-19 | compact layout starts on iff the stored flag is exactly 'true' |
| SettingsPanel.Render | src/components/SettingsPanel.tsx:30 | a closed dialog renders nothing; an open one shows the current name and switch |
| SettingsPanel.CompactReadsBack | src/components/SettingsPanel.tsx:17-28 | the text the switch stores reads back as the flag that was set |
| SettingsPanel.Panel.constructor | src/components/SettingsPanel.tsx:13-19 | the stored name or 'User', and `InitialCompact` of the store |
| SettingsPanel.Panel.EditUserName | src/components/SettingsPanel.tsx:55 | the field takes the typed text |
| SettingsPanel.Panel.SaveUserName | src/components/SettingsPanel.tsx:21-23 | the name is written under its key and nothing else changes; no `userNameChanged` event is published |
| SettingsPanel.Panel.ToggleCompactMode | src/components/SettingsPanel.tsx:25-28 | the switch takes the value and stores it as 'true' or 'false', which reads back as the value |
| Background.Added | public/background.js:35-41 | a visit adds time only after an earlier visit (last visit above 0) less than 30 minutes before it; then it adds the gap capped at 5 minutes, and never more than 5 minutes |
| Background.Aggregate | public/background.js:17-47 | the domain map after the loop keeps each domain once, its keys listed in insertion order |
| Background.RoundToSeconds | public/background.js:55 | the rounded seconds are within half a second of the milliseconds, half-way values going up |
| Background.Output | public/background.js:50-59 | one record per domain, in insertion order, with the rounded time, the visits and category 'neutral' |
| Background.SumVisitsAppend | public/background.js:52-59 | the visits summed over a key list with one more key add that key's visits |
| Background.SumVisitsOther | public/background.js:32-33 | changing a domain not in the list leaves the sum alone |
| Background.SumVisitsUpdate | public/background.js:32-33 | changing one listed domain changes the sum by the difference in its visits |
| Background.StepVisits | public/background.js:19-46 | one item keeps the map well formed and adds exactly one visit when its url parses, none when it does not |
| Background.TotalVisits | public/background.js:17-47 | the visits of all records add up to the number of history items whose url parses |
| Background.OneRecordPerDomain | public/background.js:17-47 | there is a record for a domain iff some parseable item has that domain, and only one |
| Background.UnparsedChangesNothing | public/background.js:20-46 | an item whose url throws leaves the domain map as it was |
| Background.Visit | public/background.js:20-46 | one pass of the loop body is `Step` of the map |
| Background.GetHistoryData | public/background.js:17-59 | the two loops produce `Output` of `Aggregate` of the history items |
| Background.OnMessage | public/background.js:5-66 | a response is sent iff the action is 'getHistoryData', and it is the aggregated list |
| Background.SeenStep | public/background.js:17-47 | one more history item makes its own domain seen, when its url parses, and no other domain |
| Dashboard.DeliverOnlyRegistered | src/pages/NewIndex.tsx:88-91 | a widget's state changes only on the event names it registered a handler for |
| Dashboard.ExpandPanelExclusive | src/components/CustomizableToolPanel.tsx:90-106 | after any `expandPanel`, an open tool panel is the one it names; with distinct categories at most one is open |
| Dashboard.TasksPanelStaysOpen | src/components/ModernTasks.tsx:25-38 | an `expandPanel` for another category leaves an open tasks panel open |
| Dashboard.NoneClosesAll | src/pages/NewIndex.tsx:43-47 | `expandPanel` for 'none' closes every tool panel and the tasks panel |
| Dashboard.ToolPanelExpandedUnheard | src/components/CustomizableToolPanel.tsx:81-87 | no widget handles `tool-panel-expanded`, so its publication changes nothing and triggers nothing |
| Dashboard.FollowUpsAreAnnouncements | src/components/CustomizableToolPanel.tsx:81-87 | what a publication triggers is only ever a `tool-panel-expanded` announcement, and only `expandPanel` triggers any |
| Dashboard.NoFollowUpOnNone | src/pages/NewIndex.tsx:43-47 | closing everything opens nothing, so no panel announces itself |
| Dashboard.AtMostOneAnnouncement | src/components/CustomizableToolPanel.tsx:81-102 | with distinct categories, one `expandPanel` makes at most one panel announce itself, and it announces the named category |
| Dashboard.NoAnnouncementFrom | src/components/CustomizableToolPanel.tsx:91-101 | panels of other categories never open on an `expandPanel`, so none of them announces itself |
| Dashboard.Bus.constructor | src/pages/NewIndex.tsx:88-91 | a bus with no handlers |
| Dashboard.Bus.Registering | src/pages/NewIndex.tsx:88-91 | a bus holding the given handlers, each widget once |
| Dashboard.Bus.Subscribe | src/pages/NewIndex.tsx:88-91 | `addEventListener` appends the widget's handlers after those already registered |
| Dashboard.Bus.Publish | src/pages/NewIndex.tsx:43-47 | `dispatchEvent`: every registered widget's state becomes `Deliver` of the event, in order; the follow-ups are those the views trigger; only a location change asks for weather |
| Dashboard.PublishTo | src/pages/NewIndex.tsx:43-47 | delivery to a list of distinct widgets, one after the other, gives each `Deliver` of the event and collects `FollowUps` |
| Dashboard.DeliverTo | src/pages/NewIndex.tsx:69-86 | one widget's handler: its state becomes `Deliver` of the event and it triggers `FollowUp` |
| Dashboard.Board.constructor | src/pages/NewIndex.tsx:154-299 | the mounted page, weather card, tasks panel and four tool panels (distinct categories) registered on one bus, each once |
| Dashboard.Board.ClickOutside | src/pages/NewIndex.tsx:29-55 | a mouse-down outside every panel closes the bookmarks overlay, every tool panel and the tasks panel, and triggers nothing |
| Dashboard.Board.ExpandTool | src/components/CustomizableToolPanel.tsx:90-106 | an `expandPanel` naming a category flips that tool panel and closes the other three; the tasks panel follows its own rule; at most one announcement follows, for that category |
| Dashboard.DeliverAt | src/pages/NewIndex.tsx:43-47 | one widget in the list receives the event: its state becomes `Deliver` of it, every other widget is unchanged, and its follow-up is returned |
| Dashboard.BoardExpand | src/components/CustomizableToolPanel.tsx:90-106 | on the standard board, an `expandPanel` for a category flips that tool panel, closes the other three, moves the tasks panel by its own rule and leaves the page alone |
| Dashboard.BoardAnnouncements | src/components/CustomizableToolPanel.tsx:90-106 | on the standard board, an `expandPanel` triggers at most one follow-up, and none for the category "none" |
| Storage.Store.constructor | src/pages/NewIndex.tsx:21-23 | the store starts with exactly the items given |
| Storage.Store.Set | src/components/ModernTasks.tsx:61-63 | `setItem` replaces the item under its key and leaves every other key and item as it was |
| Storage.Lookup | src/components/ModernTasks.tsx:54 | `getItem` yields a value iff the key is stored, and then the stored value |
| Storage.LookupText | src/components/SettingsPanel.tsx:15 | a text is read iff the key holds a text, and it is that text |
| Storage.TextOr | src/components/SettingsPanel.tsx:15 | `getItem(key) \|\| fallback`: a stored non-empty text is returned; an absent or empty one gives the fallback |
| Storage.EncodeList | src/components/ModernTasks.tsx:62 | `JSON.stringify` of a list keeps its length and encodes each element in place |
| Storage.DecodeList | src/components/ModernTasks.tsx:55 | `JSON.parse` of a list fails iff some element has the wrong shape; otherwise it keeps the length and decodes each element in place |
| Storage.DecodeEncodeList | src/components/ModernTasks.tsx:53-63 | with an element codec that round-trips, reading back a written list gives the same list |
| Storage.LoadList | src/components/ModernTasks.tsx:53-56 | an absent key loads the fallback list |
| Storage.LoadAfterSave | src/components/ModernTasks.tsx:53-63 | whatever list a persisting effect writes is the list the next mount loads |
| Text.TrimStart | src/components/TodoWidget.tsx:36 | the result is a suffix of the input; what was cut is whitespace; it does not start with whitespace |
| Text.TrimEnd | src/components/TodoWidget.tsx:36 | the result is a prefix of the input; what was cut is whitespace; it does not end with whitespace |
| Text.TrimIsSlice | src/components/ModernTasks.tsx:66-69 | `trim()` keeps one contiguous slice, removes only whitespace around it, and leaves none at either end |
| Text.TrimEmptyIffBlank | src/components/TodoWidget.tsx:33 | an input passes the `trim()` guard iff it is not all whitespace |
| Text.TrimIdempotent | src/components/ModernSearch.tsx:72-73 | trimming a trimmed text changes nothing |
| Text.ToLowerIgnoresCase | src/components/CustomizableToolPanel.tsx:115 | lower-casing gives the same text whether the input was upper-cased first or lower-cased already |
| Text.SlugShape | src/components/CustomizableToolPanel.tsx:115 | a derived id has the name's length, no whitespace and no capital; whitespace becomes '-', every other character its lower case |
| Text.SlugIdempotent | src/components/ModernSearch.tsx:125 | deriving an id from an id gives the same id |
| Text.IndexFrom | public/background.js:22 | the first occurrence at or after the start, with none before it; none means no occurrence at all from there |
| Text.IndexOf | public/background.js:22 | the first occurrence of the part; none iff the text does not contain it |
| Text.NatToString | src/components/TodoWidget.tsx:35 | `toString()` of a non-negative number is a non-empty digit string without a leading zero |
| Text.DigitPrefix | src/components/WeatherWidget.tsx:226 | the longest digit prefix: all digits, a prefix of the input, followed by a non-digit or the end |
| Text.ParseIntOr | src/components/AdvancedFeatures.tsx:261 | `parseInt(v) \|\| fallback` is the parsed value when it is a non-zero integer, and the fallback when parsing fails or gives 0 |
| Text.DigitsValueOfNatToString | src/components/ModernTasks.tsx:68 | the digits written for a number read back as that number |
| Text.DigitPrefixOfDigits | src/components/WeatherWidget.tsx:226 | parsing stops exactly at the first non-digit after a digit run |
| Text.ParseIntOfIntToString | src/components/WeatherWidget.tsx:226 | a timestamp stored with `toString()` parses back to the same integer |
| Text.Pad2 | src/components/AdvancedFeatures.tsx:123 | `padStart(2, '0')` gives at least two characters |
| Text.Pad2Value | src/components/AdvancedFeatures.tsx:123 | a padded non-negative number reads back as itself and takes exactly two digits below 100 |
| Text.JsRem | src/components/AdvancedFeatures.tsx:122 | JavaScript's `%` with a positive divisor: below the divisor in size, the Euclidean remainder for a non-negative dividend, and non-positive with the sign of the dividend otherwise |
| Percent.DecodeEncode | public/theme-handler.js:8 | `decodeURIComponent(encodeURIComponent(s))` gives back every string `s` |
| Percent.EncodeAlphabet | src/components/ModernSearch.tsx:73 | an encoded string holds only unreserved characters and '%' |
| Percent.EncodeHasNoDelimiters | public/redirect.js:10 | an encoded string holds no '&', '#' or '+', so it survives as one query value |
| Sorting.SortDesc | src/components/WebsiteAnalytics.tsx:409 | the sorted list is a permutation of the input (same multiset, same length) |
| Sorting.SortDescSorted | src/components/WebsiteAnalytics.tsx:409 | sorting with `(a, b) => key(b) - key(a)` orders the list by non-increasing key |
| Sorting.SortDescStable | src/components/WebsiteAnalytics.tsx:409 | items with equal keys keep their relative order (the sort is stable) |
| Sorting.SortDescOfSorted | src/components/WebsiteAnalytics.tsx:409 | a list already in descending order is returned unchanged |
| Sorting.InsertSorted | src/components/ModernBookmarks.tsx:121-126 | inserting into a list ordered by non-increasing key keeps it ordered |
| Sorting.Insert | src/components/ModernBookmarks.tsx:121-126 | insertion adds exactly the one item to the list's multiset |
| Sorting.InsertWithKey | src/components/ModernBookmarks.tsx:121-126 | inserting one item keeps the relative order of the items with any given key |
| Sorting.ConsSorted | src/components/ModernBookmarks.tsx:121-126 | an item whose key is at least the head's can go in front of a list ordered by non-increasing key |
| Text.TrimEnds | src/components/ModernTasks.tsx:66-69 | a non-empty `trim()` result starts and ends with a character that is not whitespace |
| ThemeHandler.FirstMatch | public/theme-handler.js:6-7 | `regex.exec` reports the leftmost position holding '?' or '&' followed by `name=`, with no match before it; none means no match anywhere |
| ThemeHandler.ValueRun | public/theme-handler.js:6 | the capture `([^&#]*)` is the slice from the start up to the first '&' or '#' or the end, and holds neither |
| ThemeHandler.PlusToSpace | public/theme-handler.js:8 | every '+' becomes a space, every other character is kept, the length is unchanged |
| ThemeHandler.GetUrlParameter | public/theme-handler.js:4-9 | a query with no `[?&]name=` match gives '' |
| ThemeHandler.ValueRunOf | public/theme-handler.js:6 | a value free of '&' and '#' that ends at a delimiter or at the end is exactly what the capture group takes |
| ThemeHandler.ParameterOf | public/theme-handler.js:4-9 | for a query opening with `?name=v` the parameter is `v` with '+' read as space and percent-decoded, whatever follows, including a second `name=` |
| ThemeHandler.EncodedParameter | public/theme-handler.js:8 | a percent-encoded value sent as the first parameter reads back as the original text |
| ThemeHandler.MatchesAtStart | public/theme-handler.js:6-7 | a query opening with `?name=` matches at its first character |
| ThemeHandler.Applied | public/theme-handler.js:19-29 | one of the six names gets its own colours; any other name gets Blue's; the published theme carries no name |
| ThemeHandler.UrlThemeMakesPageLight | public/theme-handler.js:39 | the `themeChanged` event the handler publishes switches the dashboard to light mode for every theme name |
| ThemeHandler.Styled | public/theme-handler.js:32-36 | the four properties `--primary`, `--ring`, `--sidebar-primary` and `--sidebar-ring` get the primary colour; every other property is kept |
| ThemeHandler.Document.constructor | public/theme-handler.js:2 | the handler starts with the page's query, an empty style and the shared store |
| ThemeHandler.Document.ContentLoaded | public/theme-handler.js:2-48 | a malformed escape throws before any effect; an empty parameter changes nothing; otherwise the raw parameter is stored under 'edge-homepage-theme', the colours applied, `themeChanged` returned and the query cleared, after which no theme parameter remains |
| Redirect.StoredTheme | public/redirect.js:4 | the stored non-empty theme name, or 'Blue' when none or an empty one is stored; never empty |
| Redirect.RoundTrip | public/redirect.js:10 | the theme handler reading the redirect's query gets the stored theme name back unchanged |
| Redirect.ArrivalKeepsTheme | public/redirect.js:10 | the hosted page's handler always finds a decodable, non-empty theme parameter in the redirect's query |
| Redirect.Arrival | public/redirect.js:4-16 | the hosted page loading the redirect target stores in its own store exactly the theme name the extension's store held, applies and announces that theme, and clears its query |
| Redirect.SameTargetSameTheme | public/redirect.js:7-10 | two stores give the same redirect target iff they give the same theme name |
| Redirect.Window.constructor | public/redirect.js:14 | the window starts with its address, its manual link if any, and no pending redirect |
| Redirect.Window.OnLoad | public/redirect.js:14-23 | `onload` schedules the redirect and, when the page has a manual link, points it at the target |
| Redirect.Window.RedirectTimerFires | public/redirect.js:15-17 | after the delay the address becomes the target computed from the store as it then is, and nothing remains pending |

## Left out

- Rendering, icons, styling, animation and layout are not modelled. Where the view computes something (the grouped bookmarks, the sorted analytics list, the clock hand angles), that computation is a function. The analytics list is the exception that changes state: its render-time `sort` reorders the state list in place, which `WebsiteAnalytics.Analytics.Render` models.
- Floating point: durations, angles and rounding are modelled on integers (milliseconds, seconds, half-degrees). `Math.round` is floor(x + 1/2) on a whole number of milliseconds.
- Strings are sequences of Unicode scalar values, not UTF-16 code units. `toLowerCase`/`toUpperCase` map only the ASCII letters. `parseInt` reads decimal digits only, with no hexadecimal prefix.
- A stored value that does not parse, or parses to the wrong shape, is read as absent, and the component shows its default. Where the source does not catch the `JSON.parse` error, it would throw instead.
- JSON's handling of `NaN` and of `undefined` fields beyond optional properties is not modelled. The order of keys in a stored object is not modelled.
- The two bookmark components share the key 'edge-homepage-bookmarks' with different record shapes. Each model decodes only its own shape, so a list written by one reads as absent to the other.
- Timers (`setInterval`, `setTimeout`) are explicit `Tick` or timer methods that the environment calls. Intervals are not cancelled or re-created on re-render.
- `Date.now()`, `new Date()`, `Math.random()`, the geolocation result and the weather service's response are parameters. The mock weather readings and the quote draws are inputs.
- `AdvancedFeatures.Features.GenerateNewQuote`: requires that some draw names a quote other than the current one. The source loops on `Math.random()` until that happens, and the model does not prove that the loop terminates.
- `AdvancedFeatures.InitialQuote`: the first-mount quote is drawn from the first five quotes only, as in the source. The draw is a parameter below 5.
- Browser notifications, audio, speech recognition and `window.open` are not performed. Where a handler would start one, the model returns it as an effect value or leaves it out.
- The bookmark panel's `isLoading` spinner flag is not modelled. The weather card's `loading` flag is.
- The `chrome.bookmarks` and `chrome.history` APIs are inputs. The bookmark tree and the history items are given as values. The bookmark change listeners only re-run the fetch, so they are not separate operations.
- `ModernBookmarks.SortNewestFirst`: a bookmark without `dateAdded` sorts as date 0. The source's comparator returns 0 for such a pair, which leaves the order to the engine. The property is proved only for lists where every bookmark has a date, and that case agrees with the source.
- Holes in the goal arrays (a stored array shorter than three) are not modelled. Goals and flags are edited by index within the stored length.
- A weather cache missing some of its fields is read as absent.
- The `weatherLocationChanged` event carries only the location and the custom-location flag. Any other detail fields are not modelled.
- src/components/ModernClock.tsx is not part of this model.
- `location.search` parsing and `history.replaceState`: the query is a string field. Replacing the URL clears it.
- `getUrlParameter` escapes '[' and ']' in the parameter name. The model uses the fixed name 'theme', which has neither.
- `colorThemes[themeParam]` finds inherited object properties (for example 'toString') in JavaScript. The model treats only the six theme names as present.
- `Dashboard.Board`: the widgets are passed in already constructed. The board does not allocate them, so their creation order and the page's conditional rendering are not modelled.
- React's first render writes the initial state ([]) to storage before the loaded list replaces it. The model keeps only the final write.
- `ModernBookmarks.GroupBookmarks`: `keys` lists the groups in creation order. `Object.entries` lists names that are array indices ('0', '12', ...) first, in ascending numeric order, and the model does not capture that ordering.
- `WebsiteAnalytics.Analytics.Render`: it writes the sorted list at once. The source's save effect runs only when the list is replaced, so when the tabs view appears over an unsorted list (the panel becomes visible, or edit mode is left), the source sorts the state list but the store keeps the old order until the next change. Otherwise a handler followed by `Render` gives the source's state and store.
- `ModernTasks.Panel.HandlePanelExpand`: the `onClose` effect of both modern panels fires whenever the panel becomes closed while the `isOpen` prop holds it open, including through a panel event or the toggle button. The model reports `onClose` only from `Close`. The page mounts both panels without props, so nothing observable is lost.
- `ModernTasks.Panel.AddTask`: one timestamp `now` gives both the id and `createdAt`. The source calls `Date.now()` twice, and the two readings can differ by a millisecond.

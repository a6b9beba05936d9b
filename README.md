# Game of Life client: board-state synchronisation model

A Dafny model of the client-side board-state logic of a two-module browser
front end for a server-run Conway's Game of Life. The board editor
(`apps/board-mfe`) and the control panel (`apps/controls-mfe`) are loaded
independently. They share only a query cache of board snapshots and the
window: persisted storage holding the active board identity, and an event bus.
The request layer (`packages/api-client`) turns calls into HTTP requests and
turns thrown values into errors.

The model has one module per concern:

- `Types`: the wire records (`BoardStateResponse` and friends). JavaScript truthiness of an optional string is `Truthy`.
- `Grids`: grids as `seq<seq<bool>>`, the all-dead grid, the alive count (`Alive`) and the single-cell `Flip`, with lemmas relating them.
- `Strings`: prefixes, first-occurrence search, and decimal rendering and parsing of integers.
- `QueryCache`: the shared cache as a class, a map from key (`Current(id)` for `["board", id]`, `Next(id)` for `["board", id, "next"]`) to a snapshot, plus the set of stale keys.
- `Browser`: the window as a class, holding the storage map and the log of dispatched events.
- `ApiClient`: token selection and the `Authorization` header, `toError`, the 2xx rule, endpoint paths with their defaults, query keys and enabling, and the keys each mutation invalidates. `ParseRoute` reads a method and path back into its endpoint. It is a reference inverse that shows the path builders lose nothing; it is not a function of the source.
- `Board`: `empty`, `ensureGrid`, `countAlive` as a nested loop, the optimistic snapshot, and the editor component as a class. Its methods are the creation effect, the settling of the upload, the toggle up to its request (`OnToggle`) and the settling of that request (`SettleToggle`). Between those two calls other events may happen, so overlapping toggles each roll back to the value they captured.
- `Controls`: identity adoption, view selection, step clamping, and the panel as a class whose methods are its UI events. Every event ends in `Commit`, the React commit: the step input starts over at 1 while the buttons are not on screen (`Rendered`), and the autoplay effect re-runs when `playing` or `boardId` changed. Each event states the whole observed panel state afterwards (`PanelState`): the state before, with the fields the event sets replaced, then rendered. A recorded log of interval creations and clears shows that at most one interval is ever alive and that the old one is cleared before a new one is made.
- `Shell`: the page that mounts both modules over one cache, with scenarios that involve both of them.

Where the system's stated design and its code differ, the model follows the code:

- Play/Stop is never disabled, so autoplay can start while a manual advance is still pending. A tick may then issue an advance while the manual one is in flight. Manual advance is disabled while playing, but not the other way round.
- A successful toggle does not write the server's snapshot into the cache. The mutation only invalidates `["board", id]` and `["board", id, "next"]`.
- No per-key version counter exists. A late completion is not discarded by this code.
- `updateGrid` uses the lower-case `/api/boards/{id}` path and lets its errors through without `toError`.

## Model

| member | source | states |
|---|---|---|
| Grids.AllFalse | apps/controls-mfe/src/Controls.tsx:19-21 | `makeEmpty(h, w)`: h rows of w cells each, every cell dead (a negative length counts as zero) |
| Grids.Flip | apps/board-mfe/src/Board.tsx:54-56 | the toggled copy has the base grid's shape and differs from it only at (r, c), which is negated |
| Grids.AliveFlip | apps/board-mfe/src/Board.tsx:56-61 | flipping one cell changes the alive count by exactly one: down if the cell was alive, up if it was dead |
| Grids.AliveBounds | apps/board-mfe/src/Board.tsx:18-25 | the alive count is at most the number of cells, ragged rows included, and is zero exactly when no cell is alive |
| Grids.FlipTwice | apps/board-mfe/src/Board.tsx:56 | toggling the same cell twice gives back the original grid |
| Board.Empty | apps/board-mfe/src/Board.tsx:8-9 | `empty()` is a 20-by-20 grid of dead cells by default |
| Board.EnsureGrid | apps/board-mfe/src/Board.tsx:11-16 | a present grid (even an empty array) comes back unchanged; a missing one becomes an all-dead grid of the given height and width, each missing dimension defaulting to 20 |
| Board.BaseGrid | apps/board-mfe/src/Board.tsx:54 | the grid a toggle edits is the snapshot's own grid when present, else an all-dead grid of the snapshot's height and width |
| Board.CountAlive | apps/board-mfe/src/Board.tsx:18-25 | the nested loop's total equals the number of alive cells over all rows |
| Board.Optimistic | apps/board-mfe/src/Board.tsx:61 | the optimistic snapshot keeps id, generation, width and height of the previous value and carries the new grid with its exact alive count |
| Board.OptimisticCount | apps/board-mfe/src/Board.tsx:54-61 | from a consistent snapshot, the optimistic one is consistent again, with alive count one less or one more according to the toggled cell |
| Board.BoardComponent.constructor | apps/board-mfe/src/Board.tsx:28 | the editor starts with the persisted identity and no upload in flight |
| Board.BoardComponent.RunCreationEffect | apps/board-mfe/src/Board.tsx:34-48 | the effect runs only on the first render and when the identity changed since its last run; then an upload of the empty 20-by-20 grid is sent exactly when there is no identity and no upload pending |
| Board.BoardComponent.UploadSettled | apps/board-mfe/src/Board.tsx:38-44 | on success the returned id is persisted, broadcast as the event detail and adopted locally; on failure the identity, storage and events stay as they were |
| Board.BoardComponent.OnToggle | apps/board-mfe/src/Board.tsx:50-62 | the interaction event is always dispatched; without data or identity nothing else happens; otherwise the previous cached value is captured and, if present, overwritten by the optimistic snapshot, and the flipped grid is what gets sent |
| Board.BoardComponent.SettleToggle | apps/board-mfe/src/Board.tsx:64-69 | on failure the board's entry is restored to the snapshot captured by that toggle, if there was one; on success nothing is written and both board keys are invalidated |
| Board.BoardComponent.Toggle | apps/board-mfe/src/Board.tsx:50-70 | a whole toggle always announces the interaction and never touches storage; without data or identity the cache is untouched; a failed update leaves every cached value as before; a successful one leaves the optimistic snapshot where there was a cached value to patch, and marks both board keys stale |
| QueryCache.QueryClient.constructor | apps/shell/src/main.tsx:8 | the shared cache starts empty |
| QueryCache.QueryClient.GetQueryData | apps/board-mfe/src/Board.tsx:60 | reading a key gives its cached value, without a fetch |
| QueryCache.QueryClient.SetQueryData | apps/board-mfe/src/Board.tsx:62 | a write replaces that key's value only and makes it fresh |
| QueryCache.QueryClient.InvalidateQueries | packages/api-client/src/index.ts:58-59 | invalidation marks the key stale and keeps every cached value |
| Browser.Window.GetItem | apps/board-mfe/src/Board.tsx:28 | reading storage gives the stored value or none |
| Browser.Window.SetItem | apps/board-mfe/src/Board.tsx:40 | persisting writes that key only and dispatches nothing |
| Browser.Window.DispatchEvent | apps/board-mfe/src/Board.tsx:42 | dispatching appends the event and leaves storage alone |
| Strings.IntToString | packages/api-client/src/index.ts:35 | a number in a template literal renders as decimal digits, with a leading minus sign exactly when negative, and no leading zero except for 0 itself |
| Strings.NatToString | packages/api-client/src/index.ts:84 | a natural number renders as at least one decimal digit, the first being 0 only for 0 itself |
| Strings.IntToStringRoundTrip | packages/api-client/src/index.ts:84 | parsing an integer's decimal rendering gives back the integer |
| ApiClient.NormalizeBearer | packages/api-client/src/index.ts:23 | the header value always starts with `Bearer `; a token already so prefixed is kept; otherwise the token follows the prefix unchanged |
| ApiClient.NormalizeBearerIdempotent | packages/api-client/src/index.ts:23 | normalising twice equals normalising once |
| ApiClient.SelectToken | packages/api-client/src/index.ts:18-20 | the configured token is used when non-empty, else the stored one; the chosen token is non-empty iff either is |
| ApiClient.AuthorizationValue | packages/api-client/src/index.ts:18-23 | a header exists iff the configured or the stored token is non-empty; a non-empty configured token takes precedence over the stored one |
| ApiClient.Intercept | packages/api-client/src/index.ts:17-26 | the interceptor sets only `Authorization` (creating the header map if absent) when there is a token, and leaves the configuration untouched otherwise |
| ApiClient.ServerMessage | packages/api-client/src/index.ts:32-33 | the server message is the body's `message` when non-empty, else its `error`; there is none without a body |
| ApiClient.ChosenMessage | packages/api-client/src/index.ts:33-34 | the chosen message is never empty |
| ApiClient.ChosenMessageOrder | packages/api-client/src/index.ts:33-34 | the message is the first non-empty of body `message`, body `error` and the transport message, else `Request failed` |
| ApiClient.ToError | packages/api-client/src/index.ts:28-38 | a non-HTTP Error passes through; any other non-HTTP value becomes `Unknown error`; an HTTP failure gives a non-empty message, prefixed by `status: ` exactly when the status is truthy |
| ApiClient.ToErrorStatusRecoverable | packages/api-client/src/index.ts:35 | with a status, the message splits back into that status and the chosen message |
| ApiClient.IsSuccessStatus | packages/api-client/src/index.ts:14 | a status is a success iff its hundreds digit class is 2, that is 200 to 299 |
| ApiClient.AdvanceCall | packages/api-client/src/index.ts:91-93 | an advance uses the step count it is given, and 1 when none is given |
| ApiClient.FinalCall | packages/api-client/src/index.ts:100-102 | a final-state request uses the bound it is given, and 10000 attempts when none is given |
| ApiClient.MethodOf | packages/api-client/src/index.ts:42-102 | the upload and the advance are POST, the grid update is PUT, and the four reads are GET |
| ApiClient.Path | packages/api-client/src/index.ts:42-102 | the upload targets `/api/Boards`; every other path names its board right after the collection segment, and only the board read and the grid update end there |
| ApiClient.DefaultPaths | packages/api-client/src/index.ts:91-102 | the default paths are `/api/Boards/{id}/advance?steps=1` and `/api/Boards/{id}/final?maxAttempts=10000` |
| ApiClient.PathSegment | packages/api-client/src/index.ts:40-107 | only the grid update targets the lower-case `/api/boards/`; every other call targets `/api/Boards` |
| ApiClient.RouteRoundTrip | packages/api-client/src/index.ts:40-107 | for an id without `/`, every request's method and path determine the call and its arguments |
| ApiClient.SurfacedFailure | packages/api-client/src/index.ts:49-52 | a failed grid update surfaces the thrown value unchanged; every other call surfaces the ToError message |
| ApiClient.SurfacedFailureIdempotent | packages/api-client/src/index.ts:37 | normalising an already normalised failure changes nothing |
| ApiClient.BoardQuery | packages/api-client/src/index.ts:109-111 | the current-board query is enabled iff the id is truthy, under the key `["board", id]` |
| ApiClient.PreviewQuery | packages/api-client/src/index.ts:125-127 | the preview query is enabled iff the id is truthy, under the key `["board", id, "next"]` |
| ApiClient.InvalidatedKeys | packages/api-client/src/index.ts:57-60 | a mutation invalidates only keys of its own board, and nothing when it fails |
| ApiClient.InvalidationCoversQueries | packages/api-client/src/index.ts:109-127 | a successful mutation invalidates exactly the two read queries of its board |
| ApiClient.MutationSettled | packages/api-client/src/index.ts:112-120 | success of a grid-update or advance mutation marks both board keys stale; failure marks nothing; no cached value changes |
| Controls.AdoptedId | apps/controls-mfe/src/Controls.tsx:8-11 | the adopted identity is the event detail when present (even empty), otherwise the persisted pointer |
| Controls.MountedId | apps/controls-mfe/src/Controls.tsx:5-7 | on mount the panel adopts the persisted pointer when it is non-empty, and no identity otherwise |
| Controls.SelectView | apps/controls-mfe/src/Controls.tsx:140-143 | the create prompt iff no identity and no interaction; loading iff no identity after interaction or while the board loads; the error iff loaded with an error; the panel otherwise |
| Controls.ClampSteps | apps/controls-mfe/src/Controls.tsx:42-50 | the step count is always at least 1 and any count of at least 1 is kept |
| Controls.ClampStepsIdempotent | apps/controls-mfe/src/Controls.tsx:42-50 | clamping an already clamped count changes nothing |
| Controls.KeptDimension | apps/controls-mfe/src/Controls.tsx:99-102 | the remembered height or width changes only to a truthy new value |
| Controls.AdvanceDisabled | apps/controls-mfe/src/Controls.tsx:145 | manual advance is disabled exactly while playing or while a manual advance is pending |
| Controls.AutoplayWanted | apps/controls-mfe/src/Controls.tsx:128 | an interval is wanted exactly while playing with a truthy identity |
| Controls.MutationId | apps/controls-mfe/src/Controls.tsx:86-87 | the mutations are bound to the current identity, or to the empty identity exactly when there is no truthy one |
| Controls.Rendered | apps/controls-mfe/src/Controls.tsx:140-153 | a render keeps the view and every field, except that the step input restarts at 1 when the buttons are not on screen |
| Controls.ControlsPanel.constructor | apps/controls-mfe/src/Controls.tsx:75-98 | the whole starting state: no interaction, the mounted identity, its board query loading exactly when enabled, no error, not playing, not advancing, a 20-by-20 remembered size, step count 1, no reset pending and no interval |
| Controls.ControlsPanel.Commit | apps/controls-mfe/src/Controls.tsx:40-57 | after any change the panel is valid again and its observed state is the rendered one (the step input holds 1 whenever the buttons are off screen, since their state starts over when they remount); the autoplay effect has run |
| Controls.ControlsPanel.RunAutoplayEffect | apps/controls-mfe/src/Controls.tsx:127-131 | an interval exists iff playing with a truthy identity; when either dependency changed, the old interval is cleared before a new one is created, and otherwise nothing happens |
| Controls.ControlsPanel.ClearTimer | apps/controls-mfe/src/Controls.tsx:130 | the cleanup clears the one live interval, leaving none |
| Controls.ControlsPanel.BoardInteracted | apps/controls-mfe/src/Controls.tsx:77-81 | the new state is the old one with `interacted` set, rendered; the interval and its log are untouched |
| Controls.ControlsPanel.BoardIdChanged | apps/controls-mfe/src/Controls.tsx:8-14 | the panel adopts the event's identity; a different identity switches to that board's query, loading exactly when enabled and with no error, so the old board's error or loaded state is not carried over; an unchanged identity changes nothing; a changed identity tears down the old interval before any new one |
| Controls.ControlsPanel.BoardQueryChanged | apps/controls-mfe/src/Controls.tsx:84-102 | the new state is the old one with the query status taken over and the remembered size following only truthy dimensions, rendered; the interval is untouched |
| Controls.ControlsPanel.TogglePlay | apps/controls-mfe/src/Controls.tsx:118-120 | the new state is the old one with `playing` negated, and nothing else; the interval follows it, the old one cleared first |
| Controls.ControlsPanel.TogglePlayTwice | apps/controls-mfe/src/Controls.tsx:118-120 | two toggles restore the whole observed state and whether an interval runs |
| Controls.ControlsPanel.OnNext | apps/controls-mfe/src/Controls.tsx:104-109 | Next requests an advance of 1 on the bound identity; the new state is the old one with manual advance locked, rendered |
| Controls.ControlsPanel.OnAdvanceN | apps/controls-mfe/src/Controls.tsx:111-116 | Advance N requests n steps on the bound identity; the new state is the old one with manual advance locked, rendered |
| Controls.ControlsPanel.ManualAdvanceSettled | apps/controls-mfe/src/Controls.tsx:106-107 | once the request settles, whatever its outcome, the new state is the old one with the lock released, rendered |
| Controls.ControlsPanel.OnReset | apps/controls-mfe/src/Controls.tsx:122-125 | without an identity nothing is sent and nothing changes; otherwise an all-dead grid of the remembered height and width replaces the board and the new state is the old one with a reset pending, rendered |
| Controls.ControlsPanel.ResetSettled | apps/controls-mfe/src/Controls.tsx:157 | once the update settles the new state is the old one with no reset pending, rendered, so a manual-advance lock survives it |
| Controls.ControlsPanel.ClickNext | apps/controls-mfe/src/Controls.tsx:145-153 | a Next click sends an advance iff the panel is shown and neither playing nor a manual advance is pending; it then only locks manual advance, and a refused click changes nothing |
| Controls.ControlsPanel.InputSteps | apps/controls-mfe/src/Controls.tsx:50 | on the panel the step input holds `max(1, value)` and nothing else changes; off the panel nothing changes |
| Controls.ControlsPanel.ClickAdvanceN | apps/controls-mfe/src/Controls.tsx:42-51 | an Advance N click sends `max(1, steps)` steps iff shown and enabled, so never fewer than 1 and never while playing; it then only locks manual advance, and a refused click changes nothing |
| Controls.ControlsPanel.ClickPlay | apps/controls-mfe/src/Controls.tsx:53 | Play/Stop is never disabled: on the panel it toggles `playing` and nothing else, an interval then exists iff wanted and the old one is cleared before a new one; off the panel nothing changes |
| Controls.ControlsPanel.ClickReset | apps/controls-mfe/src/Controls.tsx:54 | a Reset click sends the empty grid iff the panel is shown and no reset is pending; it then only marks a reset pending, and a refused click changes nothing |
| Controls.ControlsPanel.Tick | apps/controls-mfe/src/Controls.tsx:127-131 | an interval tick only happens while playing with a truthy identity and advances that identity by 1 |
| Shell.IdentityConvergence | apps/board-mfe/src/Board.tsx:36-43 | with no persisted identity, the board, the storage and the control panel all end on the identity the upload returned, and the panel then waits for that board to load |
| Shell.ToggleOnEmptyBoard | apps/board-mfe/src/Board.tsx:50-69 | toggling (0,0) on an empty 10-by-10 board shows alive count 1 at generation 0 at once; a failed update restores alive count 0 |
| Shell.FailedUploadNotRetried | apps/board-mfe/src/Board.tsx:34-48 | with no persisted identity one upload is sent; after it fails the identity is unchanged and the creation effect sends nothing more |
| Shell.ManualAdvanceLock | apps/controls-mfe/src/Controls.tsx:104-116 | once loaded, Next sends an advance of 1, stays locked while a reset is sent and settles, and sends again only after the manual advance settles |

## Left out

- Rendering: JSX, styles, `BoardGrid`, the board's own loading and error texts, and the preview and status panels are presentation only.
- Storybook stories, build configuration, module-federation wiring and the remote type declarations are not modelled.
- Transport: axios itself, the base URL, the 10-second timeout and real HTTP. Each request is an outcome passed in: a returned identity or a thrown value for the upload, success or failure for an update. Response bodies of reads and advances are not modelled.
- React Query internals: fetch deduplication, refetching, retries and prefix matching of invalidation. Only the keys the code names are invalidated. A write makes its key fresh, and a key may be marked stale before any value is cached.
- Timers: the 500 ms interval and the 120 ms delay before manual advance unlocks. Ticks and the settling of a manual advance are discrete events; the delay is folded into `ManualAdvanceSettled`.
- The Game-of-Life transition rule is computed by the server and does not appear in this code.
- The event bus has no listener list: a listener's reaction is a method call (`Controls.ControlsPanel.BoardIdChanged`, `Controls.ControlsPanel.BoardInteracted`), as `Shell` shows. The `try`/`catch` around dispatching is omitted, since dispatching is modelled as never failing.
- `import.meta.env` is a parameter (`envToken`) of the interceptor.
- Concurrency is left to the caller: overlapping toggles are separate `OnToggle`/`SettleToggle` calls in any order, with no scheduler.
- Numbers are integers. Non-integer step counts typed into the input, NaN, and the exponent form JavaScript uses for integers of 10^21 and above are not modelled.
- Board.BoardComponent.OnToggle: requires (r, c) to lie inside the base grid, because its only caller, `BoardGrid`, calls it with the indices of cells it rendered from that grid (apps/board-mfe/src/BoardGrid.tsx:8-13). Writes outside a row, a TypeError or a sparse array in JavaScript, are not modelled.
- Board.BoardComponent.OnToggle: the clone is a value copy (`seq`), so aliasing between the clone, the base grid and the snapshot cached by reference is not modelled. `data` is a parameter because the callback closes over the value of the last render, which can differ from the current cache entry.
- Controls.ControlsPanel.BoardIdChanged: a new identity's query starts loading as with an empty cache; a snapshot the shared cache may already hold for it is not consulted until `BoardQueryChanged` reports.
- Controls.ControlsPanel.constructor: folds the first render (identity read raw from storage) and the mount effect (an empty stored identity read as none) into one step. The board query starts loading exactly when it is enabled, as with an empty cache, and without an error; a snapshot already cached for that identity is not consulted until `BoardQueryChanged` reports.

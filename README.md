# SuperMenu core in Dafny

SuperMenu is an internal tool for requisitions, approvals and support. It
has an Express/PostgreSQL backend and a React/Electron client. This project
models the logic that backend and client carry over lists and tables, and
proves properties of that logic.

**Approval ledger** (`ledger.dfy`, `logistica.dfy`)
- `registro_aprobaciones` is a sequence of rows.
- The active-ledger query keeps undelivered rows and rows delivered within the last 60 days.
- The recent-deliveries query keeps rows in state `Entregado` inside the same window.
- The `entregar` update stamps a row as delivered.
- The logistics screen splits the fetched rows into three tabs by the lower-cased state and sorts each tab newest first.
- That screen shows a status icon and a details grid per row. Its delivery form moves a row from the approved tab to the delivered tab.

**Requisitions** (`requisitions.dfy`, `requisiciones_view.dfy`)
- There are three origin tables. Each per-origin route returns its table newest first.
- The `todas` route tags every row with its origin, concatenates the three lists and sorts them newest first, stably.
- The client picks the endpoint from the active tab and filters rows by a case-insensitive substring search.
- The client also chooses an origin badge and lists a row's remaining fields.

**Mind map** (`mindmap.dfy`, `server.dfy`, `soporte.dfy`)
- Nodes and typed connections. The server applies default values for color and connection type.
- A node update reports "not found" for an unknown id.
- Deleting a node cascades to every connection that touches it.
- `Server.Database` holds the tables. Its methods are the handlers that write, and they keep the key and foreign-key constraints (`Valid`).
- The client component `Soporte.MindMapView` mirrors the tables. It covers dragging, adding a child node at a fixed offset together with its `child` edge, deleting, and which edges are drawn.

**Login** (`auth.dfy`)
- The login handler checks the required fields, looks up an active account and compares the password.
- It answers every bad credential with the same 401, and a success without the password hash.

**Users** (`usuarios.dfy`)
- A purely local user list: a form that edits or appends, and deletion after confirmation.

**Shared modules**
- `Seqs`: filter, find, subsequence.
- `Sorting`: a stable descending insertion sort. It is proved sorted, a permutation and stable. It is also proved to be the *only* stable descending sort, so it stands for `Array.prototype.sort` whatever algorithm the engine uses.
- `Text`: `toLowerCase` on Latin letters, `trim`, `includes`.
- `Records`: JSON objects as entry lists.
- `Expand`: the expanded-row toggle.

**Modelling conventions**
- Timestamps are integers: seconds since an epoch. The clocks are parameters: `now` stands for `NOW()`, `CURRENT_TIMESTAMP`, `new Date()` and `Date.now()`; `currentDate` stands for `CURRENT_DATE`. Node positions are integers.
- Requests that wait for a reply are modelled in one of two ways: as an `Option` parameter, where `None` is a failed request, or as a call on the `Database` object.
- The bcrypt comparison is the parameter `matches(password, hash)`.
- The window centre used to place a root node is the parameter `center`.
- A new mind-map node's `created_at` and `updated_at` are taken to be `now`. The INSERT leaves both to the table's defaults, and the table definition is not part of this model.

**Behaviour of the source worth noting**
- The delivery update has no guard on the previous state: a rejected or an already delivered row is stamped again (`Ledger.DeliverIgnoresPriorState`).
- The server stores whatever deliverer it is sent.
- The create-node handler does not check that the parent exists.
- The connection table's foreign keys are modelled as present, since the delete handler relies on `ON DELETE CASCADE`. A connection to a missing node is therefore refused.
- `toggleExpand` applied twice restores the previous value only when no row, or that same row, was open. When another row was open, the first toggle replaces it and the second closes everything (`Expand.ToggleTwiceFromOtherRowCloses`).

## Model

| member | source | states |
|---|---|---|
| `Ledger.ActiveLedger` | src/backend/server.ts:35-39 | exactly the rows with no delivery date or one at least `CURRENT_DATE - 60 days`, every such row present (as a multiset, the filtered table), ordered by decision date descending |
| `Ledger.ActiveLedgerHidesExpiredDeliveries` | src/backend/server.ts:37-38 | a delivered row is listed iff its delivery date is inside the 60-day window |
| `Ledger.RecentDeliveries` | src/backend/server.ts:119-123 | exactly the rows in state `Entregado` with a delivery date inside the window (a null date fails), as a multiset the filtered table, ordered by delivery date descending |
| `Ledger.RecentDeliveriesWithinActiveLedger` | src/backend/server.ts:119-123 | every recent delivery is also in the active ledger |
| `Ledger.DeliverInTable` | src/backend/server.ts:97-105 | the update keeps the number of rows |
| `Ledger.DeliverChangesOnlyThatRow` | src/backend/server.ts:97-105 | rows with another id are unchanged; a row with the id gets state `Entregado`, the given deliverer and notes, delivery date `now`, and keeps every other column |
| `Ledger.DeliverUnknownIdChangesNothing` | src/backend/server.ts:104 | an id that no row has leaves the table unchanged |
| `Ledger.DeliverKeepsIds` | src/backend/server.ts:97-105 | the ids, in order, are unchanged |
| `Ledger.DeliverIsIdempotent` | src/backend/server.ts:97-105 | applying the same delivery twice equals applying it once |
| `Ledger.DeliverIgnoresPriorState` | src/backend/server.ts:97-104 | whatever the previous state, the row ends in `Entregado` with the given deliverer, even an absent or empty one |
| `Ledger.DeliveredRowIsListed` | src/backend/server.ts:97-123 | a row delivered inside the window appears in both listings with its new fields |
| `Server.Database.MarkDelivered` | src/backend/server.ts:92-114 | the new ledger is the updated table; the reply is empty iff no row has the id, otherwise it is that row after the update; no other table changes |
| `Requisitions.OriginTagsAreDistinct` | src/backend/server.ts:69-71 | the three origin tags differ, and so do the three table names |
| `Requisitions.ByOrigin` | src/backend/server.ts:22 | a per-origin route returns a permutation of its whole table, ordered by request date descending |
| `Requisitions.Tagged` | src/backend/server.ts:69-71 | the tagged list holds each row of the table, in table order, with `tipo` set to the origin's tag |
| `Requisitions.Combined` | src/backend/server.ts:74-82 | the combined list has `|tic| + |logistica| + |compras|` rows and is a stable descending sort of the tagged concatenation: a permutation of it, sorted by request date, with rows of equal date in concatenation order |
| `Requisitions.TaggedAsOwnOrigin` | src/backend/server.ts:69-71 | the rows of a tagged table that carry an origin's tag are all of them for its own origin and none for another |
| `Requisitions.TaggedAsConcat` | src/backend/server.ts:74-78 | selecting one origin's tag from a concatenation selects it from each part, in order |
| `Requisitions.TaggedAsConcatenated` | src/backend/server.ts:68-78 | the rows of the concatenation tagged with an origin are exactly that origin's table, tagged, in table order |
| `Requisitions.TaggedAsPermutation` | src/backend/server.ts:78-82 | selecting one origin's rows commutes with reordering a list |
| `Requisitions.CombinedRowsAreTagged` | src/backend/server.ts:68-77 | every row of the combined list carries the `TIC`, `Logística` or `Compras` tag |
| `Requisitions.CombinedRowsByOrigin` | src/backend/server.ts:68-82 | the combined rows with an origin's tag are, as a multiset, that origin's whole table, tagged; there are as many of them as the table has rows |
| `Requisitions.Route` | src/backend/server.ts:50-65 | a pathname reaches a handler iff, with case folded and one trailing slash dropped, it is the prefix followed by that handler's segment; any other pathname reaches none of the four |
| `Requisitions.RouteFindsEveryView` | src/backend/server.ts:50-65 | each of the four registered paths reaches its own handler |
| `Requisitions.RouteIgnoresCase` | src/backend/server.ts:50-65 | lower-casing a pathname does not change the handler it reaches |
| `Requisitions.RouteIgnoresTrailingSlash` | src/backend/server.ts:50-65 | adding one trailing slash to a pathname does not change the handler it reaches |
| `Sorting.Insert` | src/backend/server.ts:78-82 | inserting keeps the elements (plus the new one) and keeps a descending list descending |
| `Sorting.SortDesc` | src/backend/server.ts:78-82 | the sorted list is a permutation of the input and descending by the key |
| `Sorting.SortDescIsStable` | src/backend/server.ts:78-82 | elements with equal keys keep their input order |
| `Sorting.InsertWithKey` | src/backend/server.ts:78-82 | inserting adds the new element in front of the elements with its key and leaves the other key groups alone |
| `Sorting.SortedAgreeingListsAreEqual` | src/backend/server.ts:78-82 | two descending lists that agree on the order within every key group are equal |
| `Sorting.StableSortIsUnique` | src/backend/server.ts:78-82 | any stable descending sort of a list equals `SortDesc`, so the engine's sort algorithm does not matter |
| `Auth.LookUp` | src/backend/server.ts:141-148 | the account found is an active one with that username; none is found iff no such account exists |
| `Auth.Public` | src/backend/server.ts:157-158 | the public user keeps id, username, full name and role, and has no password field |
| `Auth.Login` | src/backend/server.ts:136-164 | the reply is the 400 "required" error iff a field is missing or empty; every other failure is the single 401 `Credenciales inválidas`; a success carries the placeholder token and the public data of an active account with that username whose hash matches |
| `Auth.LoginSucceedsIffValidCredentials` | src/backend/server.ts:141-164 | with unique usernames, login succeeds iff the account is active and the password matches, and then returns that account's public data |
| `Auth.RejectionDoesNotRevealCause` | src/backend/server.ts:146-155 | an unknown user, an inactive account and a wrong password all get the identical 401 reply |
| `MindMap.OrDefault` | src/backend/server.ts:214 | JavaScript `v \|\| d`: a present non-empty value is kept, otherwise the default |
| `MindMap.StoredColor` | src/backend/server.ts:214 | the stored color is never empty and is `#1E3A8A` when the request has none |
| `MindMap.StoredType` | src/backend/server.ts:233 | the stored connection type is never empty and is `related` when the request has none |
| `MindMap.NewNode` | src/backend/server.ts:209-214 | the inserted node has the generated id, the parent, title, description, problem, solution and both positions as sent, the stored color, and `now` as both timestamps |
| `MindMap.UpdateInTable` | src/backend/server.ts:249-259 | the update keeps the number of nodes |
| `MindMap.UpdateReplacesOnlyThatNode` | src/backend/server.ts:249-261 | ids and order are kept; other nodes are unchanged; the matching node takes every mutable field (color defaulted) and `updated_at = now`, keeping its parent and creation time |
| `MindMap.UpdateKeepsNodeIds` | src/backend/server.ts:249-259 | the update keeps the set of node ids and their uniqueness |
| `MindMap.UpdatedRowsComeFromMatches` | src/backend/server.ts:259-268 | a returned row is the update of an old row with that id |
| `MindMap.UpdateUnknownIdChangesNothing` | src/backend/server.ts:264-266 | for the 404 case the table is unchanged |
| `MindMap.CascadeDelete` | src/backend/server.ts:279-280 | exactly the connections not touching the node survive, in order; each keeps as many copies as it had |
| `MindMap.RemoveNode` | src/backend/server.ts:280 | exactly the nodes with another id survive, in order; each keeps as many copies as it had |
| `MindMap.RemoveConnection` | src/backend/server.ts:292 | exactly the connections with another id survive, in order; each keeps as many copies as it had |
| `MindMap.DeleteNodeKeepsLinks` | src/backend/server.ts:279-280 | after a node delete and its cascade, every connection still joins existing nodes and none touches the deleted node |
| `MindMap.DeleteConnectionKeepsLinks` | src/backend/server.ts:292 | deleting an edge keeps the rest joined to existing nodes |
| `MindMap.DeleteConnectionRemovesOne` | src/backend/server.ts:292 | with unique ids, deleting an existing edge removes exactly one connection, and an unknown id removes none |
| `MindMap.ListNodes` | src/backend/server.ts:185 | all nodes, newest first |
| `MindMap.ListConnections` | src/backend/server.ts:195-201 | the table with 200, or 500 with an empty array when the query fails |
| `Server.Database.constructor` | src/backend/server.ts:10-16 | a store satisfying the constraints with the given tables and an empty mind map |
| `Server.Database.CreateNode` | src/backend/server.ts:205-222 | appends `NewNode` with the next id and returns it; constraints kept |
| `Server.Database.CreateConnection` | src/backend/server.ts:224-241 | fails, changing nothing, iff an end is not a node; otherwise appends the edge with the next id and the stored type |
| `Server.Database.UpdateNode` | src/backend/server.ts:243-273 | the table becomes the updated table; not found iff no node has the id, and then nothing changes; a reply is the updated row |
| `Server.Database.DeleteNode` | src/backend/server.ts:275-286 | removes the node and cascades in one step; constraints kept |
| `Server.Database.DeleteConnection` | src/backend/server.ts:288-298 | removes only that edge; the count drops by one iff it existed |
| `Logistica.ApprovedTab` | src/renderer/src/components/Logistica.tsx:49-53 | a stable sort of the rows whose lower-cased state is `aprobado`, latest decision first |
| `Logistica.PendingTab` | src/renderer/src/components/Logistica.tsx:55-59 | a stable sort of the rows whose lower-cased state is neither `aprobado` nor `entregado`, latest decision first |
| `Logistica.DeliveredTab` | src/renderer/src/components/Logistica.tsx:61-65 | a stable sort of the rows whose lower-cased state is `entregado`, by delivery date (decision date when none) descending |
| `Logistica.TabsPartition` | src/renderer/src/components/Logistica.tsx:49-65 | the three tabs together hold every fetched row exactly as often as the reply does |
| `Logistica.RowInItsTab` | src/renderer/src/components/Logistica.tsx:49-62 | a fetched row is in a tab iff its lower-cased state selects that tab |
| `Logistica.StatusIconFor` | src/renderer/src/components/Logistica.tsx:135-147 | the approved, rejected and delivered icons go to the lower-cased states `aprobado`, `rechazado`, `entregado`, and the pending icon to every other state |
| `Logistica.IconMatchesTab` | src/renderer/src/components/Logistica.tsx:135-147 | approved-tab rows show the approved icon, delivered-tab rows the delivered icon, pending-tab rows the rejected or pending icon |
| `Logistica.DetailEntries` | src/renderer/src/components/Logistica.tsx:215-219 | the grid is an order-preserving selection of the snapshot's entries |
| `Logistica.DetailKeys` | src/renderer/src/components/Logistica.tsx:215-219 | the grid shows exactly the snapshot keys other than the four header fields |
| `Logistica.RequestFor` | src/renderer/src/components/Logistica.tsx:96-99 | the request carries the id and both fields trimmed; a non-blank deliverer is sent non-empty |
| `Logistica.DeliveredItemMatchesServerRow` | src/renderer/src/components/Logistica.tsx:104-110 | the row the client prepends is the row the server writes for the request it was sent |
| `Logistica.AfterDelivery` | src/renderer/src/components/Logistica.tsx:102-114 | the approved tab keeps exactly the rows with another id, in order, each with as many copies as it had |
| `Logistica.DeliveryMovesTheRow` | src/renderer/src/components/Logistica.tsx:102-113 | with unique ids, the delivered row goes to the front of the delivered tab as `Entregado` with the new date, and the total number of rows is kept |
| `Logistica.DeliveryOfUnknownIdChangesNothing` | src/renderer/src/components/Logistica.tsx:102-103 | an id not in the approved tab leaves both tabs unchanged |
| `Logistica.ApprovalListView.constructor` | src/renderer/src/components/Logistica.tsx:28-39 | empty tabs, nothing expanded, empty form, no error |
| `Logistica.ApprovalListView.Load` | src/renderer/src/components/Logistica.tsx:41-79 | a reply is split into the three tabs; a failed request sets the load error and keeps the tabs |
| `Logistica.ApprovalListView.ToggleExpand` | src/renderer/src/components/Logistica.tsx:81-83 | the expanded id becomes the toggle of the old one |
| `Logistica.ApprovalListView.EditDeliveryForm` | src/renderer/src/components/Logistica.tsx:127-133 | the form takes the typed values |
| `Logistica.ApprovalListView.HandleDelivery` | src/renderer/src/components/Logistica.tsx:85-125 | a blank deliverer changes nothing and sends nothing; otherwise the trimmed request is sent; on success the tabs become `AfterDelivery`, the form empties and nothing stays expanded; on failure only the error is set; the pending tab never changes |
| `Logistica.ApprovalListView.CompleteDelivery` | src/renderer/src/components/Logistica.tsx:101-118 | after a successful PATCH the tabs become `AfterDelivery` of the old tabs and form, the form empties, nothing stays expanded and no error is shown |
| `Expand.ToggleExpanded` | src/renderer/src/components/Logistica.tsx:81-83 | the result is the id iff it was not already open, and nothing iff it was |
| `Expand.ToggleTwiceRestores` | src/renderer/src/components/Logistica.tsx:81-83 | from nothing open or the same row open, two toggles restore the value |
| `Expand.ToggleTwiceFromOtherRowCloses` | src/renderer/src/components/Requisiciones.tsx:56-58 | from another row open, two toggles leave nothing open |
| `RequisicionesView.Endpoint` | src/renderer/src/components/Requisiciones.tsx:41-44 | the endpoint is the requisitions prefix followed by the tab's name, for `todas` as for the others |
| `RequisicionesView.EndpointReachesItsView` | src/renderer/src/components/Requisiciones.tsx:41-46 | every tab's endpoint is a server route, and that route serves the tab's rows |
| `RequisicionesView.Filtered` | src/renderer/src/components/Requisiciones.tsx:60-64 | exactly the rows whose lower-cased name, department or description includes the lower-cased term, as an order-preserving subsequence keeping every copy of a matching row |
| `RequisicionesView.MatchesIffOccurs` | src/renderer/src/components/Requisiciones.tsx:61-63 | a row matches iff the lower-cased term occurs at some position of one of the three lower-cased fields |
| `RequisicionesView.EmptyTermShowsAll` | src/renderer/src/components/Requisiciones.tsx:60-64 | an empty term keeps every row |
| `RequisicionesView.SearchIgnoresTermCase` | src/renderer/src/components/Requisiciones.tsx:60-64 | lower-casing the term first does not change the result |
| `RequisicionesView.BadgeClass` | src/renderer/src/components/Requisiciones.tsx:77-88 | no badge iff the tag is absent or not one of the three origin tags |
| `RequisicionesView.CombinedRowsGetTheirBadge` | src/renderer/src/components/Requisiciones.tsx:77-88 | a combined-list row with an origin's tag gets that origin's badge |
| `RequisicionesView.UntaggedRowsGetNoBadge` | src/renderer/src/components/Requisiciones.tsx:77-87 | an untagged row (a per-origin list) gets no badge |
| `RequisicionesView.RowEntries` | src/renderer/src/components/Requisiciones.tsx:216 | a row's entries are its five shared columns, then its extra columns, then the tag when present |
| `RequisicionesView.DetailKeys` | src/renderer/src/components/Requisiciones.tsx:216-217 | the grid lists exactly the keys other than the six fixed ones |
| `RequisicionesView.FixedAndTipoAreHidden` | src/renderer/src/components/Requisiciones.tsx:217 | the five columns and the tag are all among the hidden keys |
| `RequisicionesView.DetailsAreTheExtraColumns` | src/renderer/src/components/Requisiciones.tsx:216-217 | when no extra column has a hidden name, the grid is the extra columns in order |
| `RequisicionesView.RequisitionsPanel.constructor` | src/renderer/src/components/Requisiciones.tsx:26-31 | no rows, no error, tab `todas`, nothing expanded, empty search |
| `RequisicionesView.RequisitionsPanel.Shown` | src/renderer/src/components/Requisiciones.tsx:60 | the rows on screen are an order-preserving subsequence of the fetched rows |
| `RequisicionesView.RequisitionsPanel.FetchRequisiciones` | src/renderer/src/components/Requisiciones.tsx:37-54 | requests the active tab's endpoint; stores a reply, or sets the error and keeps the rows |
| `RequisicionesView.RequisitionsPanel.SelectTab` | src/renderer/src/components/Requisiciones.tsx:29 | the active tab becomes the chosen one |
| `RequisicionesView.RequisitionsPanel.Search` | src/renderer/src/components/Requisiciones.tsx:31 | the search term becomes the typed one |
| `RequisicionesView.RequisitionsPanel.ToggleExpand` | src/renderer/src/components/Requisiciones.tsx:56-58 | the expanded id becomes the toggle of the old one |
| `Soporte.MoveNode` | src/renderer/src/components/Soporte.tsx:217-219 | ids, count and order are kept; the node with the id gets the new position; nothing but positions changes, and only on that node |
| `Soporte.DragPersistsOnlyPosition` | src/renderer/src/components/Soporte.tsx:209-212 | the PUT a drag sends changes only the stored node's position and update stamp |
| `Soporte.ChildIsPlacedOffsetFromParent` | src/renderer/src/components/Soporte.tsx:230-235 | with unique ids, a child of a truthy parent lands at the parent's position plus (200, 100) |
| `Soporte.MissingParentCountsAsOrigin` | src/renderer/src/components/Soporte.tsx:231-234 | a truthy parent missing from the mirror is taken as (0, 0) |
| `Soporte.ZeroParentIsPlacedAsRoot` | src/renderer/src/components/Soporte.tsx:230-235 | a selected id of 0 is falsy and places the node like a root |
| `Soporte.DrawnEdges` | src/renderer/src/components/Soporte.tsx:333-348 | exactly the connections whose two ends exist are drawn, each dashed iff its type is not `child` |
| `Soporte.LinkedEdgesAreAllDrawn` | src/renderer/src/components/Soporte.tsx:333-337 | when every edge joins existing nodes, every edge is drawn |
| `Soporte.NoDrawnEdgeTouchesDeletedNode` | src/renderer/src/components/Soporte.tsx:266-269 | after a delete in the mirror, no drawn edge touches the deleted node |
| `Soporte.MindMapView.constructor` | src/renderer/src/components/Soporte.tsx:150-158 | the loaded lists, nothing selected, no error, the empty form |
| `Soporte.MindMapView.SelectNode` | src/renderer/src/components/Soporte.tsx:358 | clicking selects the node |
| `Soporte.MindMapView.EditForm` | src/renderer/src/components/Soporte.tsx:152-158 | the form takes the typed values |
| `Soporte.MindMapView.HandleNodeDrag` | src/renderer/src/components/Soporte.tsx:206-220 | the mirror moves the node; a mirrored node sends a PUT whose effect on the store is the update of its fields at the new position |
| `Soporte.MindMapView.HandleAddNode` | src/renderer/src/components/Soporte.tsx:222-261 | a blank title changes nothing; otherwise the node is created at its placement and appended on both sides; a root adds no edge; a truthy parent adds one `child` edge on both sides, or, when the store refuses it, sets the error and keeps the form; a complete add empties the form |
| `Soporte.MindMapView.AddChildEdge` | src/renderer/src/components/Soporte.tsx:241-248 | the edge is created and mirrored iff both ends are stored nodes; otherwise only the error is set |
| `Soporte.MindMapView.HandleDeleteNode` | src/renderer/src/components/Soporte.tsx:263-274 | store and mirror both lose the node and every edge touching it, keeping the rest in order |
| `Usuarios.Edited` | src/renderer/src/components/Usuarios.tsx:36-40 | editing keeps the number of users |
| `Usuarios.EditChangesOnlyThatUser` | src/renderer/src/components/Usuarios.tsx:34-41 | ids, count and order are kept; users with the edited id take the form's name and email, the others are unchanged |
| `Usuarios.Deleted` | src/renderer/src/components/Usuarios.tsx:61 | exactly the users with another id remain, in order, each with as many copies as it had |
| `Usuarios.DeleteRemovesOne` | src/renderer/src/components/Usuarios.tsx:59-63 | with unique ids, deleting a listed id removes exactly one user |
| `Usuarios.DeleteUnknownIdKeepsAll` | src/renderer/src/components/Usuarios.tsx:61 | deleting an unknown id keeps the list |
| `Usuarios.UsersView.constructor` | src/renderer/src/components/Usuarios.tsx:11-19 | the one sample user, not editing, empty form |
| `Usuarios.UsersView.ChangeForm` | src/renderer/src/components/Usuarios.tsx:22-25 | the form takes the typed values |
| `Usuarios.UsersView.HandleFormSubmit` | src/renderer/src/components/Usuarios.tsx:27-52 | an incomplete form changes nothing; in edit mode the list becomes `Edited` and edit mode ends; otherwise one user with id `now` and the form's fields is appended; a valid submit empties the form |
| `Usuarios.UsersView.HandleEdit` | src/renderer/src/components/Usuarios.tsx:54-57 | edit mode on the user, its name and email in the form |
| `Usuarios.UsersView.HandleDelete` | src/renderer/src/components/Usuarios.tsx:59-63 | a confirmed delete leaves `Deleted`, an unconfirmed one changes nothing |
| `Usuarios.UsersView.CancelEdit` | src/renderer/src/components/Usuarios.tsx:65-68 | edit mode ends and the form empties |
| `Text.Lower` | src/renderer/src/components/Logistica.tsx:50 | lower-casing keeps the length and lower-cases each character |
| `Text.LowerIsIdempotent` | src/renderer/src/components/Requisiciones.tsx:61 | lower-casing twice equals lower-casing once |
| `Text.Trim` | src/renderer/src/components/Logistica.tsx:97-98 | the result is a slice of the input with only whitespace cut on both sides, and it neither starts nor ends with whitespace |
| `Text.BlankIffAllWhitespace` | src/renderer/src/components/Logistica.tsx:86 | a string trims to empty iff all its characters are whitespace |
| `Text.ContainsIffOccurs` | src/renderer/src/components/Requisiciones.tsx:61-63 | `includes` holds iff the substring occurs at some position |
| `Text.ContainsEmpty` | src/renderer/src/components/Requisiciones.tsx:60-64 | every string includes the empty string |
| `Records.Visible` | src/renderer/src/components/Logistica.tsx:215-219 | exactly the entries whose key is not hidden, as an order-preserving subsequence keeping every copy |
| `Records.VisibleKeys` | src/renderer/src/components/Requisiciones.tsx:216-217 | the visible keys are exactly the object's keys that are not hidden |
| `Records.VisibleKeepsUnhidden` | src/renderer/src/components/Requisiciones.tsx:216-217 | when no key is hidden the entries are shown as they are |
| `Seqs.FilterIsSubsequence` | src/renderer/src/components/Requisiciones.tsx:60 | a filter's result is an order-preserving subsequence of its input |
| `Seqs.FilterOutUniqueKey` | src/renderer/src/components/Usuarios.tsx:61 | with unique keys, filtering out one key removes exactly one element when the key is present |
| `Seqs.SubsequenceKeepsUniqueKeys` | src/backend/server.ts:280 | dropping rows keeps primary keys unique |

## Left out

- `Requisitions.Route`: it is given the URL's pathname, so the query string, which Express strips before routing, is not modelled. Only Express's default matching of these four literal paths is modelled, not its general path patterns.
- `RequisicionesView.RowEntries`: the five shared columns are placed before a table's own columns. That order is an assumption, because the table definitions are not part of this model. The details grid drops those five columns wherever they stand.
- Network, HTTP and database plumbing: Express middleware and error handling, the `pg` pool, `axios`/`fetch`, status codes other than those named above, and logging. Each request is a direct call or an `Option` reply.
- Storage failures (500 replies) of the writing handlers and of the reads other than the connections list. A refused connection insert is modelled because it follows from the foreign keys.
- Concurrency: the `Promise.all` fan-outs run as sequential reads, and fire-and-forget persistence on drag is a call whose reply is ignored.
- Date parsing and locale formatting: timestamps are integers.
- `Ledger.RetentionCutoff`: `INTERVAL '60 days'` is taken as 60 × 86400 seconds, so calendar effects of daylight saving are not modelled.
- `Requisitions.ByOrigin` and `Ledger.ActiveLedger`: SQL `ORDER BY` leaves the order of ties unspecified, so these promise sorted order and the right rows as a multiset, not one order.
- `Text.Lower`: `toLowerCase` is modelled on the Basic Latin and Latin-1 capital letters only. Other scripts are kept unchanged.
- Floating-point geometry: `calculatePath` and the `0.3` curve factors are not modelled. Positions are integers, and the window centre is a parameter.
- `Soporte.MindMapView.HandleNodeDrag`: when the node is not in the mirror, the source still sends a PUT whose body holds only the position. The other columns are then written as NULL. The model sends nothing in that case.
- `Soporte.MindMapView.HandleAddNode`: a failure of the node POST itself is not modelled; only the refused edge is.
- `Soporte.MindMapView.HandleDeleteNode`: the delete request's failure branch (`Error al eliminar nodo`) is not modelled.
- The data load of the mind-map component (`fetchData`) is not modelled: the view starts from loaded lists, and the error text of a failed load is an exception message.
- Transient UI flags are not modelled: `loading`, `isLoading`, `isSubmitting`, the `alert` and `confirm` dialogs (the confirmation is a parameter), tab switching in the logistics screen, and all styling, animation and gestures.
- Rendering details of the mind-map component are not modelled. These include the `setLoading` calls made during render, the `isLoading` flag that is never cleared (it stops the component at its loading text), and the nodes drawn twice. The model describes the handlers as they are written.
- Password hashing is not modelled: `bcrypt.compare` is the parameter `matches`.
- The logout endpoint (`POST /api/logout`) is not modelled: it only answers a fixed message.
- These components and files are not part of this model:
  - `Login.tsx`, `Logout.tsx`, `SuperMenu.tsx`, `InicioView.tsx`, `App.tsx`, `ProtectedRoute.tsx` and `ErrorBoundary.tsx`: navigation, routing and session glue.
  - `Mejoras.tsx` (an external API fetch).
  - `global.d.ts` and `GlobalStyle.tsx`.

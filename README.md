# Argus B2B platform — a verified model of its core

Argus is a Django platform where buyers and suppliers meet. Suppliers list products and buyers search them. The two sides talk in chat threads, and a home feed with a watchlist and market rates ties it together. This project models the platform's own logic in Dafny and proves what that logic promises:

- **Chat.** The three chat tables and `ChatService` are modelled: idempotent thread creation with its two zeroed participant rows, sending, marking read, unread totals, and newest-first message pages returned oldest-first. So are the REST endpoints' role resolution and 404 rules, the websocket authentication middleware, and both websocket consumers as state machines over group memberships.
- **Catalogue.** Covered here are stock-status classification, the product request validators, and the owner's listing with its whitelisted sort and offset pages. So are partial updates with photo operations, the bulk price and stock updates with per-item results, and the public search with its four-level match rank.
- **Home.** Covered here are the search history with its dedupe window and the recent-unique scan, the home feed's filters, order, preview and page metadata, and the watchlist's pages and idempotent add. So are the market indicators' parsing and their two-slot cache with fallback.
- **Users.** Covered here are the account manager's checks, the registration validators, the ordered registration checks, idempotent profile creation, and all-or-nothing registration. So are the profile edits (trim, limit, save only if something changed), login by email or username, logout and refresh, and the image checks with the WebP quality step-down.
- **Resilience and errors.** Covered here are the AI circuit breaker, the chat engine's choice between a fresh, cached or fallback answer, the per-identifier rate limiter, keyword clean-up, and the API's error formatting.

Some inputs are parameters. The clock is an integer `now`. Other inputs are the outcomes of foreign code: the AI provider's reply, the JWT library's decoding, the authentication backend's answer, the image encoder's output size at each quality, and the currency provider's payload. The database tables and the shared cache are sequences and maps inside classes. Their methods change them in place. Each method's contract gives the new contents of every table and field it may change, and pure functions specify what each operation computes.

## Model

| member | source | states |
|---|---|---|
| ChatModels.OtherParticipant | backend/chat/models.py:70-74 | the supplier for the buyer and the buyer for anyone else, so always one of the two parties |
| ChatModels.OtherParticipantInvolution | backend/chat/models.py:70-78 | for either party, the other of the other is that party, and the other of a party is a participant |
| ChatModels.MarkAsReadIdempotent | backend/chat/models.py:154-159 | reading resets the counter to 0 and stamps `last_read_at`; reading twice at one moment equals reading once |
| ChatService.ThreadById | backend/chat/services.py:81-91 | the thread with that id, or none when no thread has it |
| ChatService.FindThread | backend/chat/services.py:30-36 | the first thread matching buyer, supplier and product (or no product); none exactly when no thread has that key |
| ChatService.FindAfterCreate | backend/chat/services.py:36-53 | once a thread is added for a key that had none, looking the key up finds that thread |
| ChatService.UnreadTotal | backend/chat/services.py:173-181 | the sum of the user's counters, 0 when the user has no rows |
| ChatService.ThreadUnread | backend/chat/services.py:189-198 | the counter of the user's row in the thread, 0 when there is no row |
| ChatService.Bump | backend/chat/services.py:145-150 | the `F('unread_count') + 1` update: rows of (thread, user) go up by one, all other rows are unchanged, same length |
| ChatService.MarkRead | backend/chat/services.py:160-167 | rows of (thread, user) get counter 0 and `last_read_at` now, all other rows are unchanged |
| ChatService.BumpThreadUnread | backend/chat/services.py:145-150 | a send raises the recipient's counter for that thread by exactly 1 and no other (thread, user) counter |
| ChatService.BumpUnreadTotal | backend/chat/services.py:145-150 | a send raises the recipient's total by exactly 1 and leaves every other user's total unchanged |
| ChatService.MarkReadThreadUnread | backend/chat/services.py:160-167 | after a read, the reader's counter for the thread is 0 and every other counter is as before |
| ChatService.MarkReadUnreadTotal | backend/chat/services.py:160-181 | a read lowers the reader's total by exactly that thread's counter and nobody else's |
| ChatService.ThreadWithPermission | backend/chat/services.py:79-91 | a thread is returned only when it exists and the user is one of its parties |
| ChatService.PermissionIff | backend/chat/services.py:79-91 | with unique ids, access is granted exactly to the buyer and the supplier of an existing thread |
| ChatService.UserThreads | backend/chat/services.py:56-76 | exactly the threads where the user is buyer or supplier, each as often as it is stored (once per row), most recently updated first |
| ChatService.ThreadByIdTouchAny | backend/chat/services.py:141-143 | after a send, a lookup by id finds the same thread as before, with `updated_at` moved to now only for the thread written |
| ChatService.TouchKeepsCurrent | backend/chat/services.py:141-143 | a thread object that named a stored thread (same id, parties and product) still does after any send, whatever its cached `updated_at` |
| ChatService.CurrentRecipient | backend/chat/services.py:146-150 | for a current thread object and one of its parties, the party `send_message` credits is that object's other participant |
| ChatService.NewestFirst | backend/chat/services.py:110-114 | the thread's messages, each once, ordered by `created_at` descending |
| ChatService.GetMessages | backend/chat/services.py:94-121 | the page at offset `(page-1)*size` of the newest-first list, reversed to oldest first; `total` is the thread's message count; `has_more` iff `page*size < total` |
| ChatService.OlderPagesHoldOlderMessages | backend/chat/services.py:104-119 | every message on a later page is no newer than every message on an earlier page |
| ChatService.PagesShareNoMessage | backend/chat/services.py:104-119 | two different pages never show the same message |
| ChatService.LastMessage | backend/chat/services.py:184-186 | the newest message of the thread, none exactly when the thread has no messages |
| ChatService.Recipient | backend/chat/services.py:146 | the buyer when the sender is the supplier, else the supplier; equal to `get_other_participant` for the two parties |
| ChatService.ChatStore.GetOrCreateThread | backend/chat/services.py:19-53 | returns the existing thread for the key with `created` false and changes nothing, or adds one thread and two zeroed participant rows; same user on both sides is refused with the store unchanged (rolled back) |
| ChatService.ChatStore.SendMessage | backend/chat/services.py:125-152 | appends one message, sets the thread's `updated_at` to now and raises the recipient's row by one; the shape invariant is kept |
| ChatService.SendKeepsRows | backend/chat/services.py:136-150 | a send keeps the participant rows unique, each thread with a row per party and each row belonging to a party of its thread |
| ChatService.SendKeepsThreadRows | backend/chat/services.py:141-150 | after the timestamp update and the counter bump every thread still has a row for each of its parties |
| ChatService.SendKeepsRowOwners | backend/chat/services.py:141-150 | after the timestamp update and the counter bump every row still belongs to a party of an existing thread |
| ChatService.SendKeepsMessages | backend/chat/services.py:136-140 | the new message keeps message ids unique and every message in an existing thread |
| ChatService.ChatStore.MarkThreadAsRead | backend/chat/services.py:155-170 | zeroes the user's row for the thread and returns the user's new total |
| ChatService.CreatePreservesShape | backend/chat/models.py:54-64 | a new thread with two rows keeps the uniqueness constraints and the one-row-per-party shape |
| ChatService.CreateKeepsRows | backend/chat/services.py:41-51 | after a creation the participant rows stay unique, every thread has a row for each of its parties, and every row belongs to a party of its thread |
| ChatService.SendPreservesShape | backend/chat/services.py:134-150 | a send keeps every table constraint and the shape |
| ChatService.MarkReadPreservesShape | backend/chat/services.py:160-167 | a read keeps every table constraint and the shape |
| ChatService.RowsOfThread | backend/chat/services.py:47-51 | in a valid store each thread has exactly two rows, one for each party |
| ChatApi.ResolveParties | backend/chat/api_router.py:110-151 | each 404 branch, checked in the source's order, answers its own message: "Supplier not found", "User is not a supplier", "Cannot create chat with yourself", "Product not found", "Product does not belong to this supplier"; the request resolves exactly when every check passes, and then a buyer requester is the buyer and anyone else takes the supplier seat with the target as buyer, with the given product |
| ChatApi.ResolvedPartiesDiffer | backend/chat/api_router.py:121-144 | the two seats are always two different users, namely the requester and the target |
| ChatApi.ClampPageSize | backend/chat/api_router.py:175 | the page size is clamped into 1..100 and kept when already inside |
| ChatApi.ClampPage | backend/chat/api_router.py:176 | the page is at least 1 and kept when already at least 1 |
| ChatApi.MessagesEndpoint | backend/chat/api_router.py:161-204 | 404 exactly when the thread is missing or the user is no party; otherwise the service's page of that thread's messages for the clamped page and size (at most 100, oldest first), with the thread's total and `has_more` iff `page*size < total` |
| ChatApi.StrangerSeesMissingThread | backend/chat/api_router.py:179-181 | a thread the user is no party to gets the same answer as a thread that does not exist |
| ChatApi.BuildThreadOut | backend/chat/api_router.py:31-81 | the thread's own fields, the newest message of the thread and its time (none exactly when the thread has no message), and the requester's counter |
| ChatApi.GetThreads | backend/chat/api_router.py:85-98 | one summary per thread of the user, in `get_user_threads` order, with `total` its length |
| ChatApi.ThreadListOwnRecentFirst | backend/chat/api_router.py:85-98 | the list shows only threads where the user is a party, most recently updated first |
| ChatApi.CreateOrGetThread | backend/chat/api_router.py:102-153 | a 404 leaves the store unchanged; otherwise the summary of the one thread for the resolved parties; an existing thread leaves the store unchanged, a missing one is appended with a fresh id, both timestamps now and two zeroed participant rows, and messages never change |
| ChatApi.SendMessage | backend/chat/api_router.py:212-233 | 404 for a missing thread or a stranger with the store unchanged; otherwise the store's send |
| ChatApi.MarkThreadRead | backend/chat/api_router.py:241-259 | 404 and no change for a missing thread or a stranger; otherwise threads and messages stay, only the user's row is zeroed, and the new total is returned |
| ChatMiddleware.UserFromToken | backend/chat/middleware.py:13-33 | the active user the token's claim names; anonymous for a bad token, an absent or falsy claim, an unknown id or an inactive user |
| ChatMiddleware.TokenNamesTheUser | backend/chat/middleware.py:17-30 | with unique ids, a token naming an active user authenticates exactly that user |
| ChatMiddleware.ScopeUser | backend/chat/middleware.py:44-52 | the first `token` value decides; no token means anonymous |
| ChatMiddleware.OnlyFirstTokenCounts | backend/chat/middleware.py:48-50 | later `token` values never change the identity |
| ChatMiddleware.Authenticate | backend/chat/middleware.py:42-54 | the scope's user becomes `ScopeUser` of the query's tokens |
| ChatConsumers.ChannelLayer.GroupAdd | backend/chat/consumers.py:39-42 | the connection joins the group; no other group and no send changes |
| ChatConsumers.ChannelLayer.GroupDiscard | backend/chat/consumers.py:55-58 | the connection leaves the group; no other group and no send changes |
| ChatConsumers.ChannelLayer.GroupSend | backend/chat/consumers.py:171-177 | one (group, event) is appended to the send log; memberships are unchanged |
| ChatConsumers.Admitted | backend/chat/consumers.py:28-33 | a connection is admitted exactly when the scope holds an authenticated account, and then as that account |
| ChatConsumers.ThreadAction | backend/chat/consumers.py:150-163 | `send` with text non-empty after trimming sends the trimmed text; `read` re-reads; `ping` answers `pong`; anything else is ignored |
| ChatConsumers.BlankSendIgnored | backend/chat/consumers.py:154-157 | a `send` whose text is missing or only whitespace does nothing |
| ChatConsumers.NotificationAction | backend/chat/consumers.py:60-65 | only `ping` is answered, with `pong`; everything else is ignored |
| ChatConsumers.NotificationConsumer.Connect | backend/chat/consumers.py:27-51 | the scope's admitted user is kept; an anonymous or missing user is closed with 4001 and joins nothing; otherwise joins `user_<id>_notifications`, accepts and sends the user's unread total |
| ChatConsumers.NotificationConsumer.Disconnect | backend/chat/consumers.py:53-58 | leaves the user's group only if it was joined |
| ChatConsumers.NotificationConsumer.Receive | backend/chat/consumers.py:60-65 | a `ping` adds one `pong` frame; anything else sends nothing |
| ChatConsumers.NotificationConsumer.Deliver | backend/chat/consumers.py:72-85 | an unread-count event and a new-message event are each relayed to the client as one frame |
| ChatConsumers.Broadcast | backend/chat/consumers.py:165-198 | three sends in order: the message to the room, then the notification and the recipient's total to the recipient's group |
| ChatConsumers.ThreadConsumer.Connect | backend/chat/consumers.py:114-141 | 4001 for an anonymous user; 4003 for an id that is not a UUID, a missing thread or a non-party; otherwise joins `chat_thread_<id>`, accepts and marks the thread read, and is then in the room |
| ChatConsumers.ThreadConsumer.MarkAsRead | backend/chat/consumers.py:200-219 | for a consumer in the room, even one whose thread object is stale: threads and messages stay, the user's row is zeroed, `read_ack` carries the new total and the room gets a read receipt |
| ChatConsumers.ThreadConsumer.SaveMessage | backend/chat/consumers.py:246-255 | `send_message` on the consumer's own thread object, stale or not: the message is appended, the other party's counter raised, the object's `updated_at` becomes now, and the consumer stays in the room |
| ChatConsumers.ThreadConsumer.HandleSend | backend/chat/consumers.py:165-198 | for a consumer in the room, even one whose thread object is stale: the message is appended, the other party's counter raised, and the room gets the message, then that party's group the notification and its new total; the consumer stays in the room |
| ChatConsumers.ThreadConsumer.Receive | backend/chat/consumers.py:150-163 | dispatches on `ThreadAction`: ignored input changes nothing, `ping` adds only `pong`; `read` keeps threads and messages, zeroes the row, acknowledges and sends a read receipt; `send` appends the message, raises the other party's counter and makes the three group sends; the consumer stays in the room |
| ChatConsumers.ThreadConsumer.Disconnect | backend/chat/consumers.py:143-148 | leaves the room only if it was joined, so a rejected connection discards nothing |
| ChatConsumers.ThreadConsumer.Deliver | backend/chat/consumers.py:222-235 | a room message and a read receipt are each relayed to the client as one frame |
| ProductModels.LowStockThreshold | backend/products/models.py:22-24 | the low-stock threshold is the configured setting when there is one and the default of 10 otherwise |
| ProductModels.StockStatusOf | backend/products/models.py:124-138 | out of stock exactly when the stock is zero, low stock exactly when it is positive and below the threshold, in stock otherwise (each direction of each case) |
| ProductModels.StatusText | backend/products/models.py:15-19 | every stock status is rendered as one of the three stored strings `in_stock`, `low_stock`, `out_of_stock` |
| ProductModels.StatusFromText | backend/products/models.py:15-19 | a string parses to a status only if it is that status's rendering; any other string is rejected |
| ProductModels.StatusTextRoundTrip | backend/products/models.py:15-19 | rendering a status and parsing the text back yields the same status |
| ProductModels.InStockAtThreshold | backend/products/models.py:132-138 | with a positive threshold, a product is in stock exactly when its stock has reached the threshold (the boundary is inclusive) |
| ProductModels.Price | backend/products/models.py:119-122 | the `price` property is the stored unit price |
| ProductModels.SoftDelete | backend/products/models.py:140-143 | soft deletion clears the active flag and stamps the update time; every other field is unchanged |
| ProductModels.Activate | backend/products/models.py:145-148 | activation sets the active flag and stamps the update time; every other field is unchanged |
| ProductModels.Deactivate | backend/products/models.py:150-153 | deactivation clears the active flag and stamps the update time; every other field is unchanged |
| ProductModels.ActivateUndoesSoftDelete | backend/products/models.py:140-148 | activating a soft-deleted active product restores it except for its update time, and both operations keep the column limits |
| ProductModels.DeactivateIsSoftDelete | backend/products/models.py:140-153 | deactivation and soft deletion have the same effect, and soft deletion is idempotent |
| ProductSchemas.Cents | backend/products/schemas.py:129-135 | converting a price with at most two decimal places to cents keeps its sign |
| ProductSchemas.CentsScale | backend/products/schemas.py:129-135 | a trailing zero digit does not change the amount: `10c × 10^(e-1)` and `c × 10^e` are the same number of cents |
| ProductSchemas.RequiredText | backend/products/schemas.py:74-98 | a required name or category is accepted exactly when it is a non-blank string whose stripped form fits the column; the result is that stripped text; missing, null, blank and non-string inputs each give their own error |
| ProductSchemas.OptionalText | backend/products/schemas.py:149-173 | in an update, a missing or null name or category means "unchanged"; otherwise the same acceptance rule and error messages as on create |
| ProductSchemas.OptionalBounded | backend/products/schemas.py:144-145 | an absent number stays "unchanged"; a given one passes exactly when it meets its `ge` bound and is kept as given |
| ProductSchemas.OptionalPrice | backend/products/schemas.py:143 | an absent price stays "unchanged"; a given one passes exactly when non-negative with at most two decimals and becomes its cents |
| ProductSchemas.Description | backend/products/schemas.py:100-109 | a missing, null or blank description becomes none; a non-blank string is stored stripped and non-empty; any other value is passed through as its text |
| ProductSchemas.UpdateFeatures | backend/products/schemas.py:190-206 | features given as a dict are kept, a JSON string is decoded into a dict, undecodable JSON reports the decoder's message, and missing or null means "unchanged" |
| ProductSchemas.CreateFeatures | backend/products/schemas.py:111-127 | create accepts features under the same rule as update, and missing or null features become the empty dict |
| ProductSchemas.UnitPrice | backend/products/schemas.py:129-135 | a unit price is accepted exactly when it is non-negative with at most two decimal places, and is then stored as that many cents; a negative price fails `ge=0` |
| ProductSchemas.UnitPriceRoundTrip | backend/products/schemas.py:129-135 | any amount in cents written with two decimal places is accepted back as the same number of cents |
| ProductSchemas.UnitPriceAsWritten | backend/products/schemas.py:143 | the update schema as written accepts any non-negative decimal, unchanged, whatever its number of decimal places |
| ProductSchemas.ThreeDecimalPlacesSlipThrough | backend/products/schemas.py:143 | the price 1.005 passes the update rule as written but is rejected by the two-decimal rule of the create schema |
| ProductSchemas.Bounded | backend/products/schemas.py:63-72 | an integer field is accepted exactly when it is within its `ge`/`le` bounds, unchanged; below the minimum it fails with that minimum |
| ProductSchemas.ValidateCreate | backend/products/schemas.py:63-135 | a create request validates exactly when name and category are non-blank and fit, a price with at most two decimals is given, stock is non-negative, sell quantity is at least 1 and the features decode; the result holds the stripped texts, the price in cents, the decoded features (`{}` when absent) and the defaults (stock 0, sell quantity 1, active); a failure lists at least one error, each on a schema field |
| ProductSchemas.ValidateUpdate | backend/products/schemas.py:138-206 | an update validates exactly when every field that is given passes its create-time rule; fields left out stay "unchanged"; given name and category are the stripped texts and fit their columns, a given price is its cents, given stock and sell quantity are the given numbers, and the features are the decoded ones |
| ProductSchemas.ValidateListPaging | backend/products/schemas.py:337-338 | list paging is accepted exactly when page is at least 1 and page size is between 1 and 100, defaulting to page 1 of 20 |
| ProductSchemas.BlankDescriptionIsNotProvided | backend/products/schemas.py:100-109 | a blank description is treated the same as a null one |
| ProductService.FindProduct | backend/chat/api_router.py:126-130 | a lookup by id yields a row of the table with that id, and finds nothing only when no row has it |
| ProductService.OwnedProduct | backend/products/services.py:34-45 | the product is found exactly when the user owns a row with that id, and what is found is that row; otherwise the answer is none |
| ProductService.OwnedProductIgnoresOthers | backend/products/services.py:34-45 | other owners' rows never change what a user's lookup finds |
| ProductService.StatusFilterAgrees | backend/products/services.py:90-97 | with a positive threshold, the `stock_status` filter on the stock column keeps exactly the products whose computed `stock_status` is the requested one |
| ProductService.UnknownStatusFiltersNothing | backend/products/services.py:90-97 | a status text that names no stock status applies no filter |
| ProductService.SearchTerm | backend/products/services.py:81-87 | the search filter is applied exactly when the term is non-blank, and then with the trimmed, non-empty term |
| ProductService.SortOrder | backend/products/services.py:100-113 | a whitelisted sort key is honoured as given; any other key, or none, falls back to newest first |
| ProductService.SortOrderRoundTrip | backend/products/services.py:100-111 | every ordering is named by a whitelisted key and reading that key back gives the same ordering |
| ProductService.OrderingIsTotalPreorder | backend/products/services.py:100-113 | each sort order compares every pair of products and is transitive, so sorting by it is well defined |
| ProductService.Selected | backend/products/services.py:67-97 | the listing selects exactly the owner's products that pass every given filter (active flag, stock below, category, search term, stock status) |
| ProductService.Listing | backend/products/services.py:100-113 | the ordered listing is a permutation of the selected products, sorted by the requested order |
| ProductService.ListProducts | backend/products/services.py:48-124 | `total` counts the filtered rows before paging; the items are the page `[(page-1)·size, page·size)` of the sorted listing, at most `page_size` of them, each the owner's and matching the filters |
| ProductService.CriticalStock | backend/products/services.py:289-301 | the critical-stock query returns exactly the user's active products with stock below the threshold, lowest stock first |
| ProductService.ApplyUpdate | backend/products/services.py:188-222 | a partial update replaces exactly the fields that are provided, keeps every other field, and stamps the update time |
| ProductService.EmptyUpdateOnlyTouches | backend/products/services.py:188-222 | an update that provides no field changes nothing but the update time |
| ProductService.ValidatedUpdateKeepsBounds | backend/products/services.py:188-222 | applying an update that passed the update schema to a product with valid fields (lengths within the column limits, non-empty name and category, `sell_quantity` at least 1) keeps them valid |
| ProductService.ReplaceProduct | backend/products/services.py:222 | saving a product replaces the row with its id and leaves every other row as it was |
| ProductService.DeletePhotos | backend/products/services.py:225-229 | the listed photos of this product are deleted and no other photo is, whichever product it belongs to |
| ProductService.SetSortOrder | backend/products/services.py:231-236 | one reorder entry changes only the sort order of the photo with that id, and only if it belongs to this product; a negative order is written only where it matches no row |
| ProductService.Reorder | backend/products/services.py:231-236 | when no entry writes a negative order into one of this product's photos, reordering changes only sort orders, and only of this product's photos |
| ProductService.NewPhotos | backend/products/services.py:238-244 | each added photo becomes a new photo of this product with its own sort order and a fresh id |
| ProductService.PhotosOf | backend/products/models.py:185 | a product's photos are exactly its own, listed by sort order and then creation time |
| ProductService.ReorderKeepsIdsUnique | backend/products/services.py:231-236 | reordering keeps photo ids unique |
| ProductService.ReorderAddsNoPhoto | backend/products/services.py:231-236 | reordering creates no new photo: every id afterwards was there before |
| ProductService.SameSortOrderAfterReorder | backend/products/services.py:231-236 | two identical photo rows stay identical after reordering |
| ProductService.PhotosValidAfterUpdate | backend/products/services.py:225-244 | after deleting, reordering and adding photos, photo ids stay unique and below the next unused id |
| ProductService.SetField | backend/products/services.py:328-330 | a bulk item writes only its one field (price or stock) and the update time |
| ProductService.ApplyItem | backend/products/services.py:326-330 | a bulk item changes only the row with its id, and only when the user owns it |
| ProductService.ApplyItems | backend/products/services.py:319-353 | applying the items keeps every row's id and owner and the table's size |
| ProductService.LastValue | backend/products/services.py:319-353 | when several items name one product, the last one's value is the one left |
| ProductService.ApplyItemsRow | backend/products/services.py:319-353 | after a bulk update, each of the user's products holds the value of the last item naming it, and every other product is unchanged |
| ProductService.ApplyItemsKeepIdsUnique | backend/products/services.py:319-353 | a bulk update keeps product ids unique |
| ProductService.OwnsKept | backend/products/services.py:319-353 | a bulk update never changes who owns which product |
| ProductService.ApplyItemNotOwned | backend/products/services.py:335-341 | an item naming a product the user does not own changes nothing |
| ProductService.ResultFor | backend/products/services.py:326-348 | an item's result carries its id and succeeds exactly when the user owns that product; a failure carries "Product not found" |
| ProductService.BulkResults | backend/products/services.py:319-353 | the results have one entry per item, in the items' order |
| ProductService.Successes | backend/products/services.py:319-353 | the number of successes never exceeds the number of results |
| ProductService.ProductStore.BulkUpdate | backend/products/services.py:319-353 | the loop leaves the table equal to the items applied in order, one result per item, `updated` equal to the successes and `updated + failed` equal to the number of items; photos are untouched |
| ProductService.BulkLoop | backend/products/services.py:319-353 | the per-item loop, run on the table as it was: the table ends as the items applied in order, there is one result per item, `updated` counts the successes and `updated + failed` the items |
| ProductService.ProductStore.BulkUpdatePrices | backend/products/services.py:305-353 | the bulk price update is the bulk update on the price field |
| ProductService.ProductStore.BulkUpdateStock | backend/products/services.py:357-405 | the bulk stock update is the bulk update on the stock field |
| ProductService.ProductStore.UpdateProduct | backend/products/services.py:169-249 | the request fails, changing no product and no photo, exactly when a reorder entry writes a negative order into one of the photos left after the deletes (the `PositiveIntegerField` check at models.py:176 aborts the atomic transaction); otherwise the product row becomes the partial update of the old row and photos go through delete, then reorder, then add, in that order and only for this product |
| ProductService.ReorderPhotos | backend/products/services.py:231-236 | the reorder loop succeeds exactly when no pair writes a negative order into one of this product's photos, and then sets the sort orders the pairs give, in order, on this product's photos only |
| ProductService.AddPhotos | backend/products/services.py:238-244 | the add loop appends one photo of this product per upload, numbered consecutively from the first unused id |
| ProductService.ReorderSameId | backend/products/services.py:231-236 | when photo ids were unique, two photos with the same id after reordering are the same photo |
| ProductService.NewPhotosIds | backend/products/services.py:238-244 | the added photos have distinct ids, all from the first unused id up to it plus the number of uploads |
| PublicSearch.MatchStrength | backend/products/public_router.py:90-108 | an exact name match is a prefix match, and a prefix match is a substring match (case-insensitively) |
| PublicSearch.Rank | backend/products/public_router.py:90-108 | rank 0 exactly for an exact name match, 1 for a name prefix only, 2 for a name substring only, 3 when the name does not contain the query |
| PublicSearch.RankThreeIsCategoryOnly | backend/products/public_router.py:82-108 | a result of rank 3 matched through its category only |
| PublicSearch.SearchOrderIsTotalPreorder | backend/products/public_router.py:117 | the order (rank, name, newest update first) compares every pair and is transitive |
| PublicSearch.SearchLeTransitive | backend/products/public_router.py:117 | the search order is transitive |
| PublicSearch.Ordered | backend/products/public_router.py:73-118 | the ordered result is exactly the active products (of the seller, when given) whose name or category contains the query, as a permutation sorted by the search order |
| PublicSearch.SearchProducts | backend/products/public_router.py:68-136 | a query shorter than 2 characters after trimming is refused with 422, and only then; otherwise `total`, `pages` and the page of the ordered result are returned, every item a match |
| PublicSearch.SearchPagesDisjoint | backend/products/public_router.py:124-126 | two different pages of one search share no product |
| PublicSearch.EarlierPagesRankFirst | backend/products/public_router.py:124-126 | every product on an earlier page ranks no worse than every product on a later page |
| ProductService.AdmissiblePrefix | backend/products/services.py:231-236 | the entries before any point of an admissible reorder list are admissible too |
| ProductService.SameTargets | backend/products/services.py:231-236 | photos with the same ids and products position by position are matched by the same `filter(id=…, product=product)` |
| HomeFeed.CappedPageSize | backend/home/api_router.py:172-173 | the page size served never exceeds 20 nor the requested size, and is one of the two |
| HomeFeed.DropShortQuery | backend/home/api_router.py:175-177 | a query whose stripped form is one character long, or a non-empty all-blank query, is dropped; any other query is kept as given |
| HomeFeed.SearchTerm | backend/home/api_router.py:89-90 | the feed searches exactly when the stripped query has at least 2 characters, and then for that stripped text |
| HomeFeed.ShortQueryIgnored | backend/home/api_router.py:175-181 | after short queries are dropped, a query is recorded exactly when it is searched for, and dropping does not change what is searched |
| HomeFeed.CategoryFilter | backend/home/api_router.py:79-80 | the category filters the feed exactly when it is given and not empty |
| HomeFeed.StockPriority | backend/home/api_router.py:111-114 | the stock priority is 0 exactly for products in stock and 1 for the others |
| HomeFeed.FeedOrderIsTotalPreorder | backend/home/api_router.py:106-120 | the feed order (rank or stock priority, newest update first, then name) compares every pair and is transitive |
| HomeFeed.FeedProducts | backend/home/api_router.py:50-122 | the feed holds exactly the active products that pass the seller, category (ignoring case), in-stock and search filters, sorted by the feed order |
| HomeFeed.FeedOrderMeaning | backend/home/api_router.py:94-120 | down the feed the first key never decreases and ties list the most recently updated product first; without a query no out-of-stock product comes before one in stock, with one the search rank never decreases |
| HomeFeed.Preview | backend/home/api_router.py:226-230 | a description over 120 characters becomes its first 117 characters followed by "..."; a shorter one, or none, is kept |
| HomeFeed.PreviewIdempotent | backend/home/api_router.py:226-230 | a preview is at most 120 characters, so previewing it again changes nothing |
| HomeFeed.SellerDisplayName | backend/home/api_router.py:282-288 | a seller is shown by the supplier profile's company name when there is a non-empty one, by the username otherwise |
| HomeFeed.DisplayNameOf | backend/home/api_router.py:282-288 | a seller with a non-empty username never gets an empty display name |
| HomeFeed.CardOf | backend/home/api_router.py:223-249 | a card shows the product's id, its owner as the seller, its computed stock status, its description preview and exactly its own photos by sort order then creation time |
| HomeFeed.Cards | backend/home/api_router.py:221-249 | the items hold one card per product of the page, in page order |
| HomeFeed.BuildItems | backend/home/api_router.py:221-249 | the loop appending cards yields exactly the cards of the page |
| HomeFeed.FreshSection | backend/home/api_router.py:205-265 | a freshly computed section paginates the full feed (total, pages, next and previous) and holds the cards of the requested page, at most page-size many |
| HomeFeed.FreshSectionItems | backend/home/api_router.py:205-265 | card k of a fresh section shows product `offset + k` of the feed, which passes every filter |
| HomeFeed.BoolText | backend/home/api_router.py:44 | the flag's part is Python's `str()` of a boolean, "True" exactly when out-of-stock products are hidden, and holds no ':' |
| HomeFeed.SellerText | backend/home/api_router.py:43 | the seller part is empty exactly when no seller is given, and holds no ':' |
| HomeFeed.KeyParts | backend/home/api_router.py:37-45 | the key has seven parts, the fourth and fifth being the texts given for the search and the category |
| HomeFeed.JoinedKeyCollides | backend/home/api_router.py:34-47 | the key as written is the same for a search "ab:cd" in category "ef" and a search "ab" in category "cd:ef", while for an active product "ab:cd" in category "ef" the two requests compute different sections, so the cache serves one the other's section |
| HomeFeed.CollidingKeys | backend/home/api_router.py:34-47 | the two colliding requests join to the same key text, for every page, size, seller and flag |
| HomeFeed.CollidingRequestsDiffer | backend/home/api_router.py:50-122 | that product passes the first request's filters and not the second's, so the first feed holds one product and the second none |
| HomeFeed.FeedProductsOfOne | backend/home/api_router.py:50-122 | over a one-product table the feed holds that product exactly when it passes the filters |
| HomeFeed.JoinSameTail | backend/home/api_router.py:46 | part lists with the same head join to the same text when their tails do |
| HomeFeed.Escape | backend/home/api_router.py:41-42 | the escaped search or category text holds no ':' and is no shorter than the text |
| HomeFeed.EscapeInjective | backend/home/api_router.py:41-42 | different texts escape to different texts, so escaping loses nothing |
| HomeFeed.EscapedKeyInjective | backend/home/api_router.py:34-47 | equal escaped keys come from equal page, page size, `q or ""`, `category or ""`, seller and flag: the key tells every request shape apart |
| HomeFeed.SameKeySameSection | backend/home/api_router.py:34-47 | any two requests with the same escaped key compute the same section from the same tables, whatever their pages, sizes, texts, sellers and flags, so sharing a cache entry between them is sound |
| HomeFeed.KeyDeterminesFilters | backend/home/api_router.py:34-47 | equal `q or ""` parts give equal search terms and equal `category or ""` parts give equal category filters |
| HomeFeed.CacheGet | backend/home/api_router.py:199-203 | a cached section is served exactly while the clock is before the entry's expiry time |
| HomeFeed.CachedUntilTimeout | backend/home/api_router.py:268-269 | a stored section is served unchanged for 120 seconds and not after, whatever the tables do meanwhile, and other keys are not affected |
| HomeFeed.HomeFeedService.GetHomeFeed | backend/home/api_router.py:154-279 | the query is recorded only when non-blank after short queries are dropped, and the log's id counter moves only when an event is written; the recent searches are read after recording; the section comes from the cache entry under the escaped key on a hit, and otherwise is computed with the capped page size and stored for 120 seconds |
| SearchHistory.RecordOutcome | backend/home/models.py:63-80 | a search is recorded exactly when its stripped query is non-empty and the user has no event with the same query (ignoring case) since the window's start; the new event holds the stripped query, the user and the current time |
| SearchHistory.RepeatWithinWindowIsDropped | backend/home/models.py:68-78 | once a query is recorded, the same query in any case, repeated by the same user within the window, is not recorded again |
| SearchHistory.OtherUsersDoNotDedupe | backend/home/models.py:70-74 | another user's searches never suppress this user's non-blank query |
| SearchHistory.NewestFirstIsTotalPreorder | backend/home/models.py:97 | newest first compares every pair of events and is transitive |
| SearchHistory.Candidates | backend/home/models.py:97 | the scanned events are at most `limit * 2` of the user's own events, newest first |
| SearchHistory.Take | backend/home/models.py:102-103 | stopping after `limit` keeps the first `min(n, limit)` kept events |
| SearchHistory.FirstOccurrencesFrom | backend/home/models.py:96-103 | every event the scan keeps comes from the scanned list |
| SearchHistory.FirstOccurrencesCover | backend/home/models.py:96-103 | every lower-cased query of the scanned list is represented among the kept events |
| SearchHistory.FirstOccurrencesDistinct | backend/home/models.py:96-103 | no two kept events share a lower-cased query |
| SearchHistory.FirstOccurrencesAreFirst | backend/home/models.py:96-103 | each kept event is the first in the scanned list with its lower-cased query |
| SearchHistory.FirstOccurrencesSorted | backend/home/models.py:96-103 | keeping first occurrences of a newest-first list keeps it newest first |
| SearchHistory.FirstOccurrencesPrefix | backend/home/models.py:96-103 | the scan of a prefix is a prefix of the scan of the whole list, which justifies the early stop |
| SearchHistory.RecentBounded | backend/home/models.py:82-105 | at most `limit` events are returned, all the user's own and among the newest `limit * 2` |
| SearchHistory.RecentNewestFirst | backend/home/models.py:82-105 | the returned events are newest first |
| SearchHistory.RecentDistinctQueries | backend/home/models.py:82-105 | no two returned events share a lower-cased query |
| SearchHistory.RecentKeepsNewest | backend/home/models.py:82-105 | each returned event is the newest scanned one with its lower-cased query |
| SearchHistory.ScanStep | backend/home/models.py:98-101 | one step of the scan keeps the next event exactly when its lower-cased query has not been seen |
| SearchHistory.ScanStopsAtLimit | backend/home/models.py:102-103 | once `limit` events are kept, the rest of the list changes nothing that is returned |
| SearchHistory.SearchLog.RecordSearch | backend/home/models.py:50-80 | recording appends exactly the event the dedupe rule allows, with a fresh id, and otherwise leaves the table unchanged |
| SearchHistory.SearchLog.RecentForUser | backend/home/models.py:82-105 | the loop with its `seen_queries` set and early stop returns exactly the first `limit` distinct queries among the newest `limit * 2` events |
| Watchlist.FindEntry | backend/home/watchlist_router.py:176-177 | the lookup returns the user's entry for that product when there is one, and fails only when there is none |
| Watchlist.EntriesOf | backend/home/watchlist_router.py:110-115 | the listing holds exactly the user's own entries, newest first |
| Watchlist.ItemOutOf | backend/home/watchlist_router.py:42-95 | an item of the response carries the entry's id and time and the card of its product |
| Watchlist.ListWatchlist | backend/home/watchlist_router.py:98-138 | the page size is capped at 20; the response paginates all of the user's entries, and item k is entry k of the requested page (newest first) with its product's card |
| Watchlist.ListedAreOwnNewestFirst | backend/home/watchlist_router.py:110-126 | a listed page shows only the requesting user's entries, newest first |
| Watchlist.ProductIdsFor | backend/home/watchlist_router.py:239-245 | the ids returned are exactly the products the user has an entry for |
| Watchlist.AddOutcome | backend/home/watchlist_router.py:163-192 | a missing or inactive product answers 404 "Product not found or not available" and only then; an existing entry answers 200 with that entry; otherwise a new entry is created and answered with 201 |
| Watchlist.FindEntryAppend | backend/home/watchlist_router.py:176-177 | appending an entry for a pair that had none makes it that pair's entry |
| Watchlist.AddIsIdempotent | backend/home/watchlist_router.py:176-192 | adding a product a second time answers 200 with the entry the first call made |
| Watchlist.AddKeepsItemsValid | backend/home/watchlist_router.py:176-177 | adding keeps ids unique and keeps one entry per (user, product) |
| Watchlist.WatchlistStore.Add | backend/home/watchlist_router.py:163-192 | the table grows by the new entry exactly when the answer is 201, and is unchanged otherwise |
| Watchlist.WatchlistStore.Remove | backend/home/watchlist_router.py:213-222 | removal answers 404 "Product not in watchlist" exactly when the user has no entry for the product; otherwise it deletes that entry and nothing else; afterwards there is no such entry |
| Market.RawRate | backend/home/market_router.py:156 | the rate falls through `rate`, then `value`, then `buying`: a falsy result can only be `buying`'s, and no rate at all means `buying` is absent |
| Market.QuoteOf | backend/home/market_router.py:151-172 | an entry contributes a quote exactly when it is a dict with a non-empty code and a rate, its upper-cased code is a target currency and `float()` accepts the rate; the caption is the entry's name when truthy, else the code |
| Market.QuoteMapKeys | backend/home/market_router.py:151-172 | a currency is in the map exactly when some entry contributes a quote for it |
| Market.QuoteMapLastWins | backend/home/market_router.py:165-170 | when several entries give one currency, the last one's quote is kept |
| Market.WithUsd | backend/home/market_router.py:174-176 | USD is always in the map: an entry's USD quote is kept, and without one USD is added at 1.0 with every other quote unchanged |
| Market.ItemsFor | backend/home/market_router.py:178-185 | every item is a listed symbol the map has, shown with that map entry's caption and value |
| Market.ItemsForSymbols | backend/home/market_router.py:178-185 | the items' symbols are exactly the listed symbols the map has, in the list's order |
| Market.ParsedSymbols | backend/home/market_router.py:111-193 | the parsed items are the target currencies present, in target order, each at most once, and always include USD |
| Market.UsdDefault | backend/home/market_router.py:174-176 | with no usable USD entry, USD is listed at 1.0 under its own code |
| Market.UsdFromEntry | backend/home/market_router.py:165-176 | the last usable USD entry gives USD's listed quote |
| Market.EntryQuote | backend/home/market_router.py:147-172 | one pass of the entry loop yields exactly the entry's quote |
| Market.ParseResponse | backend/home/market_router.py:111-193 | the two loops produce exactly the parsed indicators |
| Market.FillCurrencyMap | backend/home/market_router.py:153-178 | the first loop builds exactly the currency map, in which each usable entry of a target currency sets its code and a later one overwrites an earlier one |
| Market.BuildItems | backend/home/market_router.py:184-192 | the second loop builds exactly the items of the target currencies the map has, in the target list's order |
| Market.Live | backend/home/market_router.py:265-266 | a cached value is visible exactly while the clock is before its expiry time |
| Market.IndicatorsOutcome | backend/home/market_router.py:257-301 | a good fetch is answered and stored as the latest value for 420 seconds (`MARKET_CACHE_TIMEOUT`), a live latest value moving to the previous slot for 840, twice that; a failed fetch changes no slot and is answered from the live latest value, or with the fetch's error when there is none |
| Market.RotationKeepsLastTwo | backend/home/market_router.py:277-284 | after two good fetches within the timeout, the first result is the previous value and the second the latest, and a failure soon after is answered with the second |
| Market.NoCacheFailureFails | backend/home/market_router.py:288-294 | with nothing cached, a failed fetch is answered with its error |
| Market.MarketCache.GetIndicators | backend/home/market_router.py:257-301 | the request leaves the two cache slots and its answer as the outcome function states |
| UserModels.FindUser | backend/users/models.py:43-77 | a lookup by id returns the user with that id, and fails only when no user has it |
| UserModels.FindProfile | backend/users/models.py:145-229 | a lookup returns the user's profile of the given kind, and fails only when the user has none of that kind |
| UserModels.NormalizeEmail | backend/users/models.py:22 | an address with '@' is stripped and its domain part after the last '@' lower-cased, the local part kept; an address without '@' is kept as given |
| UserModels.CreateUserOutcome | backend/users/models.py:15-26 | an empty email, then an empty username, raise their `ValueError`; a taken email or username fails the uniqueness constraint; otherwise the new user gets the fresh id, the normalised email, the username and the model defaults (buyer, active, neither staff nor superuser) |
| UserModels.SuperuserDefaults | backend/users/models.py:30-33 | each flag the caller gives is kept; each one left out defaults to staff, superuser, active and supplier |
| UserModels.CreateSuperuserOutcome | backend/users/models.py:28-40 | an explicit `is_staff` false, then an explicit `is_superuser` false, raise their `ValueError`; a created superuser is always staff and superuser |
| UserModels.SuperuserWithoutExtras | backend/users/models.py:28-40 | a superuser created without extra fields is staff, superuser, active and a supplier |
| UserModels.CreateKeepsUsersValid | backend/users/models.py:15-26 | creating a user keeps ids, emails and usernames unique and ids below the id source |
| UserModels.FindUserExtend | backend/users/models.py:15-26 | adding a user never changes which user an existing id names |
| UserModels.UserStore.CreateUser | backend/users/models.py:15-26 | the table grows by exactly the new user on success and is unchanged on failure; profiles are untouched |
| UserModels.UserStore.CreateSuperuser | backend/users/models.py:28-40 | the table grows by exactly the new superuser on success and is unchanged on failure |
| UserSchemas.WordRun | backend/users/schemas.py:47 | the leading run of `[\w-]` characters: everything before it is a username character and the character after it is not |
| UserSchemas.UsernamePatternAsWrittenIff | backend/users/schemas.py:47 | the pattern as written accepts a non-empty run of `[\w-]` characters, and also such a run followed by one newline |
| UserSchemas.UsernamePattern | backend/users/schemas.py:47 | the intended pattern accepts exactly the non-empty strings of `[\w-]` characters |
| UserSchemas.UsernameLengthError | backend/users/schemas.py:41-44 | the length checks pass exactly for usernames of 3 to 150 characters |
| UserSchemas.ValidateUsernameAsWritten | backend/users/schemas.py:40-49 | the validator as written accepts exactly the usernames of the right length that the as-written pattern accepts, unchanged |
| UserSchemas.TrailingNewlineSlipsThrough | backend/users/schemas.py:47 | "abc\n" passes the validator as written but not the intended rule |
| UserSchemas.ValidateUsername | backend/users/schemas.py:40-49 | a username is accepted, unchanged, exactly when it has 3 to 150 characters all in `[\w-]`; too short, too long and bad characters each give their message |
| UserSchemas.CorrectedIsStricter | backend/users/schemas.py:40-49 | every username the intended rule accepts is accepted by the rule as written, with the same result |
| UserSchemas.ValidateUserType | backend/users/schemas.py:52-56 | the user type is accepted exactly when it is omitted (default buyer) or given as "buyer" or "supplier" |
| UserSchemas.ValidateCompanyName | backend/users/schemas.py:59-67 | an omitted or null company name stays none; a given one is accepted, stripped, exactly when its stripped length is 2 to 255, with the short and long messages otherwise |
| UserSchemas.CompanyNameStable | backend/users/schemas.py:59-67 | validating an accepted company name again gives the same result |
| UserSchemas.ParseRegisterInput | backend/users/schemas.py:21-67 | a registration body is accepted exactly when username, user type and company name all pass, keeping the other fields; otherwise every failing field's message is reported, in field order |
| UserServices.ErrorText | backend/users/services.py:28-54 | each registration error carries its own message: the two "already exists" texts, the password messages joined by "; ", and the "User creation failed: " prefix |
| UserServices.ValidateRegistration | backend/users/services.py:73-94 | registration passes exactly when the password has no problems and neither the lower-cased email nor the username is taken; failures are reported password first, then email, then username |
| UserServices.EffectiveCompanyName | backend/users/services.py:120-121 | the profile's company name is the given one when non-empty, the username otherwise |
| UserServices.KindOf | backend/users/services.py:123-148 | "supplier" selects a supplier profile, "buyer" a buyer profile, and any other type none |
| UserServices.CreateProfileOutcome | backend/users/services.py:97-154 | an unknown user type fails; an existing profile of the kind is returned unchanged; otherwise a new profile with the effective company name is added |
| UserServices.CreateProfileIdempotent | backend/users/services.py:123-145 | creating the profile a second time returns the same profile and changes nothing |
| UserServices.FindProfileAppend | backend/users/services.py:123-145 | adding a profile for a pair that had none makes it that pair's profile |
| UserServices.CreateProfileKeepsOnePerUser | backend/users/services.py:97-154 | profile creation keeps at most one profile of each kind per user, each for an existing user |
| UserServices.GetUserProfile | backend/users/services.py:215-229 | a user's profile is the one of the kind their type names; an unknown type, or no such profile, gives none |
| UserServices.RegistrationOutcome | backend/users/services.py:157-212 | a failed check is reported as it is; on success the user is created with the lower-cased email and the given type, together with a new profile of the matching kind and the effective company name; an unknown type fails |
| UserServices.FreshUserHasNoProfile | backend/users/services.py:157-212 | a user id not yet handed out has no profile |
| UserServices.RegisteredUserHasProfile | backend/users/services.py:157-212 | after registration the new user's profile lookup finds the new profile, with the effective company name |
| UserServices.RegisteredEmailIsLowercase | backend/users/services.py:175-185 | a registered user's email is the lower-cased address given |
| UserServices.LowerIdempotent | backend/users/services.py:175-185 | lower-casing twice is lower-casing once |
| UserServices.NormalizeKeepsLowercase | backend/users/services.py:175-185 | normalising an already lower-case, stripped address changes nothing |
| UserServices.RegistrationKeepsValid | backend/users/services.py:157-212 | registration keeps users unique and profiles one per kind and user, and its profile step is the profile creation |
| UserServices.CreateUserWithProfile | backend/users/services.py:157-212 | the user and the profile are both added on success and neither on failure (the transaction's all-or-nothing) |
| ProfileRouter.Set | backend/users/profile_router.py:86-104 | setting a field changes exactly that field |
| ProfileRouter.Cleaned | backend/users/profile_router.py:89-92 | a given value is stored stripped, and a blank one is stored as none |
| ProfileRouter.FieldStep | backend/users/profile_router.py:86-104 | a field that is not given changes nothing; a given one over its limit fails with 400 and the field's message; otherwise it is stored cleaned and the profile marked for saving |
| ProfileRouter.LogoOutcome | backend/users/profile_router.py:106-119 | an upload that fails validation answers 400 with the validator's message; a stored logo is the WebP name under the kind's folder |
| ProfileRouter.LogoStep | backend/users/profile_router.py:106-119 | an earlier failure or no upload leaves the progress alone; a failed logo answers its error; a good one is stored and marks the profile for saving |
| ProfileRouter.OwnProfile | backend/users/profile_router.py:76-82 | a user of the other type gets 403, a user without the profile 404, and otherwise their own profile of that kind |
| ProfileRouter.GetBuyerProfile | backend/users/profile_router.py:33-49 | the buyer profile is returned exactly for a buyer who has one; 403 for a non-buyer, 404 otherwise |
| ProfileRouter.GetSupplierProfile | backend/users/profile_router.py:132-148 | the supplier profile is returned exactly for a supplier who has one; 403 for a non-supplier, 404 otherwise |
| ProfileRouter.ApplyEditsTouchesOnlyGiven | backend/users/profile_router.py:86-104 | a run of field edits leaves every field that is not given unchanged, and marks the profile for saving exactly when something was given |
| ProfileRouter.ApplyEditsErrStays | backend/users/profile_router.py:86-104 | after a 400 no later field is looked at |
| ProfileRouter.ApplyEditsStoresCleaned | backend/users/profile_router.py:86-104 | a given field that is not given again later ends up holding its cleaned value, within its limit |
| ProfileRouter.BuyerUpdateStoresGiven | backend/users/profile_router.py:57-124 | a buyer update stores each given phone and payment method cleaned and keeps the ones not given |
| ProfileRouter.BuyerUpdateKeepsRest | backend/users/profile_router.py:57-124 | a buyer update never touches the supplier-only fields, the logo or the company name, and saves exactly when a field was given |
| ProfileRouter.CleanedIsStable | backend/users/profile_router.py:89-92 | cleaning a cleaned value changes nothing |
| ProfileRouter.SaveProfile | backend/users/profile_router.py:121-122 | saving replaces the profile with the same user and kind and leaves the others |
| ProfileRouter.SaveProfileKeepsValid | backend/users/profile_router.py:121-122 | saving a profile keeps profiles one per kind and user, and the saved one is found afterwards |
| ProfileRouter.FindProfileAfterSave | backend/users/profile_router.py:121-122 | after saving, the lookup finds the saved profile |
| ProfileRouter.ApplyLogo | backend/users/profile_router.py:106-119 | the logo block sets the logo to the stored name on success and answers the error otherwise |
| ProfileRouter.FieldBlock | backend/users/profile_router.py:86-92 | one field block of the handler behaves as the field step |
| ProfileRouter.LogoBlock | backend/users/profile_router.py:106-119 | the logo block of the handler behaves as the logo step |
| ProfileRouter.EditBuyerProfile | backend/users/profile_router.py:84-119 | the buyer handler's blocks run phone, payment method, then logo, stopping at the first failure |
| ProfileRouter.ApplyEditsCons | backend/users/profile_router.py:86-104 | a run of edits is its first edit followed by the rest |
| ProfileRouter.EditSupplierProfile | backend/users/profile_router.py:191-258 | the supplier handler's blocks run phone, website, description, location, return policy, payment method, then logo, stopping at the first failure |
| ProfileRouter.SupplierTermsBlocks | backend/users/profile_router.py:217-240 | the location, return-policy and payment-method blocks run in that order |
| ProfileRouter.UpdateBuyerProfile | backend/users/profile_router.py:57-124 | the handler answers as the buyer update outcome and saves the profile only when something changed; users are untouched |
| ProfileRouter.UpdateSupplierProfile | backend/users/profile_router.py:156-263 | the handler answers as the supplier update outcome and saves the profile only when something changed; users are untouched |
| ProfileRouter.SaveEdited | backend/users/profile_router.py:121-124 | a failed edit is answered with its error and saves nothing; a successful one returns the edited profile and saves it only when some field was given; the store stays valid and users are untouched |
| ProfileRouter.EditKeepsIdentity | backend/users/profile_router.py:84-124 | an edit never changes the profile's user, kind or company name |
| AuthRouter.RegistrationErrorResponse | backend/users/auth_router.py:97-109 | every registration failure answers 400: a creation failure with the generic profile message, the others with their own message |
| AuthRouter.RegisterOutcome | backend/users/auth_router.py:52-109 | mismatched passwords answer 400 "Passwords do not match" before anything else; otherwise registration's failure is answered with 400 and its success with the new user |
| AuthRouter.Register | backend/users/auth_router.py:52-109 | only when passwords match and registration succeeds are the tables written: the returned user and its new profile are appended and the id counter moves by one; every refusal writes nothing |
| AuthRouter.UserByEmail | backend/users/auth_router.py:129-134 | the lookup by email finds the user with that email, and fails only when none has it |
| AuthRouter.UserByUsername | backend/users/auth_router.py:137-143 | the lookup by username finds the user with that username, and fails only when none has it |
| AuthRouter.LoginResolve | backend/users/auth_router.py:125-150 | an identifier with '@' is first tried as a lower-cased email, then as a username; login succeeds exactly for an active resolved user; 401 "User account is disabled" exactly when the resolved user is inactive, and 401 "Invalid credentials" exactly when no user is resolved |
| AuthRouter.Login | backend/users/auth_router.py:113-160 | the handler, with its reassigned `user` variable, answers exactly as the login outcome |
| AuthRouter.LoginIgnoresSurroundingSpace | backend/users/auth_router.py:123 | whitespace around the identifier never changes the answer |
| AuthRouter.LoginFindsTheAccount | backend/users/auth_router.py:125-150 | with unique emails and usernames, the account named by the identifier logs in when its password checks and it is active |
| AuthRouter.TokenBlacklist.Logout | backend/users/auth_router.py:163-178 | an accepted refresh token is blacklisted and logout answers its message; any other token answers 400 and blacklists nothing |
| AuthRouter.TokenBlacklist.Refresh | backend/users/auth_router.py:182-194 | an accepted refresh token yields its access token; any other answers 401 |
| AuthRouter.LogoutRevokes | backend/users/auth_router.py:163-194 | after a logout, the same refresh token neither refreshes (401) nor logs out again (400) |
| ImageUtils.MbText | backend/users/image_utils.py:122 | the size in the message is written with a decimal point |
| ImageUtils.MbTextDefault | backend/users/image_utils.py:122 | the default limit of 5 MiB is written "5.0" |
| ImageUtils.ValidateImageFile | backend/users/image_utils.py:99-124 | a file is valid exactly when its content type is allowed and its size is at most twice the limit; the type is checked first and each failure has its message |
| ImageUtils.CompressFirstFit | backend/users/image_utils.py:52-66 | the quality loop stops at the first quality, stepping down by 10 and never below 50, whose output fits; every quality tried before did not fit |
| ImageUtils.SplitExtRoot | backend/users/image_utils.py:76 | the root of a name is a prefix of it, and a name without '.' is its own root |
| ImageUtils.WebpName | backend/users/image_utils.py:75-77 | the converted file's name is the upload's root followed by ".webp" |
| ImageUtils.WebpNameDropsExtension | backend/users/image_utils.py:75-77 | "photo.png" becomes "photo.webp": the extension after the last dot is replaced |
| ImageUtils.WebpNameIgnoresDirectoryDot | backend/users/image_utils.py:75-77 | "dir.v2/logo" becomes "dir.v2/logo.webp": a dot in a directory name is not an extension |
| ImageUtils.WebpNameKeepsLeadingDot | backend/users/image_utils.py:75-77 | ".hidden" becomes ".hidden.webp": a leading dot is not an extension |
| ImageUtils.ConvertOutcome | backend/users/image_utils.py:17-96 | an undecodable image fails with the decoder's message; a converted file fits the limit and has the WebP name; no fitting quality fails with the "Unable to compress" message, behind the same prefix |
| ImageUtils.ConvertSucceedsIffSomeQualityFits | backend/users/image_utils.py:52-70 | from a quality of at least 50, conversion succeeds exactly when some quality on the way down to 50 fits, and then the output is the one at the first such quality |
| ImageUtils.ConvertToWebp | backend/users/image_utils.py:17-96 | the loop that writes, measures and steps the quality down yields exactly the conversion outcome |
| AiServices.AfterFailure | backend/ai/services.py:58-62 | a failure raises the live failure count by one (its entry kept for five times the open period); reaching the threshold opens the breaker for the open period, below it the open-until entry is untouched |
| AiServices.FailuresAccumulate | backend/ai/services.py:58-62 | failures that come close enough together, from a closed breaker, are all counted |
| AiServices.ThresholdFailuresOpen | backend/ai/services.py:50-62 | after `threshold` failures close together, from a closed breaker, the breaker is open for the open period after the last one |
| AiServices.FewerFailuresStayClosed | backend/ai/services.py:58-62 | fewer failures than the threshold never open the breaker |
| AiServices.FailuresBounded | backend/ai/services.py:58-62 | the failure count never exceeds the number of failures |
| AiServices.CircuitBreaker.IsOpen | backend/ai/services.py:50-52 | the breaker is open exactly while the clock is before its open-until time |
| AiServices.CircuitBreaker.OnSuccess | backend/ai/services.py:54-56 | a success deletes both entries, closing the breaker |
| AiServices.CircuitBreaker.OnFailure | backend/ai/services.py:58-62 | the cached state becomes the state after one failure |
| AiServices.Fallback | backend/ai/services.py:112-118 | a degraded answer serves a non-empty cached reply, marked as from the cache, and the fallback message otherwise |
| AiServices.ChatOutcome | backend/ai/services.py:105-137 | with the breaker open the provider is not called and nothing changes; otherwise the answer is fresh exactly when the provider gives a non-empty reply, which is then cached for the TTL and closes the breaker; a failure is recorded on the breaker and answered from the cache or with the failure message |
| AiServices.FreshReplyCoversLaterOutage | backend/ai/services.py:105-137 | a fresh reply is served again from the cache, marked degraded, by a later call with the same key within the TTL when the breaker is open or the provider fails |
| AiServices.FailingChatsStopProviderCalls | backend/ai/services.py:105-137 | after `threshold` failed chats close together, the next chat within the open period does not call the provider and answers degraded |
| AiServices.ChatEngine.Chat | backend/ai/services.py:105-137 | a chat leaves its answer, whether the provider was called, the reply cache and the breaker as the chat outcome states |
| AiServices.RateOutcome | backend/ai/services.py:313-320 | a request is allowed exactly when the identifier's live count is below the maximum; a refusal writes nothing; an allowed request raises the count by one; other identifiers are untouched |
| AiServices.RunWithinWindow | backend/ai/services.py:313-320 | requests within one window, starting from a live count `c`, are allowed `min(n, max - c)` times, and none once `c` has reached the maximum |
| AiServices.AtMostMaxPerWindow | backend/ai/services.py:422-429 | from no count, of `n` requests within one window exactly `min(n, max)` are allowed |
| AiServices.RateLimiter.Check | backend/ai/services.py:422-429 | the check answers and updates the counters as the rate outcome states |
| AiServices.RemovePunctuation | backend/ai/services.py:179 | removing punctuation keeps only word and space characters, never lengthens the text, and leaves a text without punctuation unchanged |
| AiServices.RemovePunctuationCount | backend/ai/services.py:179 | every word or space character survives as often as it occurs, and every other character is gone |
| AiServices.RemovePunctuationAppend | backend/ai/services.py:179 | removal works character by character: removing from a concatenation concatenates the removals, so survivors keep their order |
| AiServices.FirstTwo | backend/ai/services.py:177 | at most the first two elements are taken, in order |
| AiServices.Cleanings | backend/ai/services.py:177-183 | each raw keyword has its own clean-up result |
| AiServices.SomesKeeps | backend/ai/services.py:182-183 | every kept keyword is one of the clean-up results, and when none is dropped all are kept in order |
| AiServices.CleanedKeywords | backend/ai/services.py:174-184 | at most two keywords come out, never more than went in |
| AiServices.CleanKeywords | backend/ai/services.py:174-184 | the loop yields exactly the cleaned keywords |
| AiServices.WordsOfJoin | backend/ai/services.py:180-183 | splitting words joined by single spaces gives the words back |
| AiServices.CleanKeywordWords | backend/ai/services.py:178-183 | a kept keyword is its first one or two lower-case, punctuation-free words joined by a space |
| AiServices.CleanKeywordIdempotent | backend/ai/services.py:178-183 | cleaning a cleaned keyword gives it back |
| AiServices.KeywordShape | backend/ai/services.py:178-183 | a cleaned keyword is non-empty, has one or two words of lower-case word characters, and is its own clean-up |
| AiServices.CleanedKeywordsShape | backend/ai/services.py:174-184 | every keyword that comes out is non-empty, of one or two words, lower-case and free of punctuation |
| AiServices.CleanedKeywordAt | backend/ai/services.py:174-184 | each kept keyword is the clean-up of one of the first two raw keywords and is non-empty, of one or two words, free of punctuation and its own clean-up |
| AiServices.CleanedKeywordsIdempotent | backend/ai/services.py:174-184 | cleaning the cleaned keywords again changes nothing |
| ApiErrors.HandleHttpError | backend/config/api.py:101-108 | an `HttpError` is answered with its own status and its message as the detail |
| ApiErrors.Handle404 | backend/config/api.py:91-98 | a 404 carries the exception's text, or "Resource not found" when that is empty; the detail is never empty |
| ApiErrors.BodyIsDropped | backend/config/api.py:151 | the "body" part of an error location never appears in the field name |
| ApiErrors.FormatEntry | backend/config/api.py:146-156 | a dict error is shown as "field: msg" when it has a field and as its message otherwise; any other error as its text |
| ApiErrors.Messages | backend/config/api.py:146-156 | one message per error, in order |
| ApiErrors.ValidationDetailMeaning | backend/config/api.py:141-161 | no errors, or errors that are not a list, give "Validation error"; one error gives its message; every error's message appears in the detail |
| ApiErrors.HandleValidationError | backend/config/api.py:141-167 | a validation failure answers 422 with the joined detail and the errors unchanged |
| Text.Strip | backend/products/schemas.py:81 | the stripped text starts and ends with a non-space and is never longer than the input |
| Text.StripSlice | backend/products/schemas.py:81 | stripping cuts only whitespace, and only at the two ends: what is left is a contiguous slice of the input, with whitespace alone before and after it |
| Text.StripEmptyIff | backend/products/schemas.py:81-83 | a text strips to nothing exactly when it is all whitespace |
| Text.StripIdempotent | backend/users/schemas.py:62 | stripping twice is stripping once |
| Paging.TotalPages | backend/home/api_router.py:214 | the page count is the least number of pages that hold every item, and 1 when there are no items |
| Paging.HasNextIffMoreItems | backend/home/api_router.py:262 | `page < total_pages` holds exactly when items remain after this page |
| Paging.Pagination | backend/home/api_router.py:256-263 | the pagination block echoes page, size and total, with the page count, and flags a next page exactly when items remain and a previous page exactly after page 1 |
| Paging.Window | backend/home/api_router.py:218 | an offset slice holds the items from the offset on, at most `size` of them |
| Paging.Page | backend/home/api_router.py:215-218 | a page holds at most `page_size` items |
| Paging.ItemOnItsPage | backend/products/services.py:119 | every item appears on page `i / size + 1` at position `i % size` |
| Paging.PagesDisjoint | backend/home/watchlist_router.py:122-126 | over a list without repeats, no item shows up on two different pages |
| Paging.PagesOrdered | backend/products/public_router.py:124 | across pages of a sorted list an item on an earlier page ranks before one on a later page |
| Query.SortBySorted | backend/products/services.py:110-113 | ordering by a total preorder yields a list sorted by it |
| Query.SortBy | backend/products/services.py:110-113 | ordering a query set keeps exactly the same rows, each as often |
| Query.Filter | backend/home/watchlist_router.py:111-117 | a filtered query set holds exactly the rows that pass the filter, never more than before |
| Query.FilterCount | backend/home/watchlist_router.py:111-117 | a filtered query set keeps each accepted row as often as it occurs and no rejected row |
| ChatModels.MarkAsRead | backend/chat/models.py:154-159 | marking read sets the unread count to zero and the last-read time to now, keeping the thread and user |
| Text.SplitAtFirst | backend/home/api_router.py:46 | when two texts split at a separator agree and neither left part holds it, the left parts and the right parts are equal |
| Text.SeparatorInLonger | backend/home/api_router.py:46 | when two split texts agree, the longer left part holds the separator at the shorter one's length |
| Text.JoinInjective | backend/home/api_router.py:46 | joining the same number of parts with a one-character separator none of them holds loses nothing: equal joins come from equal parts |
| Text.NatToStringInjective | backend/home/api_router.py:39-40 | different numbers have different decimal texts |

## Left out

- Concurrency is not modelled: database transactions under races, `F()` increments, the channel layer's asynchronous delivery and event-loop scheduling. Stores are sequential in-memory tables, and a group send is an entry in a log.
- Network and foreign calls are not modelled: Gemini generation, the provider's retries, `extract_keywords`' fallback, `PublicAssistantService.chat`, `generate_summary`, `_build_context_string`, `_parse_response` and `_parse_ai_response`. The currency fetch is also left out. Its result, or its failure, is an input of `Market.MarketCache.GetIndicators`, so the generic exception branch that answers 503 is the failure input.
- Market.Parse: the `updated_at` text is a parameter, left unconstrained. The model does not capture how `_parse_collectapi_response` (backend/home/market_router.py:121-141) reads `lastupdate` as a number or an ISO text, or its fallbacks to `utcnow()`. The clock and the date formatting are not modelled. `Market.MarketCache.GetIndicators` passes the same text through.
- Hashing is not modelled. The sha256 cache keys of the AI services are kept as the tuples they digest. The home feed's md5 key is kept as the text it digests, the parts joined with ':' (see Findings).
- Floating-point code is not modelled: `calculate_trust_score`, `_calculate_change_pct`, the `_compute_fallback` average and the Decimal-to-float rendering of responses. A market rate is kept as an abstract real number with its truthiness.
- Library internals are not modelled: PIL decoding and encoding (the encoder is a size-per-quality function), JWT signing and blacklisting, Django's `authenticate`, `validate_password`, `normalize_email` beyond lower-casing, `EmailStr`, and `parse_qs`. Token issuing (`get_tokens_for_user`) is also left out.
- Handlers not modelled: the `InvalidToken`, `AuthenticationFailed` and `TokenError` handlers and the generic exception handler of `backend/config/api.py`.
- Chat parts not modelled: the username summaries in thread payloads, the `chat_notification` and `thread_updated` handlers, and the delivery of group events to clients.
- The `WatchlistItem` model file is not part of this model. Its add, remove and lookup behaviour is taken from how `backend/home/watchlist_router.py` uses it.
- Registration parts not modelled: database failures other than a uniqueness clash, the generic exception branch of `register`, and filename collisions in file storage.
- The disabled-account branch of `login` is modelled as an input, since it depends on what the authentication backend returns for inactive users.
- Configuration read with `int(os.getenv(...))` or from settings comes in as constructor or function parameters with the source's defaults: the breaker threshold and open time, the cache TTL, the rate limits and the low-stock threshold.
- `create_product`, `add_photo`, `delete_photo`, `update_price` and `update_stock` of the product service have no members of their own. The same writes are modelled by `ApplyUpdate`, `SetField`, `NewPhotos` and `DeletePhotos`.
- AiServices.RateLimiter.Check keeps the source's window rule: each allowed request writes the counter again with a fresh timeout, so the window runs from the last allowed request and not from the first.
- AiServices.CleanedKeywords treats `\w` and `lower()` as ASCII. Non-ASCII letters, which Python keeps and lower-cases, are removed here as punctuation.
- UserSchemas.WordRun treats `\w` as ASCII letters, digits and the underscore. Python's Unicode word characters beyond ASCII are not modelled.
- Text.Lower maps only the ASCII letters. Python's full Unicode case mapping is not modelled.
- ProductService.ProductStore.BulkUpdate does not model the per-item `except Exception` branch that reports `str(e)`. The model's prices and stock have no upper bound, so every save of an owned product succeeds. In the source a save fails when the value does not fit its column: a price of 10^10 or more, or a stock beyond the database's integer range. Django then refuses every later query inside the `@transaction.atomic` method, so every later item fails too. When the method returns, the whole transaction is rolled back, earlier items reported as successes included. That depends on the database and on Django's transaction handling, neither of which is part of this model.
- ProductService.ProductStore.BulkUpdatePrices does not model the `unit_price` column's bound (`max_digits=12` with two decimal places) or the failure result for a price beyond it, as explained for `BulkUpdate`.
- ProductService.ProductStore.BulkUpdateStock does not model the `PositiveIntegerField`'s upper bound or the failure result for a stock beyond it, as explained for `BulkUpdate`.
- ProductService.BulkItem holds its value as an unbounded natural number. The database column limits above are not part of it.
- ChatConsumers.ThreadConsumer.Receive takes the client's `text` as an optional string. A `text` that is a number, a list or an object has no `strip()`, so `receive_json` raises and the connection ends with an error. That input cannot be written in the model.
- SearchHistory.SearchLog.RecordSearch stores a query of any length. The `query` column is `max_length=255`, and the feed passes the stripped `q` to it unchecked. The database's refusal of a longer query, and the failed request that follows, are not modelled.
- ImageUtils.ConvertToWebp follows the source when the starting quality is below 50: the encoder never runs and the empty, zero-byte output is accepted. Whether a caller can pass such a quality is not modelled.

## Findings

| source | as written | input that shows it | evidently intended | confidence | as-written member | corrected member |
|---|---|---|---|---|---|---|
| backend/products/schemas.py:143 | the update schema's `unit_price` (and the bulk price item's, line 230) only checks `ge=0`, with no two-decimal-place check | a `unit_price` of `10.005` passes the update schema, but the create and price-update schemas refuse it | the same at-most-two-decimal-places rule as `ProductCreateSchema` and `PriceUpdateSchema` | medium, not executed | ProductSchemas.ThreeDecimalPlacesSlipThrough | ProductSchemas.UnitPrice |
| backend/home/api_router.py:34-47 | the cache key joins the parts with ':', and the search and category texts may hold ':' themselves | a search "ab:cd" in category "ef" and a search "ab" in category "cd:ef" both give the key text `home_feed_products:1:20:ab:cd:ef::False`; with an active product "ab:cd" in category "ef", the second request is served the first's cached section (one product) within 120 seconds, though its own filters match none | requests with different filters get different cache entries; the model escapes ':' and the backslash in the free texts, and `GetHomeFeed` uses that key | high, not executed | HomeFeed.JoinedKeyCollides | HomeFeed.SameKeySameSection |
| backend/users/schemas.py:47 | `re.match(r'^[\w-]+$', v)`, where `$` also matches before a final newline | the username `"abc\n"` passes validation | only word characters and hyphens, as the error message says | high, not executed | UserSchemas.TrailingNewlineSlipsThrough | UserSchemas.ValidateUsername |

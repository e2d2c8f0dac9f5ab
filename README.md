# Vendor stock locations and order-set field normalisation, in Dafny

This project models two pieces of a multi-vendor commerce backend and proves
properties of them.

1. **Order-set field normalisation.** The `get-formatted-order-set-list`
   workflow takes an optional list of field paths from the caller. It appends
   a fixed baseline of 34 paths and de-duplicates the result, keeping the
   first occurrence of each path. It then hands the list to a remote query on
   the `order_set` entry point, along with the caller's `variables`
   (module `OrderSetList`). The library `deduplicate` is modelled as
   first-occurrence de-duplication in insertion order, which is what filling
   a JavaScript `Set` does (module `Dedup`).
2. **Vendor stock-location routes.** The `GET /vendor/stock-locations`
   handler puts `seller.` in front of every requested field, queries the
   graph layer and returns each row's `stock_location` member. The
   `POST /vendor/stock-locations` handler runs these steps strictly in order:
   - look up the seller;
   - run the create workflow with the body as its only location;
   - link the seller's id to `result[0].id`;
   - read that id back, with the requested fields left unprefixed;
   - answer 201.

   Module `VendorStockLocations` holds the pure functions for the rewrite and
   the unwrap. It holds a specification function `PostSpec` for the POST run.
   It also holds a class `StockLocationBackend` with these fields:
   - the actor-to-seller map;
   - the set of stock locations;
   - the link set;
   - a trace of external calls.

   Each collaborator is a step method of that class. `Post` and `Get` call
   those steps one after another, and their postconditions tie the new state
   and the trace to `PostSpec` and `ListResponse`.

The external collaborators are the create workflow, the link registry and
the graph layer. Their code is not part of this model. What each of them
returns or throws is a parameter of the handler, given as `PostCollaborators`
for POST and as the `answer` for GET. The handlers pass every error on
unchanged. The seller lookup is modelled as a read-only map from actor to
seller. An unbound actor gets a not-found error.

Where the design description and the code disagree, the model follows the
code:
- The design says an empty field list must be rejected, because it rewrites
  to `seller.`. The code does not reject it: `SellerScopedFields([])` is `[]`
  and an empty field becomes `seller.`.
- The design describes the POST read-back as going through the seller-scoped
  projector. The code reads `stock_location` with the requested fields
  unprefixed (route.ts line 71); see `PostReadIsNotSellerScoped`.
- The design lists a fulfillment-set endpoint beside these two. That
  endpoint lives in another file and is not part of this model.

## Model

| member | source | states |
|---|---|---|
| Dedup.Deduplicate | apps/backend/src/workflows/order-set/workflows/get-formatted-order-set-list.ts:15-51 | the de-duplicated list holds every input value and nothing else, holds no value twice, and is no longer than the input |
| Dedup.DeduplicateExtends | apps/backend/src/workflows/order-set/workflows/get-formatted-order-set-list.ts:15-16 | de-duplicating `a + b` only appends to the de-duplication of `a`, so the values kept from `a` lead, unchanged and in order |
| Dedup.DeduplicateAbsorbs | apps/backend/src/workflows/order-set/workflows/get-formatted-order-set-list.ts:15-51 | appending values that were all seen before leaves the de-duplicated list unchanged |
| Dedup.DeduplicateOfNoDup | apps/backend/src/workflows/order-set/workflows/get-formatted-order-set-list.ts:15 | a list without duplicates is its own de-duplication |
| Dedup.DeduplicateIdempotent | apps/backend/src/workflows/order-set/workflows/get-formatted-order-set-list.ts:15 | de-duplicating twice is the same as de-duplicating once |
| Dedup.DeduplicateKeepsFirstOccurrenceOrder | apps/backend/src/workflows/order-set/workflows/get-formatted-order-set-list.ts:15 | the kept values are ordered by the index of their first occurrence in the input |
| OrderSetList.BaselineHasNoDuplicates | apps/backend/src/workflows/order-set/workflows/get-formatted-order-set-list.ts:17-50 | the baseline lists 34 paths, all distinct |
| OrderSetList.NormalizeFields | apps/backend/src/workflows/order-set/workflows/get-formatted-order-set-list.ts:14-52 | the normalised list contains every baseline path and every caller path, contains nothing else, and has no duplicates; an absent `fields` counts as empty |
| OrderSetList.NormalizedStartsWithCallerFields | apps/backend/src/workflows/order-set/workflows/get-formatted-order-set-list.ts:15-16 | the normalised list begins with the caller's paths, de-duplicated, in first-occurrence order |
| OrderSetList.NormalizedWithoutFieldsIsBaseline | apps/backend/src/workflows/order-set/workflows/get-formatted-order-set-list.ts:16-50 | with `fields` absent the normalised list is exactly the baseline, in source order |
| OrderSetList.NormalizedLengthBounds | apps/backend/src/workflows/order-set/workflows/get-formatted-order-set-list.ts:15-51 | the normalised list has at least 34 and at most the number of caller paths plus 34 entries |
| OrderSetList.NormalizeIdempotent | apps/backend/src/workflows/order-set/workflows/get-formatted-order-set-list.ts:15-51 | normalising an already normalised list returns it unchanged |
| OrderSetList.NormalizedFollowsFirstOccurrence | apps/backend/src/workflows/order-set/workflows/get-formatted-order-set-list.ts:15-51 | the paths are ordered by their first occurrence among the caller's paths followed by the baseline |
| OrderSetList.NormalizedExample | apps/backend/src/workflows/order-set/workflows/get-formatted-order-set-list.ts:15-51 | a request for `orders.id` and `extra.field` queries those two first, in that order |
| OrderSetList.OrderSetQuery | apps/backend/src/workflows/order-set/workflows/get-formatted-order-set-list.ts:54-58 | the remote query uses entry point `order_set`, the normalised fields and the caller's `variables` unchanged |
| VendorStockLocations.SellerScopedFields | apps/backend/src/api/vendor/stock-locations/route.ts:123 | the rewritten list has one field per requested field, in order, each being `seller.` followed by that requested field |
| VendorStockLocations.UnscopeAfterScope | apps/backend/src/api/vendor/stock-locations/route.ts:123 | stripping `seller.` from every rewritten field gives back the requested fields |
| VendorStockLocations.SellerScopedFieldsInjective | apps/backend/src/api/vendor/stock-locations/route.ts:123 | two different requests never rewrite to the same field list |
| VendorStockLocations.Member | apps/backend/src/api/vendor/stock-locations/route.ts:131 | a row's member is present exactly when the row has that key, and is then its value |
| VendorStockLocations.UnwrapRows | apps/backend/src/api/vendor/stock-locations/route.ts:130-132 | the unwrap yields exactly one entry per row |
| VendorStockLocations.UnwrapAfterWrap | apps/backend/src/api/vendor/stock-locations/route.ts:130-132 | unwrapping rows that wrap locations under `stock_location` yields those locations, in order |
| VendorStockLocations.UnwrapRowsConcat | apps/backend/src/api/vendor/stock-locations/route.ts:130-132 | unwrapping works row by row: a concatenation of rows unwraps to the concatenation of the parts |
| VendorStockLocations.ListResponse | apps/backend/src/api/vendor/stock-locations/route.ts:120-133 | a graph error is passed on unchanged; otherwise the answer is 200 under `stock_locations`, with one entry per row, in row order, each that row's `stock_location` member |
| VendorStockLocations.PostReadIsNotSellerScoped | apps/backend/src/api/vendor/stock-locations/route.ts:71 | the POST read asks for the requested fields unprefixed, unlike the GET list, so for a non-empty request the two field lists differ |
| VendorStockLocations.FirstRow | apps/backend/src/api/vendor/stock-locations/route.ts:66-68 | the destructured `stockLocation` is the first row, and is absent exactly when there are no rows |
| VendorStockLocations.PostStepOrder | apps/backend/src/api/vendor/stock-locations/route.ts:48-81 | a POST run makes one to four external calls, in the fixed order seller lookup, workflow, link write, read; the lookup is for the request's actor and the workflow gets the body as its sole location |
| VendorStockLocations.PostSucceedsIffEveryStepDoes | apps/backend/src/api/vendor/stock-locations/route.ts:48-81 | a POST succeeds exactly when the seller exists, the workflow reports at least one location, the link write succeeds and the read succeeds |
| VendorStockLocations.PostWithoutSeller | apps/backend/src/api/vendor/stock-locations/route.ts:48-51 | with no seller bound to the actor, the run makes only the lookup, creates nothing, links nothing and fails with not found |
| VendorStockLocations.PostWorkflowFailure | apps/backend/src/api/vendor/stock-locations/route.ts:53-55 | when the create workflow fails, its error is the answer, no link is written and nothing is read |
| VendorStockLocations.PostLinkFailure | apps/backend/src/api/vendor/stock-locations/route.ts:57-64 | when the link write fails, the created location remains, no link is stored, no read follows, and the link error is the answer |
| VendorStockLocations.PostLinksOnlyAfterWorkflow | apps/backend/src/api/vendor/stock-locations/route.ts:57-64 | a link write happens only after a successful workflow, and it pairs the resolved seller's id with `result[0].id` |
| VendorStockLocations.PostIdFlow | apps/backend/src/api/vendor/stock-locations/route.ts:53-74 | in a run that reaches the read, the workflow gets the body as its sole location, the id linked to the seller is `result[0].id`, and the read filters on that id with the unprefixed requested fields |
| VendorStockLocations.PostSuccessResponse | apps/backend/src/api/vendor/stock-locations/route.ts:79-81 | a successful POST answers 201 under `stock_location` with the first row read back, and leaves exactly the one new link |
| VendorStockLocations.StockLocationBackend.FetchSeller | apps/backend/src/api/vendor/stock-locations/route.ts:48-51 | the lookup is recorded, and it returns the actor's seller, or not found for an unbound actor |
| VendorStockLocations.StockLocationBackend.RunCreateWorkflow | apps/backend/src/api/vendor/stock-locations/route.ts:53-55 | the workflow call is recorded; on success the reported ids join the stock locations, and on failure nothing changes |
| VendorStockLocations.StockLocationBackend.CreateLink | apps/backend/src/api/vendor/stock-locations/route.ts:57-64 | the link write is recorded; on success the link joins the link set, and on failure nothing changes |
| VendorStockLocations.StockLocationBackend.Graph | apps/backend/src/api/vendor/stock-locations/route.ts:66-77 | the query is recorded and changes no store |
| VendorStockLocations.StockLocationBackend.Post | apps/backend/src/api/vendor/stock-locations/route.ts:42-82 | the handler's trace, the created locations, the added links and the answer are exactly those of `PostSpec` |
| VendorStockLocations.StockLocationBackend.Get | apps/backend/src/api/vendor/stock-locations/route.ts:114-134 | the handler makes one graph query on `stock_location` with the `seller.`-prefixed fields and the request's filters, changes no store, and answers `ListResponse` of the rows |

## Left out

- The internals of the seller lookup, the create workflow, the link registry and the graph layer. Their code is not part of this model, so their results are handler parameters. As a result, cross-seller isolation, `throwIfKeyNotFound` and field projection cannot be stated. The same goes for the design's ownership-coverage and link-exclusivity properties, which depend on what the graph layer filters.
- `formatOrderSets`, the post-formatting step of the order-set workflow: its code is not part of this model. Only the arguments of the remote query are modelled.
- The workflow runtime (`createWorkflow`, `transform`, `useRemoteQueryStep`, `WorkflowResponse`): this is engine machinery. The normalisation is modelled as the value the `transform` computes.
- HTTP plumbing: request and response objects, dependency resolution from the request scope, the authentication context, body validation and the OpenAPI comments. Requested fields, filters and the validated body are given as plain parameters.
- Concurrency and cancellation: each handler is one sequential run.
- The fulfillment-set endpoint in `[id]/fulfillment-sets/route.ts`: it is context, not part of this model.
- VendorStockLocations.StockLocationBackend.FetchSeller: its failure is modelled only as "no seller bound to the actor". Any other error the real lookup may throw is not modelled.

# NFT marketplace indexer: the mirror-synchronisation core in Dafny

This project models the part of the NFT marketplace indexer that keeps a
document-store mirror of one marketplace contract in step with the chain:

- the **event reconciler** (`listening::listen_for_events`), which takes the
  contract's decoded events one at a time and applies each to three store
  collections (collections, items, offers);
- the **backfill** (`initila_data::get_all_collections`, `get_all_items`,
  `get_offers`, `get_all_offers`), which rebuilds one document per on-chain
  slot and fails as a whole when any read fails.

Files and modules:

- `primitives.dfy` (`Primitives`): `Option`, bytes, 64-bit numbers, 20-byte addresses.
- `hex.dfy` (`Hex`): the `"0x"` + lowercase-hex rendering of an address used in every
  store filter on an address field and in the owner updates, its parser, and the proof
  that rendering is injective.
- `decimal.dfy` (`Decimal`): `to_string()` of an index or id, its parser and injectivity.
- `models.dfy` (`Models`): the `NFTCollection`, `Item` and `Offer` documents and the
  `items(i)` / `offers(i, a)` chain records, with the offer lookup key.
- `store.dfy` (`Store`): the store operations the core issues, on a collection held as a
  sequence in insertion order: `find_one` (first match), `update_one` without upsert (first
  match only, no-op when nothing matches), `delete_many` (all matches, order kept).
- `listener.dfy` (`Listener`): the events; `Step` (one event applied to a mirror value) and
  `Run` (the loop over a stream) as specification functions; the class `MirrorStore`,
  whose fields are the three collections and the audit log and which has one method per
  event kind plus `Handle` (the `match`) and `Listen` (the `while let` loop, proved against
  `Run`); and the lemmas about the transitions.
- `data_loader.dfy` (`DataLoader`): the backfill as methods with loops over the gateway
  reads, which are given as functions from slot to an optional record.

Modelling decisions:

- Addresses are 20-byte sequences. The listener's filters compare rendered strings
  (`format!("0x{}", encode(..))`), and the filters here do the same; `Hex.RenderInjective`
  shows that this selects by address. `ItemSold` and `ItemClaimed` write the rendered
  string into `owner`; an `H160` is stored as that same string, so the model stores the
  address itself.
- Ids, token ids and prices are numbers below 2^64, since the code converts them with `as_u64`.
- The event stream is a sequence of `Delivered(event, ownerRead)` / `StreamError`. The loop
  stops, returning `Ok`, at the end of the sequence or at the first `StreamError`.
- The chain read of the item's owner that OfferPlaced makes (`contract.items(event.id).await?.3`)
  travels with each delivery as `ownerRead`, the answer the chain gives at the moment that
  event is handled. Successive OfferPlaced events may therefore see different owners.
  `None` is a failed read, which the code propagates with `?`, ending the listener with
  `Err` before anything is written. Other events ignore `ownerRead`.
- The audit log is the sequence of events that produced a line. An OfferAccepted that
  matches no offer writes no line, because the logging sits inside the `if let`.
- Backfill outcomes are `Ok(value)`, `Err` (a `?` returned an error) or `Panic` (an `unwrap`
  on a failed task). In `get_all_offers`, a panic inside a spawned `get_offers` (one offer
  read failed) turns into a join error that `try_join_all(..).await?` returns as `Err`. An
  `Err` from `get_offers` (the offerers read failed) makes the final `unwrap` panic.
- The spawned tasks share no state, so they run one after another in index order.
  `get_offers` de-duplicates through a `HashSet`, whose iteration order is unspecified,
  so its result is stated only up to order: one offer per distinct offerer.

Where the intended behaviour of the mirror and the code differ, the model follows the code:

- Intended: an offer is identified by (item, offerer). Code: OfferPlaced looks offers up by
  (item, offerer, seller), so after the item changes hands a new bid by the same buyer adds a
  second document (`Listener.NewOwnerMeansSecondOffer`,
  `Listener.OwnerChangeBetweenBidsGivesTwoOffers`). OfferAccepted looks up by (item, offerer)
  only, and marks the first such document.
- Intended: `is_accepted` never goes back to false. Code: the OfferPlaced update sets
  `is_accepted` to false on the existing document.
- Intended: one audit line per event. Code: an OfferAccepted that matches nothing writes none
  (`Listener.StepLogsOneLine`).
- Intended: exactly one item per `item_id`. Code: ItemAdded inserts without checking, so a
  repeated ItemAdded creates a second item, and updates then reach only the first.

## Model

| member | source | states |
|---|---|---|
| Hex.EncodeHex | src/services/listener.rs:91 | `hex::encode` gives exactly two lowercase hex digits per byte |
| Hex.DecodeEncode | src/services/listener.rs:91 | decoding the hex text of any byte string gives back those bytes |
| Hex.Render | src/services/listener.rs:91 | a rendered address is 42 characters: `"0x"` then 40 lowercase hex digits |
| Hex.ParseRender | src/services/listener.rs:110 | parsing a rendered address gives back the address |
| Hex.RenderInjective | src/services/listener.rs:133 | two addresses render to the same string exactly when they are equal, so the string filters select by address |
| Decimal.NatToString | src/services/listener.rs:31 | `to_string` gives a non-empty string of decimal digits with no leading zero |
| Decimal.ParseNatToString | src/services/data_loader.rs:42 | reading back a decimal id string gives the number |
| Decimal.NatToStringInjective | src/services/data_loader.rs:38-42 | distinct indices give distinct collection ids |
| Store.FirstMatch | src/services/listener.rs:135 | `find_one` finds the first document the filter matches, and none exactly when no document matches |
| Store.DeleteMany | src/services/listener.rs:59 | `delete_many` leaves no matching document, never adds one, and keeps every other document with its multiplicity |
| Store.UpdateOne | src/services/listener.rs:50-55 | `update_one` without upsert keeps the number of documents, applies the `$set` to the first match only, and changes nothing when nothing matches |
| Store.DeleteManyAppend | src/services/listener.rs:59 | `delete_many` keeps the surviving documents in their original order |
| Store.DeleteManyNoMatch | src/services/listener.rs:121 | a `delete_many` that matches nothing leaves the collection unchanged |
| Store.DeleteManySubset | src/services/listener.rs:59 | every document left by `delete_many` was there before |
| Listener.UpdateFirstItem | src/services/listener.rs:50-55 | an update keyed on `item_id` changes exactly the first item with that id |
| Listener.OffererFilterFindsFirst | src/services/listener.rs:133-135 | the OfferAccepted filter finds the first offer with that item and offerer address, and none exactly when there is none |
| Listener.KeyFilterFindsFirst | src/services/listener.rs:158-162 | the OfferPlaced filter finds the first offer with that (item, offerer, seller) key, and none exactly when there is none |
| Listener.PlaceBid | src/services/listener.rs:160-186 | after a placement, an unaccepted offer with key (item, buyer, seller) and the bid price is on record; either the count is unchanged or exactly that offer was appended; no existing offer changes its key |
| Listener.Step | src/services/listener.rs:28-201 | an event fails to apply exactly when it is an OfferPlaced whose owner read failed; otherwise collections are only appended to, items only appended to with each keeping its id, contract and token, the log only grows, and at most one document of each kind and one log line is added |
| Listener.Run | src/services/listener.rs:27-204 | over any stream, collections are only appended to, every existing item keeps its id, contract and token, the log only grows, by at most one line per delivery |
| Listener.CollectionAddedEffect | src/services/listener.rs:29-35 | CollectionAdded appends one collection whose id reads back as the event id; items and offers are unchanged |
| Listener.ItemAddedEffect | src/services/listener.rs:67-79 | ItemAdded appends exactly one item with the event's id, contract, token id and owner, price 0 and no metadata; collections and offers are unchanged |
| Listener.ItemListedEffect | src/services/listener.rs:43-59 | ItemListed sets the price of the first item with that id and nothing else; no offer on the item remains and offers on other items are kept; with no such item, items are unchanged but the offers are still deleted |
| Listener.ItemSoldEffect | src/services/listener.rs:87-98 | ItemSold sets the first matching item's owner to the buyer and its price to 0; offers and collections are unchanged |
| Listener.ItemClaimedEffect | src/services/listener.rs:106-121 | ItemClaimed sets the first matching item's owner to the claimer and keeps its price; no offer on the item remains |
| Listener.AcceptUnrecordedIsNoOp | src/services/listener.rs:129-137 | OfferAccepted with no offer by that offerer on that item leaves the whole mirror, log included, unchanged |
| Listener.AcceptMarksFirstOffer | src/services/listener.rs:137-152 | with a match, OfferAccepted sets `is_accepted` on the first match only, keeps its other fields, and logs one line |
| Listener.PlaceBidEffect | src/services/listener.rs:160-186 | if an offer with key (item, buyer, seller) exists, the first one gets the new price and `is_accepted = false` and the count is unchanged; otherwise exactly one new unaccepted offer is appended |
| Listener.OfferPlacedEffect | src/services/listener.rs:154-158 | OfferPlaced is applied exactly when the owner read succeeds, and then changes only the offers and the log |
| Listener.OwnershipTransferredEffect | src/services/listener.rs:194-200 | OwnershipTransferred changes only the log |
| Listener.DeleteManyKeepsKeysUnique | src/services/listener.rs:121 | deleting offers cannot make two offers share a key |
| Listener.PlaceBidKeepsKeysUnique | src/services/listener.rs:160-186 | OfferPlaced preserves "no two offers share (item, offerer, seller)" |
| Listener.StepKeepsOfferKeysUnique | src/services/listener.rs:28-201 | every event kind preserves "no two offers share (item, offerer, seller)" |
| Listener.PlacingTwiceKeepsOneOffer | src/services/listener.rs:154-186 | two placements by one buyer on one item whose owner reads return the same seller leave exactly one offer with that key, with the second price and not accepted |
| Listener.NewOwnerMeansSecondOffer | src/services/listener.rs:158-185 | after the item changed hands, a bid by a buyer who already has an offer on it appends a second offer with the new seller |
| Listener.ListingTwiceIsListingOnce | src/services/listener.rs:43-59 | listing an item again at the same price leaves collections, items and offers as the first listing left them |
| Listener.StepLogsOneLine | src/services/listener.rs:137-152 | each applied event adds exactly one log line, except an OfferAccepted that matches nothing, which adds none |
| Listener.RunKeepsOfferKeysUnique | src/services/listener.rs:27-202 | over any event stream, offer keys stay unique |
| Listener.OwnerChangeBetweenBidsGivesTwoOffers | src/services/listener.rs:154-186 | the stream bid (owner A), sale to C, bid again (owner C) by the same buyer ends `Ok` with two offers, one per seller |
| Listener.RunStopsAtStreamError | src/services/listener.rs:27 | the loop stops at the first stream error exactly as if the stream had ended there |
| Listener.RunFailsOnlyOnOwnerRead | src/services/listener.rs:158 | the listener returns `Err` exactly when the owner read of some OfferPlaced, taken when that event is handled, fails before the first stream error |
| Listener.MirrorStore.AddCollection | src/services/listener.rs:29-35 | appends the collection under its decimal id; items and offers unchanged; one log line |
| Listener.MirrorStore.ListItem | src/services/listener.rs:43-59 | updates the first item's price and deletes every offer on the item; collections unchanged |
| Listener.MirrorStore.AddItem | src/services/listener.rs:67-79 | appends the new unlisted item; collections and offers unchanged |
| Listener.MirrorStore.SellItem | src/services/listener.rs:87-98 | sets owner and price 0 on the first matching item; collections and offers unchanged |
| Listener.MirrorStore.ClaimItem | src/services/listener.rs:106-121 | sets the owner on the first matching item and deletes every offer on it |
| Listener.MirrorStore.AcceptOffer | src/services/listener.rs:129-153 | with no match, offers and log unchanged; with one, the first match is accepted and one line is logged |
| Listener.MirrorStore.PlaceOffer | src/services/listener.rs:154-193 | fails, writing nothing, exactly when the owner read it is given failed; otherwise updates or inserts the offer against the owner read and logs |
| Listener.MirrorStore.TransferOwnership | src/services/listener.rs:194-200 | only a log line is added |
| Listener.MirrorStore.Handle | src/services/listener.rs:28-201 | the new state is `Step` of the old one, or the old one when the owner read fails |
| Listener.MirrorStore.Listen | src/services/listener.rs:18-205 | the final state and the `Ok`/`Err` result are those of `Run` on the stream, each event handled with its own owner read |
| DataLoader.ItemDoc | src/services/data_loader.rs:88-97 | an item document keeps every field of the `items(i)` record and has no metadata |
| DataLoader.OfferDoc | src/services/data_loader.rs:135-142 | an offer document carries the offerer asked about and every field of the `offers` record except the NFT contract and token |
| DataLoader.CollectionTask | src/services/data_loader.rs:36-51 | the task fails exactly when the `collections(i)` read fails; otherwise its id reads back as `i` and it holds the address read |
| DataLoader.ItemTask | src/services/data_loader.rs:79-104 | the task fails exactly when the `items(i)` read fails; otherwise it holds that record and none of `name`, `description`, `image` |
| DataLoader.OfferTask | src/services/data_loader.rs:133-151 | the task fails exactly when the `offers(item, offerer)` read fails; otherwise the offer's key is the record's item and seller with the offerer asked about, with the record's price and status |
| DataLoader.Unique | src/services/data_loader.rs:123-125 | the de-duplicated offerers hold every input address exactly once and no other |
| DataLoader.UnwrapAll | src/services/data_loader.rs:58-59 | collecting unwrapped task results panics exactly when some task failed, otherwise keeps every value in order |
| DataLoader.GetAllCollections | src/services/data_loader.rs:24-62 | `Err` exactly when the count read fails, a panic exactly when some slot read fails, otherwise exactly `count` collections, the k-th with id k in decimal and the address read at k, all ids distinct |
| DataLoader.GetAllItems | src/services/data_loader.rs:67-114 | `Err` exactly when the count read fails, a panic exactly when some item read fails, otherwise exactly `count` items, the k-th copied from `items(k)` with no metadata |
| DataLoader.GetOffers | src/services/data_loader.rs:119-161 | `Err` exactly when the offerers read fails, a panic exactly when some offer read fails, otherwise one offer per distinct offerer, each built from its own record, no more offers than offerers, and none for an item with no offerers |
| DataLoader.GetAllOffers | src/services/data_loader.rs:163-186 | exactly `count` lists, the k-th holding the offers of item k and empty when it has no offerers; `Err` when the count read or some offer read fails, a panic when only an offerers read fails; never a partial result |

## Left out

- The chain transport, ABI decoding and the event subscription (`events.stream().await?`); the
  stream is a given sequence whose deliveries carry the owner read made for them, and the
  backfill's chain reads are given functions.
- Store write failures and BSON conversion failures (`to_bson`, and numbers at or above 2^63,
  which BSON cannot hold as signed integers); the store is in memory and its writes always succeed.
- The audit file writes of `log_new_line` and the `println!` calls; the log is the sequence of
  events that produced a line, and failures of the file write are not modelled.
- The `log_new_line` calls inside the backfill tasks, and their failures.
- Tokio task spawning, `Arc` cloning and the concurrent fan-out of the backfill; the reads are
  sequential, which is equivalent since the tasks share no state.
- `U256` values at or above 2^64: ids, counts and prices are required to fit, as `as_u64` does.
  The CollectionAdded id is rendered with `to_string` and needs no `as_u64` in the source;
  the model bounds it below 2^64 like the other ids.
- The process setup, the one-off seeding script and the older struct shapes of the
  models file.
- DataLoader.GetOffers: the `HashSet` iteration order is unspecified, so the result is stated
  up to order; the model itself keeps the last occurrence of each offerer.

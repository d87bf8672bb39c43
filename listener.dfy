/** The live event reconciler of `listen_for_events`: each decoded marketplace
    event is one transition of the mirror (collections, items, offers), applied
    in delivery order. `Step` and `Run` specify the transitions on values;
    `MirrorStore` performs them in place, one method per event kind. */
module Listener {
  import opened Primitives
  import opened Hex
  import opened Decimal
  import opened Models
  import opened Store

  /** The decoded contract events, with the fields the reconciler reads. */
  datatype Event =
    | CollectionAdded(id: U64, nftCollection: Address)
    | ItemListed(id: U64, price: U64)
    | ItemAdded(id: U64, nftContract: Address, tokenId: U64, owner: Address)
    | ItemSold(id: U64, buyer: Address)
    | ItemClaimed(id: U64, claimer: Address)
    | OfferAccepted(id: U64, offerer: Address)
    | OfferPlaced(id: U64, buyer: Address, price: U64)
    | OwnershipTransferred(previousOwner: Address, newOwner: Address)

  /** One element of the event stream: a decoded event, delivered together with the
      answer the contract's `items(id)` call gives when the handler makes that call
      (only OfferPlaced does), or a stream error. The answer is None when the call
      fails; being part of the delivery, it is the chain as it stands when that
      event is handled. */
  datatype Delivery = Delivered(event: Event, ownerRead: Option<Address>) | StreamError

  /** The three store collections, and the audit log as the events it reports. */
  datatype Mirror = Mirror(collections: seq<NftCollection>, items: seq<Item>, offers: seq<Offer>, log: seq<Event>)

  /** Where the stream left the mirror, and whether the listener returned `Ok`. */
  datatype RunResult = RunResult(mirror: Mirror, ok: bool)

  // Store filters. Address fields are compared as their rendered strings, as the
  // source's filter documents do.

  function ItemIdIs(id: U64): Item -> bool
  {
    (it: Item) => it.itemId == id
  }

  function OfferItemIs(id: U64): Offer -> bool
  {
    (o: Offer) => o.itemId == id
  }

  function OfferOffererIs(id: U64, offerer: Address): Offer -> bool
  {
    (o: Offer) => o.itemId == id && Render(o.offerer) == Render(offerer)
  }

  function OfferKeyIs(id: U64, offerer: Address, seller: Address): Offer -> bool
  {
    (o: Offer) => o.itemId == id && Render(o.offerer) == Render(offerer) && Render(o.seller) == Render(seller)
  }

  // `$set` documents.

  function SetPrice(price: U64): Item -> Item
  {
    (it: Item) => it.(price := price)
  }

  function SetOwnerAndPrice(owner: Address, price: U64): Item -> Item
  {
    (it: Item) => it.(owner := owner, price := price)
  }

  function SetOwner(owner: Address): Item -> Item
  {
    (it: Item) => it.(owner := owner)
  }

  function SetAccepted(): Offer -> Offer
  {
    (o: Offer) => o.(isAccepted := true)
  }

  function SetBid(price: U64): Offer -> Offer
  {
    (o: Offer) => o.(price := price, isAccepted := false)
  }

  /** The offers after an OfferPlaced whose item is owned by `seller`: find by
      (item, offerer, seller), then update that document or insert a new one.
      Either way the bid is then on record, and no existing offer changes its key. */
  function PlaceBid(offers: seq<Offer>, id: U64, buyer: Address, seller: Address, price: U64): (r: seq<Offer>)
    ensures |r| == |offers| || r == offers + [Offer(id, buyer, seller, price, false)]
    ensures exists k :: 0 <= k < |r| && r[k] == Offer(id, buyer, seller, price, false)
    ensures forall k :: 0 <= k < |offers| ==> OfferKey(r[k]) == OfferKey(offers[k])
  {
    var found := FirstMatch(offers, OfferKeyIs(id, buyer, seller));
    if found.Some? then
      RenderInjective(offers[found.value].offerer, buyer);
      RenderInjective(offers[found.value].seller, seller);
      var r := UpdateOne(offers, OfferKeyIs(id, buyer, seller), SetBid(price));
      assert r[found.value] == Offer(id, buyer, seller, price, false);
      r
    else
      var r := offers + [Offer(id, buyer, seller, price, false)];
      assert r[|offers|] == Offer(id, buyer, seller, price, false);
      r
  }

  /** Two items are the same asset: same marketplace id, NFT contract and token. */
  predicate SameAsset(a: Item, b: Item)
  {
    a.itemId == b.itemId && a.nftContract == b.nftContract && a.tokenId == b.tokenId
  }

  /** How the mirror may evolve: collections are only ever appended, items are only
      appended and each keeps its asset, and the audit log only grows. */
  ghost predicate Extends(m: Mirror, m': Mirror)
  {
    && m.collections <= m'.collections
    && |m.items| <= |m'.items|
    && (forall k :: 0 <= k < |m.items| ==> SameAsset(m.items[k], m'.items[k]))
    && m.log <= m'.log
  }

  /** One event applied to the mirror. `ownerRead` is the answer of the contract's
      `items(id)` call that OfferPlaced makes; when that call fails the listener ends
      with an error before anything is written. Every other event is applied, inserting
      at most one document and one log line. */
  function Step(m: Mirror, e: Event, ownerRead: Option<Address>): (r: Option<Mirror>)
    ensures r.None? <==> e.OfferPlaced? && ownerRead.None?
    ensures r.Some? ==> Extends(m, r.value)
    ensures r.Some? ==>
      && |r.value.collections| <= |m.collections| + 1 && |r.value.items| <= |m.items| + 1
      && |r.value.offers| <= |m.offers| + 1 && |r.value.log| <= |m.log| + 1
  {
    match e
    case CollectionAdded(id, nftCollection) =>
      Some(m.(collections := m.collections + [NftCollection(NatToString(id), nftCollection)], log := m.log + [e]))
    case ItemListed(id, price) =>
      Some(m.(items := UpdateOne(m.items, ItemIdIs(id), SetPrice(price)),
              offers := DeleteMany(m.offers, OfferItemIs(id)),
              log := m.log + [e]))
    case ItemAdded(id, nftContract, tokenId, owner) =>
      Some(m.(items := m.items + [Item(id, nftContract, tokenId, owner, 0, None, None, None)], log := m.log + [e]))
    case ItemSold(id, buyer) =>
      Some(m.(items := UpdateOne(m.items, ItemIdIs(id), SetOwnerAndPrice(buyer, 0)), log := m.log + [e]))
    case ItemClaimed(id, claimer) =>
      Some(m.(items := UpdateOne(m.items, ItemIdIs(id), SetOwner(claimer)),
              offers := DeleteMany(m.offers, OfferItemIs(id)),
              log := m.log + [e]))
    case OfferAccepted(id, offerer) =>
      if FirstMatch(m.offers, OfferOffererIs(id, offerer)).Some? then
        Some(m.(offers := UpdateOne(m.offers, OfferOffererIs(id, offerer), SetAccepted()), log := m.log + [e]))
      else
        Some(m)
    case OfferPlaced(id, buyer, price) =>
      if ownerRead.None? then None
      else Some(m.(offers := PlaceBid(m.offers, id, buyer, ownerRead.value, price), log := m.log + [e]))
    case OwnershipTransferred(_, _) =>
      Some(m.(log := m.log + [e]))
  }

  /** The listener loop: events are applied in order until the stream ends or
      yields an error (both return `Ok`), or an owner read fails (`Err`). Whatever
      the stream, the mirror only evolves as `Extends` allows, by at most one log
      line per delivery. */
  function Run(m: Mirror, stream: seq<Delivery>): (r: RunResult)
    ensures Extends(m, r.mirror)
    ensures |r.mirror.log| <= |m.log| + |stream|
    decreases |stream|
  {
    if |stream| == 0 || stream[0].StreamError? then RunResult(m, true)
    else match Step(m, stream[0].event, stream[0].ownerRead)
      case None => RunResult(m, false)
      case Some(next) => Run(next, stream[1..])
  }

  // Address-level descriptions of the first match.

  ghost predicate IsFirstItem(items: seq<Item>, k: int, id: U64)
  {
    0 <= k < |items| && items[k].itemId == id && forall i :: 0 <= i < k ==> items[i].itemId != id
  }

  ghost predicate IsFirstOfferBy(offers: seq<Offer>, k: int, id: U64, offerer: Address)
  {
    && 0 <= k < |offers| && offers[k].itemId == id && offers[k].offerer == offerer
    && forall i :: 0 <= i < k ==> !(offers[i].itemId == id && offers[i].offerer == offerer)
  }

  ghost predicate IsFirstWithKey(offers: seq<Offer>, k: int, key: (U64, Address, Address))
  {
    0 <= k < |offers| && OfferKey(offers[k]) == key && forall i :: 0 <= i < k ==> OfferKey(offers[i]) != key
  }

  ghost predicate HasKey(offers: seq<Offer>, key: (U64, Address, Address))
  {
    exists k :: 0 <= k < |offers| && OfferKey(offers[k]) == key
  }

  /** `update_one` keyed on `item_id`, position by position. */
  lemma UpdateFirstItem(items: seq<Item>, id: U64, update: Item -> Item)
    ensures |UpdateOne(items, ItemIdIs(id), update)| == |items|
    ensures forall k :: 0 <= k < |items| ==>
      UpdateOne(items, ItemIdIs(id), update)[k] == if IsFirstItem(items, k, id) then update(items[k]) else items[k]
  {
  }

  /** The offerer filter of OfferAccepted finds the first offer by that offerer on that item. */
  lemma OffererFilterFindsFirst(offers: seq<Offer>, id: U64, offerer: Address)
    ensures FirstMatch(offers, OfferOffererIs(id, offerer)).None? <==>
      forall k :: 0 <= k < |offers| ==> !(offers[k].itemId == id && offers[k].offerer == offerer)
    ensures forall k :: FirstMatch(offers, OfferOffererIs(id, offerer)) == Some(k) <==> IsFirstOfferBy(offers, k, id, offerer)
  {
    forall k | 0 <= k < |offers|
      ensures OfferOffererIs(id, offerer)(offers[k]) <==> offers[k].itemId == id && offers[k].offerer == offerer
    {
      RenderInjective(offers[k].offerer, offerer);
    }
  }

  /** The key filter of OfferPlaced finds the first offer with that (item, offerer, seller). */
  lemma KeyFilterFindsFirst(offers: seq<Offer>, id: U64, buyer: Address, seller: Address)
    ensures FirstMatch(offers, OfferKeyIs(id, buyer, seller)).None? <==> !HasKey(offers, (id, buyer, seller))
    ensures forall k :: FirstMatch(offers, OfferKeyIs(id, buyer, seller)) == Some(k) <==> IsFirstWithKey(offers, k, (id, buyer, seller))
  {
    forall k | 0 <= k < |offers|
      ensures OfferKeyIs(id, buyer, seller)(offers[k]) <==> OfferKey(offers[k]) == (id, buyer, seller)
    {
      RenderInjective(offers[k].offerer, buyer);
      RenderInjective(offers[k].seller, seller);
    }
  }

  // What each event does to the mirror.

  /** CollectionAdded appends one collection whose id is the event id in decimal; nothing else changes but the log. */
  lemma CollectionAddedEffect(m: Mirror, id: U64, nftCollection: Address, ownerRead: Option<Address>)
    ensures Step(m, CollectionAdded(id, nftCollection), ownerRead).Some?
    ensures var m' := Step(m, CollectionAdded(id, nftCollection), ownerRead).value;
      && m'.collections[..|m.collections|] == m.collections
      && m'.collections[|m.collections|..] == [NftCollection(NatToString(id), nftCollection)]
      && ParseDecimal(m'.collections[|m.collections|].id) == id
      && m'.items == m.items && m'.offers == m.offers && |m'.log| == |m.log| + 1
  {
    ParseNatToString(id);
  }

  /** ItemAdded appends exactly one unlisted item without metadata; collections and offers are unchanged. */
  lemma ItemAddedEffect(m: Mirror, id: U64, nftContract: Address, tokenId: U64, owner: Address, ownerRead: Option<Address>)
    ensures Step(m, ItemAdded(id, nftContract, tokenId, owner), ownerRead).Some?
    ensures var m' := Step(m, ItemAdded(id, nftContract, tokenId, owner), ownerRead).value;
      && |m'.items| == |m.items| + 1 && m'.items[..|m.items|] == m.items
      && var it := m'.items[|m.items|];
      && it.itemId == id && it.nftContract == nftContract && it.tokenId == tokenId && it.owner == owner
      && it.price == 0 && it.name.None? && it.description.None? && it.image.None?
      && m'.collections == m.collections && m'.offers == m.offers
  {
  }

  /** ItemListed sets the price of the first item with that id and nothing else of it;
      every offer on that item is gone and the offers on other items are kept. */
  lemma {:induction false} ItemListedEffect(m: Mirror, id: U64, price: U64, ownerRead: Option<Address>)
    ensures Step(m, ItemListed(id, price), ownerRead).Some?
    ensures var m' := Step(m, ItemListed(id, price), ownerRead).value;
      && |m'.items| == |m.items|
      && (forall k :: 0 <= k < |m.items| ==>
            m'.items[k] == if IsFirstItem(m.items, k, id) then m.items[k].(price := price) else m.items[k])
      && (forall k :: 0 <= k < |m'.offers| ==> m'.offers[k].itemId != id)
      && (forall o: Offer :: o.itemId != id ==> multiset(m'.offers)[o] == multiset(m.offers)[o])
      && m'.collections == m.collections
  {
    UpdateFirstItem(m.items, id, SetPrice(price));
  }

  /** ItemSold gives the first item with that id to the buyer and unlists it; offers are untouched. */
  lemma {:induction false} ItemSoldEffect(m: Mirror, id: U64, buyer: Address, ownerRead: Option<Address>)
    ensures Step(m, ItemSold(id, buyer), ownerRead).Some?
    ensures var m' := Step(m, ItemSold(id, buyer), ownerRead).value;
      && |m'.items| == |m.items|
      && (forall k :: 0 <= k < |m.items| ==>
            m'.items[k] == if IsFirstItem(m.items, k, id) then m.items[k].(owner := buyer, price := 0) else m.items[k])
      && m'.offers == m.offers && m'.collections == m.collections
  {
    UpdateFirstItem(m.items, id, SetOwnerAndPrice(buyer, 0));
  }

  /** ItemClaimed gives the first item with that id to the claimer, keeping its price;
      afterwards no offer on that item remains, and offers on other items are kept. */
  lemma {:induction false} ItemClaimedEffect(m: Mirror, id: U64, claimer: Address, ownerRead: Option<Address>)
    ensures Step(m, ItemClaimed(id, claimer), ownerRead).Some?
    ensures var m' := Step(m, ItemClaimed(id, claimer), ownerRead).value;
      && |m'.items| == |m.items|
      && (forall k :: 0 <= k < |m.items| ==>
            m'.items[k] == if IsFirstItem(m.items, k, id) then m.items[k].(owner := claimer) else m.items[k])
      && (forall k :: 0 <= k < |m'.offers| ==> m'.offers[k].itemId != id)
      && (forall o: Offer :: o.itemId != id ==> multiset(m'.offers)[o] == multiset(m.offers)[o])
      && m'.collections == m.collections
  {
    UpdateFirstItem(m.items, id, SetOwner(claimer));
  }

  /** OfferAccepted for an offer the mirror never recorded changes nothing, not even the log. */
  lemma AcceptUnrecordedIsNoOp(m: Mirror, id: U64, offerer: Address, ownerRead: Option<Address>)
    requires forall k :: 0 <= k < |m.offers| ==> !(m.offers[k].itemId == id && m.offers[k].offerer == offerer)
    ensures Step(m, OfferAccepted(id, offerer), ownerRead) == Some(m)
  {
    OffererFilterFindsFirst(m.offers, id, offerer);
  }

  /** OfferAccepted marks only the first offer by that offerer on that item as accepted,
      keeping its price, seller and offerer. */
  lemma AcceptMarksFirstOffer(m: Mirror, id: U64, offerer: Address, j: int, ownerRead: Option<Address>)
    requires IsFirstOfferBy(m.offers, j, id, offerer)
    ensures Step(m, OfferAccepted(id, offerer), ownerRead).Some?
    ensures var m' := Step(m, OfferAccepted(id, offerer), ownerRead).value;
      && |m'.offers| == |m.offers|
      && m'.offers[j] == m.offers[j].(isAccepted := true)
      && (forall k :: 0 <= k < |m.offers| && k != j ==> m'.offers[k] == m.offers[k])
      && m'.items == m.items && m'.collections == m.collections
      && m'.log == m.log + [OfferAccepted(id, offerer)]
  {
    OffererFilterFindsFirst(m.offers, id, offerer);
  }

  /** OfferPlaced with the item owned by `seller`: an offer with key (item, buyer, seller)
      is re-priced and un-accepted in place; otherwise one new unaccepted offer is appended. */
  lemma PlaceBidEffect(offers: seq<Offer>, id: U64, buyer: Address, seller: Address, price: U64)
    ensures var r := PlaceBid(offers, id, buyer, seller, price);
      if HasKey(offers, (id, buyer, seller)) then
        && |r| == |offers|
        && forall k :: 0 <= k < |offers| ==>
             r[k] == if IsFirstWithKey(offers, k, (id, buyer, seller)) then offers[k].(price := price, isAccepted := false) else offers[k]
      else
        r == offers + [Offer(id, buyer, seller, price, false)]
  {
    KeyFilterFindsFirst(offers, id, buyer, seller);
  }

  /** OfferPlaced reads the owner from the chain; when that read fails nothing is applied,
      otherwise only the offers and the log change. */
  lemma OfferPlacedEffect(m: Mirror, id: U64, buyer: Address, price: U64, ownerRead: Option<Address>)
    ensures Step(m, OfferPlaced(id, buyer, price), ownerRead).Some? <==> ownerRead.Some?
    ensures ownerRead.Some? ==>
      var m' := Step(m, OfferPlaced(id, buyer, price), ownerRead).value;
      && m'.offers == PlaceBid(m.offers, id, buyer, ownerRead.value, price)
      && m'.items == m.items && m'.collections == m.collections
      && m'.log == m.log + [OfferPlaced(id, buyer, price)]
  {
  }

  /** OwnershipTransferred of the marketplace contract only adds a log line. */
  lemma OwnershipTransferredEffect(m: Mirror, previousOwner: Address, newOwner: Address, ownerRead: Option<Address>)
    ensures Step(m, OwnershipTransferred(previousOwner, newOwner), ownerRead)
      == Some(m.(log := m.log + [OwnershipTransferred(previousOwner, newOwner)]))
  {
  }

  // Invariants and multi-event properties.

  /** `delete_many` cannot create two offers with the same key. */
  lemma {:induction false} DeleteManyKeepsKeysUnique(offers: seq<Offer>, filter: Offer -> bool)
    requires OfferKeysUnique(offers)
    ensures OfferKeysUnique(DeleteMany(offers, filter))
  {
    if |offers| > 0 {
      var rest := offers[1..];
      assert OfferKeysUnique(rest) by {
        forall i, j | 0 <= i < j < |rest| ensures OfferKey(rest[i]) != OfferKey(rest[j]) {
          assert rest[i] == offers[i + 1] && rest[j] == offers[j + 1];
        }
      }
      DeleteManyKeepsKeysUnique(rest, filter);
      if !filter(offers[0]) {
        var r := DeleteMany(rest, filter);
        DeleteManySubset(rest, filter);
        forall k | 0 <= k < |r| ensures OfferKey(offers[0]) != OfferKey(r[k]) {
          var i :| 0 <= i < |rest| && rest[i] == r[k];
          assert offers[i + 1] == rest[i];
        }
        assert DeleteMany(offers, filter) == [offers[0]] + r;
      }
    }
  }

  /** An OfferPlaced transition keeps offer keys unique. */
  lemma PlaceBidKeepsKeysUnique(offers: seq<Offer>, id: U64, buyer: Address, seller: Address, price: U64)
    requires OfferKeysUnique(offers)
    ensures OfferKeysUnique(PlaceBid(offers, id, buyer, seller, price))
  {
    PlaceBidEffect(offers, id, buyer, seller, price);
    var r := PlaceBid(offers, id, buyer, seller, price);
    if HasKey(offers, (id, buyer, seller)) {
      assert forall k :: 0 <= k < |r| ==> OfferKey(r[k]) == OfferKey(offers[k]);
    } else {
      assert forall k :: 0 <= k < |offers| ==> r[k] == offers[k];
    }
  }

  /** Every transition keeps "no two offers share (item, offerer, seller)". */
  lemma StepKeepsOfferKeysUnique(m: Mirror, e: Event, ownerRead: Option<Address>)
    requires OfferKeysUnique(m.offers)
    requires Step(m, e, ownerRead).Some?
    ensures OfferKeysUnique(Step(m, e, ownerRead).value.offers)
  {
    match e
    case ItemListed(id, _) =>
      DeleteManyKeepsKeysUnique(m.offers, OfferItemIs(id));
    case ItemClaimed(id, _) =>
      DeleteManyKeepsKeysUnique(m.offers, OfferItemIs(id));
    case OfferAccepted(id, offerer) =>
      var r := Step(m, e, ownerRead).value.offers;
      assert forall k :: 0 <= k < |r| ==> OfferKey(r[k]) == OfferKey(m.offers[k]);
    case OfferPlaced(id, buyer, price) =>
      PlaceBidKeepsKeysUnique(m.offers, id, buyer, ownerRead.value, price);
    case _ =>
  }

  /** Two placements by one buyer on one item whose owner reads return the same seller
      leave exactly one offer with that key, carrying the second price and not accepted. */
  lemma PlacingTwiceKeepsOneOffer(m: Mirror, id: U64, buyer: Address, p1: U64, p2: U64, seller: Address)
    requires OfferKeysUnique(m.offers)
    ensures Step(m, OfferPlaced(id, buyer, p1), Some(seller)).Some?
    ensures var m1 := Step(m, OfferPlaced(id, buyer, p1), Some(seller)).value;
      Step(m1, OfferPlaced(id, buyer, p2), Some(seller)).Some? &&
      var m2 := Step(m1, OfferPlaced(id, buyer, p2), Some(seller)).value;
      && |m2.offers| == |m.offers| + (if HasKey(m.offers, (id, buyer, seller)) then 0 else 1)
      && exists j :: 0 <= j < |m2.offers| && m2.offers[j] == Offer(id, buyer, seller, p2, false)
           && forall k :: 0 <= k < |m2.offers| && k != j ==> OfferKey(m2.offers[k]) != (id, buyer, seller)
  {
    var key := (id, buyer, seller);
    var m1 := Step(m, OfferPlaced(id, buyer, p1), Some(seller)).value;
    PlaceBidEffect(m.offers, id, buyer, seller, p1);
    StepKeepsOfferKeysUnique(m, OfferPlaced(id, buyer, p1), Some(seller));
    var j: int;
    if HasKey(m.offers, key) {
      j :| 0 <= j < |m.offers| && OfferKey(m.offers[j]) == key;
    } else {
      j := |m.offers|;
    }
    assert OfferKey(m1.offers[j]) == key;
    assert IsFirstWithKey(m1.offers, j, key);
    var m2 := Step(m1, OfferPlaced(id, buyer, p2), Some(seller)).value;
    PlaceBidEffect(m1.offers, id, buyer, seller, p2);
    assert HasKey(m1.offers, key);
    assert m2.offers[j] == Offer(id, buyer, seller, p2, false);
    forall k | 0 <= k < |m2.offers| && k != j ensures OfferKey(m2.offers[k]) != key {
      assert !IsFirstWithKey(m1.offers, k, key);
      if k < j {
        assert OfferKey(m1.offers[k]) != OfferKey(m1.offers[j]);
      } else {
        assert OfferKey(m1.offers[j]) != OfferKey(m1.offers[k]);
      }
    }
  }

  /** The lookup key includes the seller: after the item changed hands, a new bid by the
      same buyer adds a second offer on the item instead of updating the first. */
  lemma NewOwnerMeansSecondOffer(m: Mirror, id: U64, buyer: Address, price: U64, j: int, seller: Address)
    requires 0 <= j < |m.offers| && m.offers[j].itemId == id && m.offers[j].offerer == buyer
    requires !HasKey(m.offers, (id, buyer, seller))
    ensures Step(m, OfferPlaced(id, buyer, price), Some(seller)).Some?
    ensures var m' := Step(m, OfferPlaced(id, buyer, price), Some(seller)).value;
      && |m'.offers| == |m.offers| + 1
      && m'.offers[j] == m.offers[j]
      && m'.offers[|m.offers|] == Offer(id, buyer, seller, price, false)
      && m'.offers[j].seller != m'.offers[|m.offers|].seller
  {
    PlaceBidEffect(m.offers, id, buyer, seller, price);
    assert OfferKey(m.offers[j]) != (id, buyer, seller);
  }

  /** Listing an item a second time at the same price leaves the store as the first listing left it. */
  lemma ListingTwiceIsListingOnce(m: Mirror, id: U64, price: U64, ownerRead: Option<Address>)
    ensures Step(m, ItemListed(id, price), ownerRead).Some?
    ensures var m1 := Step(m, ItemListed(id, price), ownerRead).value;
      Step(m1, ItemListed(id, price), ownerRead).Some? &&
      var m2 := Step(m1, ItemListed(id, price), ownerRead).value;
      m2.collections == m1.collections && m2.items == m1.items && m2.offers == m1.offers
  {
    var m1 := Step(m, ItemListed(id, price), ownerRead).value;
    ItemListedEffect(m, id, price, ownerRead);
    ItemListedEffect(m1, id, price, ownerRead);
    var m2 := Step(m1, ItemListed(id, price), ownerRead).value;
    forall k | 0 <= k < |m.items| ensures m2.items[k] == m1.items[k] {
      assert IsFirstItem(m1.items, k, id) <==> IsFirstItem(m.items, k, id);
    }
    DeleteManyNoMatch(m1.offers, OfferItemIs(id));
  }

  /** Some offer on the item was made by the offerer. */
  ghost predicate HasOfferBy(offers: seq<Offer>, id: U64, offerer: Address)
  {
    exists k :: 0 <= k < |offers| && offers[k].itemId == id && offers[k].offerer == offerer
  }

  /** Every applied event adds exactly one log line, except an OfferAccepted for an
      unrecorded offer, which adds none. */
  lemma StepLogsOneLine(m: Mirror, e: Event, ownerRead: Option<Address>)
    requires Step(m, e, ownerRead).Some?
    ensures Step(m, e, ownerRead).value.log ==
      if e.OfferAccepted? && !HasOfferBy(m.offers, e.id, e.offerer) then m.log else m.log + [e]
  {
    if e.OfferAccepted? {
      OffererFilterFindsFirst(m.offers, e.id, e.offerer);
    }
  }

  /** The listener keeps offer keys unique over any stream. */
  lemma {:induction false} RunKeepsOfferKeysUnique(m: Mirror, stream: seq<Delivery>)
    requires OfferKeysUnique(m.offers)
    ensures OfferKeysUnique(Run(m, stream).mirror.offers)
    decreases |stream|
  {
    if |stream| > 0 && stream[0].Delivered? {
      var next := Step(m, stream[0].event, stream[0].ownerRead);
      if next.Some? {
        StepKeepsOfferKeysUnique(m, stream[0].event, stream[0].ownerRead);
        RunKeepsOfferKeysUnique(next.value, stream[1..]);
      }
    }
  }

  /** Owner reads are taken event by event: a buyer who bids, sees the item sold to
      someone else, and bids again ends with two offers on the item, one per seller. */
  lemma OwnerChangeBetweenBidsGivesTwoOffers(owner: Address, buyer: Address, newOwner: Address)
    requires owner != newOwner
    ensures var r := Run(Mirror([], [], [], []),
                         [Delivered(OfferPlaced(1, buyer, 10), Some(owner)),
                          Delivered(ItemSold(1, newOwner), None),
                          Delivered(OfferPlaced(1, buyer, 20), Some(newOwner))]);
      r.ok && r.mirror.offers == [Offer(1, buyer, owner, 10, false), Offer(1, buyer, newOwner, 20, false)]
  {
    var stream := [Delivered(OfferPlaced(1, buyer, 10), Some(owner)),
                   Delivered(ItemSold(1, newOwner), None),
                   Delivered(OfferPlaced(1, buyer, 20), Some(newOwner))];
    var m0 := Mirror([], [], [], []);
    PlaceBidEffect(m0.offers, 1, buyer, owner, 10);
    var m1 := Step(m0, stream[0].event, stream[0].ownerRead).value;
    var m2 := Step(m1, stream[1].event, stream[1].ownerRead).value;
    assert m2.offers == [Offer(1, buyer, owner, 10, false)];
    PlaceBidEffect(m2.offers, 1, buyer, newOwner, 20);
    assert OfferKey(m2.offers[0]) != (1, buyer, newOwner);
    var m3 := Step(m2, stream[2].event, stream[2].ownerRead).value;
    assert m3.offers == [Offer(1, buyer, owner, 10, false), Offer(1, buyer, newOwner, 20, false)];
    assert stream[1..][1..] == [stream[2]];
    assert [stream[2]][1..] == [];
    calc {
      Run(m0, stream);
      Run(m1, stream[1..]);
      Run(m2, [stream[2]]);
      Run(m3, []);
    }
  }

  /** Nothing after the first stream error is processed: the listener ends there as if
      the stream had ended. */
  lemma {:induction false} RunStopsAtStreamError(m: Mirror, stream: seq<Delivery>, k: int)
    requires 0 <= k < |stream| && stream[k].StreamError?
    ensures Run(m, stream) == Run(m, stream[..k])
    decreases k
  {
    if k > 0 && stream[0].Delivered? {
      var next := Step(m, stream[0].event, stream[0].ownerRead);
      if next.Some? {
        assert stream[..k][1..] == stream[1..][..k - 1];
        RunStopsAtStreamError(next.value, stream[1..], k - 1);
      }
    }
  }

  /** The listener returns `Err` exactly when an OfferPlaced owner read fails before the stream stops. */
  lemma {:induction false} RunFailsOnlyOnOwnerRead(m: Mirror, stream: seq<Delivery>)
    ensures !Run(m, stream).ok <==>
      exists k :: 0 <= k < |stream| && stream[k].Delivered? && stream[k].event.OfferPlaced?
        && stream[k].ownerRead.None? && forall i :: 0 <= i < k ==> stream[i].Delivered?
    decreases |stream|
  {
    if |stream| > 0 && stream[0].Delivered? {
      var next := Step(m, stream[0].event, stream[0].ownerRead);
      if next.Some? {
        RunFailsOnlyOnOwnerRead(next.value, stream[1..]);
        var t := stream[1..];
        if !Run(m, stream).ok {
          var k :| 0 <= k < |t| && t[k].Delivered? && t[k].event.OfferPlaced?
            && t[k].ownerRead.None? && forall i :: 0 <= i < k ==> t[i].Delivered?;
          assert stream[k + 1] == t[k];
          assert forall i :: 0 < i < k + 1 ==> stream[i] == t[i - 1];
        } else {
          forall k | 0 <= k < |stream| && stream[k].Delivered? && stream[k].event.OfferPlaced?
            && stream[k].ownerRead.None?
            ensures exists i :: 0 <= i < k && stream[i].StreamError?
          {
            assert k != 0;
            assert t[k - 1] == stream[k];
            var i :| 0 <= i < k - 1 && t[i].StreamError?;
            assert stream[i + 1] == t[i];
          }
        }
      } else {
        assert stream[0].event.OfferPlaced?;
      }
    } else if |stream| > 0 {
      forall k | 0 <= k < |stream| && stream[k].Delivered?
        ensures exists i :: 0 <= i < k && stream[i].StreamError?
      {
        assert stream[0].StreamError?;
      }
    }
  }

  /** The mirror as the listener updates it: the three store collections and the
      audit log, each changed in place by one method per event kind. */
  class MirrorStore {
    var collections: seq<NftCollection>
    var items: seq<Item>
    var offers: seq<Offer>
    var log: seq<Event>

    /** The store as the backfill left it, with an empty log. */
    constructor (collections: seq<NftCollection>, items: seq<Item>, offers: seq<Offer>)
      ensures State() == Mirror(collections, items, offers, [])
    {
      this.collections := collections;
      this.items := items;
      this.offers := offers;
      this.log := [];
    }

    function State(): Mirror
      reads this
    {
      Mirror(collections, items, offers, log)
    }

    /** CollectionAdded: `insert_one` of the collection under its decimal id. */
    method AddCollection(id: U64, nftCollection: Address)
      modifies this
      ensures collections == old(collections) + [NftCollection(NatToString(id), nftCollection)]
      ensures items == old(items) && offers == old(offers)
      ensures log == old(log) + [CollectionAdded(id, nftCollection)]
    {
      collections := collections + [NftCollection(NatToString(id), nftCollection)];
      log := log + [CollectionAdded(id, nftCollection)];
    }

    /** ItemListed: set the price of the item, then delete every offer on it. */
    method ListItem(id: U64, price: U64)
      modifies this
      ensures items == UpdateOne(old(items), ItemIdIs(id), SetPrice(price))
      ensures offers == DeleteMany(old(offers), OfferItemIs(id))
      ensures collections == old(collections)
      ensures log == old(log) + [ItemListed(id, price)]
    {
      items := UpdateOne(items, ItemIdIs(id), SetPrice(price));
      offers := DeleteMany(offers, OfferItemIs(id));
      log := log + [ItemListed(id, price)];
    }

    /** ItemAdded: `insert_one` of an unlisted item without metadata. */
    method AddItem(id: U64, nftContract: Address, tokenId: U64, owner: Address)
      modifies this
      ensures items == old(items) + [Item(id, nftContract, tokenId, owner, 0, None, None, None)]
      ensures collections == old(collections) && offers == old(offers)
      ensures log == old(log) + [ItemAdded(id, nftContract, tokenId, owner)]
    {
      items := items + [Item(id, nftContract, tokenId, owner, 0, None, None, None)];
      log := log + [ItemAdded(id, nftContract, tokenId, owner)];
    }

    /** ItemSold: the buyer owns the item, which is no longer listed. */
    method SellItem(id: U64, buyer: Address)
      modifies this
      ensures items == UpdateOne(old(items), ItemIdIs(id), SetOwnerAndPrice(buyer, 0))
      ensures collections == old(collections) && offers == old(offers)
      ensures log == old(log) + [ItemSold(id, buyer)]
    {
      items := UpdateOne(items, ItemIdIs(id), SetOwnerAndPrice(buyer, 0));
      log := log + [ItemSold(id, buyer)];
    }

    /** ItemClaimed: the claimer owns the item; every offer on it is deleted. */
    method ClaimItem(id: U64, claimer: Address)
      modifies this
      ensures items == UpdateOne(old(items), ItemIdIs(id), SetOwner(claimer))
      ensures offers == DeleteMany(old(offers), OfferItemIs(id))
      ensures collections == old(collections)
      ensures log == old(log) + [ItemClaimed(id, claimer)]
    {
      items := UpdateOne(items, ItemIdIs(id), SetOwner(claimer));
      offers := DeleteMany(offers, OfferItemIs(id));
      log := log + [ItemClaimed(id, claimer)];
    }

    /** OfferAccepted: find by (item, offerer); only when found, accept it and log. */
    method AcceptOffer(id: U64, offerer: Address)
      modifies this
      ensures FirstMatch(old(offers), OfferOffererIs(id, offerer)).None? ==>
        offers == old(offers) && log == old(log)
      ensures FirstMatch(old(offers), OfferOffererIs(id, offerer)).Some? ==>
        && offers == UpdateOne(old(offers), OfferOffererIs(id, offerer), SetAccepted())
        && log == old(log) + [OfferAccepted(id, offerer)]
      ensures collections == old(collections) && items == old(items)
    {
      var found := FirstMatch(offers, OfferOffererIs(id, offerer));
      if found.Some? {
        offers := UpdateOne(offers, OfferOffererIs(id, offerer), SetAccepted());
        log := log + [OfferAccepted(id, offerer)];
      }
    }

    /** OfferPlaced: with the item's owner as the chain read returned it, find by
        (item, buyer, seller) and update or insert. Returns false, having written
        nothing, when the read failed. */
    method PlaceOffer(id: U64, buyer: Address, price: U64, ownerRead: Option<Address>) returns (ok: bool)
      modifies this
      ensures ok == ownerRead.Some?
      ensures ok ==> offers == PlaceBid(old(offers), id, buyer, ownerRead.value, price)
      ensures ok ==> log == old(log) + [OfferPlaced(id, buyer, price)]
      ensures !ok ==> offers == old(offers) && log == old(log)
      ensures collections == old(collections) && items == old(items)
    {
      if ownerRead.None? {
        return false;
      }
      var seller := ownerRead.value;
      var found := FirstMatch(offers, OfferKeyIs(id, buyer, seller));
      if found.Some? {
        offers := UpdateOne(offers, OfferKeyIs(id, buyer, seller), SetBid(price));
      } else {
        offers := offers + [Offer(id, buyer, seller, price, false)];
      }
      log := log + [OfferPlaced(id, buyer, price)];
      ok := true;
    }

    /** OwnershipTransferred: only the log line. */
    method TransferOwnership(previousOwner: Address, newOwner: Address)
      modifies this
      ensures collections == old(collections) && items == old(items) && offers == old(offers)
      ensures log == old(log) + [OwnershipTransferred(previousOwner, newOwner)]
    {
      log := log + [OwnershipTransferred(previousOwner, newOwner)];
    }

    /** The `match evt` dispatch: one event, one transition. */
    method Handle(e: Event, ownerRead: Option<Address>) returns (ok: bool)
      modifies this
      ensures ok == Step(old(State()), e, ownerRead).Some?
      ensures ok ==> State() == Step(old(State()), e, ownerRead).value
      ensures !ok ==> State() == old(State())
    {
      ok := true;
      match e
      case CollectionAdded(id, nftCollection) => AddCollection(id, nftCollection);
      case ItemListed(id, price) => ListItem(id, price);
      case ItemAdded(id, nftContract, tokenId, owner) => AddItem(id, nftContract, tokenId, owner);
      case ItemSold(id, buyer) => SellItem(id, buyer);
      case ItemClaimed(id, claimer) => ClaimItem(id, claimer);
      case OfferAccepted(id, offerer) => AcceptOffer(id, offerer);
      case OfferPlaced(id, buyer, price) => ok := PlaceOffer(id, buyer, price, ownerRead);
      case OwnershipTransferred(previousOwner, newOwner) => TransferOwnership(previousOwner, newOwner);
    }

    /** `listen_for_events`: consume the stream in order until it ends or errors
        (returning true, for `Ok`) or an owner read fails (returning false, for `Err`). */
    method Listen(stream: seq<Delivery>) returns (ok: bool)
      modifies this
      ensures RunResult(State(), ok) == Run(old(State()), stream)
    {
      var i := 0;
      while i < |stream| && stream[i].Delivered?
        invariant 0 <= i <= |stream|
        invariant Run(State(), stream[i..]) == Run(old(State()), stream)
      {
        assert stream[i..][1..] == stream[i + 1..];
        var handled := Handle(stream[i].event, stream[i].ownerRead);
        if !handled {
          return false;
        }
        i := i + 1;
      }
      ok := true;
    }
  }
}

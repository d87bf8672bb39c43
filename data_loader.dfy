/** The backfill of `initila_data`: one read per on-chain slot, each turned into
    a document, all-or-nothing. The spawned tasks share no state, so they are
    run here one after the other, in index order. */
module DataLoader {
  import opened Primitives
  import opened Decimal
  import opened Models

  /** The contract reads the backfill issues; None stands for a failed RPC call. */
  datatype Gateway = Gateway(
    collectionCount: Option<U64>,
    itemCount: Option<U64>,
    collections: nat -> Option<Address>,
    items: nat -> Option<ItemRecord>,
    offerers: nat -> Option<seq<Address>>,
    offers: (nat, Address) -> Option<OfferRecord>)

  /** How a backfill call ends: it returns `Ok` or `Err`, or an `unwrap` panics. */
  datatype Outcome<+T> = Ok(value: T) | Err | Panic

  /** The chain fields of an item document, as `items(i)` returns them. */
  function ChainRecord(it: Item): ItemRecord
  {
    ItemRecord(it.itemId, it.nftContract, it.tokenId, it.owner, it.price)
  }

  /** The item document for an `items(i)` record: every chain field kept, no metadata. */
  function ItemDoc(rec: ItemRecord): (r: Item)
    ensures ChainRecord(r) == rec
    ensures r.name.None? && r.description.None? && r.image.None?
  {
    Item(rec.itemId, rec.nftContract, rec.tokenId, rec.owner, rec.price, None, None, None)
  }

  /** The offer document for an `offers(itemId, offerer)` record: the offerer asked
      about, and every field of the record but the NFT contract and token. */
  function OfferDoc(rec: OfferRecord, offerer: Address): (r: Offer)
    ensures r.offerer == offerer
    ensures OfferRecord(r.itemId, rec.nftContract, rec.tokenId, r.seller, r.price, r.isAccepted) == rec
  {
    Offer(rec.itemId, offerer, rec.seller, rec.price, rec.isAccepted)
  }

  // One spawned task each: a single read, turned into a document; None when the read failed.

  /** The task for collection slot `i`: its id reads back as `i` in decimal. */
  function CollectionTask(g: Gateway, i: nat): (r: Option<NftCollection>)
    ensures r.None? <==> g.collections(i).None?
    ensures r.Some? ==> IsDecimal(r.value.id) && ParseDecimal(r.value.id) == i && g.collections(i) == Some(r.value.nftCollection)
  {
    match g.collections(i)
    case None => None
    case Some(address) =>
      ParseNatToString(i);
      Some(NftCollection(NatToString(i), address))
  }

  /** The task for item slot `i`: the document holds the record and no metadata. */
  function ItemTask(g: Gateway, i: nat): (r: Option<Item>)
    ensures r.None? <==> g.items(i).None?
    ensures r.Some? ==> g.items(i) == Some(ChainRecord(r.value))
    ensures r.Some? ==> r.value.name.None? && r.value.description.None? && r.value.image.None?
  {
    match g.items(i)
    case None => None
    case Some(rec) => Some(ItemDoc(rec))
  }

  /** The task for one offerer of an item: the document is keyed by the record's item
      and seller and the offerer asked about, with the record's price and status. */
  function OfferTask(g: Gateway, itemId: nat, offerer: Address): (r: Option<Offer>)
    ensures r.None? <==> g.offers(itemId, offerer).None?
    ensures r.Some? ==>
      var rec := g.offers(itemId, offerer).value;
      && OfferKey(r.value) == (rec.itemId, offerer, rec.seller)
      && r.value.price == rec.price && r.value.isAccepted == rec.isAccepted
  {
    match g.offers(itemId, offerer)
    case None => None
    case Some(rec) => Some(OfferDoc(rec, offerer))
  }

  /** The `HashSet` round trip: every address once, in some order. */
  function Unique(addresses: seq<Address>): (u: seq<Address>)
    ensures NoDuplicates(u)
    ensures forall a :: a in u <==> a in addresses
    ensures |u| <= |addresses|
  {
    if |addresses| == 0 then []
    else if addresses[0] in addresses[1..] then Unique(addresses[1..])
    else [addresses[0]] + Unique(addresses[1..])
  }

  /** `results.into_iter().map(|res| res.unwrap()).collect()`: every value in order,
      or a panic if any task failed. */
  method UnwrapAll<T>(results: seq<Option<T>>) returns (r: Outcome<seq<T>>)
    ensures !r.Err?
    ensures r.Panic? <==> exists k :: 0 <= k < |results| && results[k].None?
    ensures r.Ok? ==> |r.value| == |results| && forall k :: 0 <= k < |results| ==> results[k] == Some(r.value[k])
  {
    var values: seq<T> := [];
    for k := 0 to |results|
      invariant |values| == k
      invariant forall i :: 0 <= i < k ==> results[i] == Some(values[i])
    {
      if results[k].None? {
        return Panic;
      }
      values := values + [results[k].value];
    }
    return Ok(values);
  }

  /** `get_all_collections`: one document per index 1..=count, with id the index in decimal. */
  method GetAllCollections(g: Gateway) returns (r: Outcome<seq<NftCollection>>)
    ensures r.Err? <==> g.collectionCount.None?
    ensures r.Panic? <==>
      g.collectionCount.Some? && exists i :: 1 <= i <= g.collectionCount.value && g.collections(i).None?
    ensures r.Ok? ==> g.collectionCount.Some? && |r.value| == g.collectionCount.value
    ensures r.Ok? ==> forall k :: 0 <= k < |r.value| ==>
      r.value[k].id == NatToString(k + 1) && g.collections(k + 1) == Some(r.value[k].nftCollection)
    ensures r.Ok? ==> forall i, j :: 0 <= i < j < |r.value| ==> r.value[i].id != r.value[j].id
  {
    if g.collectionCount.None? {
      return Err;
    }
    var count: nat := g.collectionCount.value;
    var handles: seq<Option<NftCollection>> := [];
    for i := 1 to count + 1
      invariant |handles| == i - 1
      invariant forall k :: 0 <= k < |handles| ==> handles[k] == CollectionTask(g, k + 1)
    {
      handles := handles + [CollectionTask(g, i)];
    }
    r := UnwrapAll(handles);
    if r.Panic? {
      var k :| 0 <= k < |handles| && handles[k].None?;
      assert g.collections(k + 1).None?;
    } else {
      forall i | 1 <= i <= count ensures g.collections(i).Some? {
        assert handles[i - 1].Some?;
      }
      forall i, j | 0 <= i < j < |r.value| ensures r.value[i].id != r.value[j].id {
        NatToStringInjective(i + 1, j + 1);
      }
    }
  }

  /** `get_all_items`: one item document per index 1..=count, copied from `items(i)`. */
  method GetAllItems(g: Gateway) returns (r: Outcome<seq<Item>>)
    ensures r.Err? <==> g.itemCount.None?
    ensures r.Panic? <==> g.itemCount.Some? && exists i :: 1 <= i <= g.itemCount.value && g.items(i).None?
    ensures r.Ok? ==> g.itemCount.Some? && |r.value| == g.itemCount.value
    ensures r.Ok? ==> forall k :: 0 <= k < |r.value| ==> g.items(k + 1).Some? && r.value[k] == ItemDoc(g.items(k + 1).value)
  {
    if g.itemCount.None? {
      return Err;
    }
    var count: nat := g.itemCount.value;
    var handles: seq<Option<Item>> := [];
    for i := 1 to count + 1
      invariant |handles| == i - 1
      invariant forall k :: 0 <= k < |handles| ==> handles[k] == ItemTask(g, k + 1)
    {
      handles := handles + [ItemTask(g, i)];
    }
    r := UnwrapAll(handles);
    if r.Panic? {
      var k :| 0 <= k < |handles| && handles[k].None?;
      assert g.items(k + 1).None?;
    } else {
      forall i | 1 <= i <= count ensures g.items(i).Some? {
        assert handles[i - 1].Some?;
      }
    }
  }

  /** The offerers of a list of offers, in order. */
  function Offerers(offers: seq<Offer>): seq<Address>
  {
    seq(|offers|, k requires 0 <= k < |offers| => offers[k].offerer)
  }

  /** Some offer read for the item failed. */
  predicate OfferReadFails(g: Gateway, itemId: nat)
  {
    g.offerers(itemId).Some? && exists a :: a in g.offerers(itemId).value && g.offers(itemId, a).None?
  }

  /** `list` holds one offer per distinct offerer of the item, each built from its own record. */
  ghost predicate OffersOfItem(g: Gateway, itemId: nat, list: seq<Offer>)
  {
    && g.offerers(itemId).Some?
    && NoDuplicates(Offerers(list))
    && (forall a :: a in Offerers(list) <==> a in g.offerers(itemId).value)
    && forall k :: 0 <= k < |list| ==>
         g.offers(itemId, list[k].offerer).Some? && list[k] == OfferDoc(g.offers(itemId, list[k].offerer).value, list[k].offerer)
  }

  /** `get_offers`: the offers of one item, one per distinct offerer. */
  method GetOffers(g: Gateway, itemId: nat) returns (r: Outcome<seq<Offer>>)
    ensures r.Err? <==> g.offerers(itemId).None?
    ensures r.Panic? <==> OfferReadFails(g, itemId)
    ensures r.Ok? ==> OffersOfItem(g, itemId, r.value) && |r.value| <= |g.offerers(itemId).value|
    ensures g.offerers(itemId) == Some([]) ==> r == Ok([])
  {
    if g.offerers(itemId).None? {
      return Err;
    }
    var unique := Unique(g.offerers(itemId).value);
    var handles: seq<Option<Offer>> := [];
    for k := 0 to |unique|
      invariant |handles| == k
      invariant forall i :: 0 <= i < k ==> handles[i] == OfferTask(g, itemId, unique[i])
    {
      handles := handles + [OfferTask(g, itemId, unique[k])];
    }
    r := UnwrapAll(handles);
    if r.Panic? {
      var k :| 0 <= k < |handles| && handles[k].None?;
      assert unique[k] in g.offerers(itemId).value;
    } else {
      assert Offerers(r.value) == unique;
    }
  }

  /** What one `get_offers` task ends with, as GetOffers states it. */
  ghost predicate ItemOffersOutcome(g: Gateway, itemId: nat, r: Outcome<seq<Offer>>)
  {
    && (r.Err? <==> g.offerers(itemId).None?)
    && (r.Panic? <==> OfferReadFails(g, itemId))
    && (r.Ok? ==> OffersOfItem(g, itemId, r.value))
  }

  /** `get_all_offers`: one list per item 1..=count. A task whose `get_offers` panicked
      fails `try_join_all`, which returns `Err`; a task whose `get_offers` returned `Err`
      makes the final `unwrap` panic. */
  method GetAllOffers(g: Gateway) returns (r: Outcome<seq<seq<Offer>>>)
    ensures r.Err? <==>
      g.itemCount.None? || exists i :: 1 <= i <= g.itemCount.value && OfferReadFails(g, i)
    ensures r.Panic? <==>
      && g.itemCount.Some?
      && (forall i :: 1 <= i <= g.itemCount.value ==> !OfferReadFails(g, i))
      && exists i :: 1 <= i <= g.itemCount.value && g.offerers(i).None?
    ensures r.Ok? ==> g.itemCount.Some? && |r.value| == g.itemCount.value
    ensures r.Ok? ==> forall k :: 0 <= k < |r.value| ==> OffersOfItem(g, k + 1, r.value[k])
    ensures r.Ok? ==> forall k :: 0 <= k < |r.value| && g.offerers(k + 1) == Some([]) ==> r.value[k] == []
  {
    if g.itemCount.None? {
      return Err;
    }
    var count: nat := g.itemCount.value;
    var handles: seq<Outcome<seq<Offer>>> := [];
    for i := 1 to count + 1
      invariant |handles| == i - 1
      invariant forall k :: 0 <= k < |handles| ==> ItemOffersOutcome(g, k + 1, handles[k])
      invariant forall k :: 0 <= k < |handles| && g.offerers(k + 1) == Some([]) ==> handles[k] == Ok([])
    {
      var offers := GetOffers(g, i);
      handles := handles + [offers];
    }
    for k := 0 to |handles|
      invariant forall i :: 0 <= i < k ==> !handles[i].Panic?
    {
      if handles[k].Panic? {
        assert OfferReadFails(g, k + 1);
        return Err;
      }
    }
    var all: seq<seq<Offer>> := [];
    for k := 0 to |handles|
      invariant |all| == k
      invariant forall i :: 0 <= i < k ==> handles[i] == Ok(all[i])
    {
      if handles[k].Err? {
        assert g.offerers(k + 1).None?;
        forall i | 1 <= i <= count ensures !OfferReadFails(g, i) {
          assert !handles[i - 1].Panic?;
        }
        return Panic;
      }
      all := all + [handles[k].value];
    }
    forall i | 1 <= i <= count ensures g.offerers(i).Some? && !OfferReadFails(g, i) {
      assert handles[i - 1].Ok?;
    }
    return Ok(all);
  }
}

/** The three mirrored documents and the chain records they are built from. */
module Models {
  import opened Primitives

  /** `NFTCollection`: the decimal id under which the collection is registered and its address. */
  datatype NftCollection = NftCollection(id: string, nftCollection: Address)

  /** `Item`: keyed by `itemId`; `price == 0` means not listed. Metadata stays absent in this core. */
  datatype Item = Item(
    itemId: U64,
    nftContract: Address,
    tokenId: U64,
    owner: Address,
    price: U64,
    name: Option<string>,
    description: Option<string>,
    image: Option<string>)

  /** `Offer`: one bid by `offerer` on item `itemId`, made while `seller` owned it. */
  datatype Offer = Offer(itemId: U64, offerer: Address, seller: Address, price: U64, isAccepted: bool)

  /** The tuple returned by the contract's `items(i)` getter. */
  datatype ItemRecord = ItemRecord(itemId: U64, nftContract: Address, tokenId: U64, owner: Address, price: U64)

  /** The tuple returned by the contract's `offers(itemId, offerer)` getter. */
  datatype OfferRecord = OfferRecord(
    itemId: U64,
    nftContract: Address,
    tokenId: U64,
    seller: Address,
    price: U64,
    isAccepted: bool)

  /** The lookup key of an offer in the listener's OfferPlaced filter. */
  function OfferKey(o: Offer): (U64, Address, Address)
  {
    (o.itemId, o.offerer, o.seller)
  }

  /** No two offer documents share (item, offerer, seller). */
  predicate OfferKeysUnique(offers: seq<Offer>)
  {
    forall i, j :: 0 <= i < j < |offers| ==> OfferKey(offers[i]) != OfferKey(offers[j])
  }
}

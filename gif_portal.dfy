/**
 * The on-chain GIF portal program: the records it stores (`ItemStruct`,
 * `BaseAccount`), the size of their Borsh encoding inside the account's
 * fixed 9000-byte allocation, and the two instruction handlers
 * `start_stuff_off` and `add_gif`, which update a `BaseAccount` in place.
 */
module GifPortal {

  /** An unsigned byte. */
  newtype byte = b: int | 0 <= b < 256

  /** Rust's `u64`, the type of `total_gifs`. */
  newtype u64 = x: int | 0 <= x < 0x1_0000_0000_0000_0000

  const U64_MAX: u64 := 0xFFFF_FFFF_FFFF_FFFF

  /** A Solana public key: 32 opaque bytes. */
  const PUBKEY_LEN: nat := 32
  type Pubkey = k: seq<byte> | |k| == PUBKEY_LEN witness seq(32, _ => 0)

  /** One entry of the list: the link (the UTF-8 bytes of a Rust `String`) and its submitter. */
  datatype ItemStruct = ItemStruct(gifLink: seq<byte>, userAddress: Pubkey)

  /** The value held by a `BaseAccount`. */
  datatype AccountData = AccountData(totalGifs: u64, gifList: seq<ItemStruct>)

  /** The counter agrees with the list: what the two instructions maintain together. */
  predicate Consistent(d: AccountData) {
    d.totalGifs as int == |d.gifList|
  }

  /** What a freshly `init`-created, zero-filled account decodes to. */
  const ZEROED: AccountData := AccountData(0, [])

  // ---------------------------------------------------------------------------
  // Borsh layout of the account and its fixed allocation

  /** Anchor's account discriminator. */
  const DISCRIMINATOR_LEN: nat := 8
  /** A `u64` field. */
  const U64_LEN: nat := 8
  /** The `u32` length prefix of a `Vec` or a `String`. */
  const LEN_PREFIX: nat := 4
  /** `space = 9000` in the `init` constraint. */
  const SPACE: nat := 9000

  /** Discriminator, `total_gifs` and the length of `gif_list`. */
  const HEADER_LEN: nat := DISCRIMINATOR_LEN + U64_LEN + LEN_PREFIX
  /** An item whose link is empty: the link's length prefix and the key. */
  const MIN_ITEM_LEN: nat := LEN_PREFIX + PUBKEY_LEN
  /** The most items that can fit in the allocation. */
  const MAX_ITEMS: nat := 249

  function ItemLen(item: ItemStruct): nat {
    LEN_PREFIX + |item.gifLink| + PUBKEY_LEN
  }

  function ListLen(items: seq<ItemStruct>): nat {
    if items == [] then 0 else ListLen(items[..|items| - 1]) + ItemLen(items[|items| - 1])
  }

  function SerializedLen(d: AccountData): nat {
    HEADER_LEN + ListLen(d.gifList)
  }

  /** The account can be written back into its allocation. */
  predicate Fits(d: AccountData) {
    SerializedLen(d) <= SPACE
  }

  // ---------------------------------------------------------------------------
  // The effect of each handler on the account, as values

  /** `start_stuff_off`: the counter is set to 0, nothing else is touched. */
  function StartStuffOffEffect(d: AccountData): (r: AccountData)
    ensures r.totalGifs == 0 && r.gifList == d.gifList
    ensures d.gifList == [] ==> Consistent(r)
  {
    d.(totalGifs := 0)
  }

  /** `add_gif`: push one item built from the link and the signer, then count it. */
  function AddGifEffect(d: AccountData, gifLink: seq<byte>, user: Pubkey): (r: AccountData)
    requires d.totalGifs < U64_MAX
    ensures |r.gifList| == |d.gifList| + 1
    ensures forall i :: 0 <= i < |d.gifList| ==> r.gifList[i] == d.gifList[i]
    ensures r.gifList[|d.gifList|].gifLink == gifLink
    ensures r.gifList[|d.gifList|].userAddress == user
    ensures r.totalGifs as int == d.totalGifs as int + 1
    ensures Consistent(d) ==> Consistent(r)
  {
    AccountData(d.totalGifs + 1, d.gifList + [ItemStruct(gifLink, user)])
  }

  // ---------------------------------------------------------------------------
  // Lemmas about the layout

  /** Appending an item adds exactly its own encoded length. */
  lemma ListLenAppend(items: seq<ItemStruct>, item: ItemStruct)
    ensures ListLen(items + [item]) == ListLen(items) + ItemLen(item)
  {
  }

  /** Every item takes at least `MIN_ITEM_LEN` bytes. */
  lemma {:induction false} ListLenAtLeast(items: seq<ItemStruct>)
    ensures ListLen(items) >= MIN_ITEM_LEN * |items|
  {
    if items != [] {
      ListLenAtLeast(items[..|items| - 1]);
    }
  }

  /** An account that fits its allocation holds at most `MAX_ITEMS` items; with empty links `MAX_ITEMS` items do fit, one more does not. */
  lemma FitsBoundsItems(d: AccountData)
    ensures Fits(d) ==> |d.gifList| <= MAX_ITEMS
    ensures HEADER_LEN + MIN_ITEM_LEN * MAX_ITEMS <= SPACE < HEADER_LEN + MIN_ITEM_LEN * (MAX_ITEMS + 1)
  {
    ListLenAtLeast(d.gifList);
  }

  /** `total_gifs += 1` cannot overflow on an account that is consistent and fits its allocation. */
  lemma NoOverflow(d: AccountData)
    requires Consistent(d) && Fits(d)
    ensures d.totalGifs < U64_MAX
  {
    FitsBoundsItems(d);
  }

  /** The account written by `start_stuff_off` on a fresh allocation is consistent and fits. */
  lemma StartStuffOffFits()
    ensures Consistent(StartStuffOffEffect(ZEROED)) && Fits(StartStuffOffEffect(ZEROED))
    ensures StartStuffOffEffect(ZEROED) == AccountData(0, [])
  {
  }

  // ---------------------------------------------------------------------------
  // The account as the handlers see it: mutated in place

  class BaseAccount {
    var totalGifs: u64
    var gifList: seq<ItemStruct>

    function Data(): AccountData
      reads this
    {
      AccountData(totalGifs, gifList)
    }

    /** The account `init` allocates: zero-filled, so the counter is 0 and the list empty. */
    constructor ()
      ensures Data() == ZEROED
    {
      totalGifs := 0;
      gifList := [];
    }

    /** `start_stuff_off`: assigns `total_gifs = 0` on the account it is given. */
    method StartStuffOff()
      modifies this
      ensures Data() == StartStuffOffEffect(old(Data()))
      ensures totalGifs == 0 && gifList == old(gifList)
      ensures old(gifList) == [] ==> Consistent(Data())
    {
      totalGifs := 0;
    }

    /** `add_gif`: pushes an item built from the link and the signer's key, then increments the counter. */
    method AddGif(gifLink: seq<byte>, user: Pubkey)
      requires totalGifs < U64_MAX
      modifies this
      ensures Data() == AddGifEffect(old(Data()), gifLink, user)
      ensures gifList == old(gifList) + [ItemStruct(gifLink, user)]
      ensures totalGifs as int == old(totalGifs) as int + 1
      ensures Consistent(old(Data())) ==> Consistent(Data())
    {
      var item := ItemStruct(gifLink, user);
      gifList := gifList + [item];
      totalGifs := totalGifs + 1;
    }
  }
}

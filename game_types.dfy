/** The server's item and block records, as far as the validators read them. */
module Game {
  import opened Wrappers

  /** An item asset: its id and its category list, which may be absent. */
  datatype Item = Item(id: string, categories: Option<seq<string>>)

  /** A stack: the id of its item, the block key of a placeable item, and the item asset once resolved. */
  datatype ItemStack = ItemStack(itemId: string, blockKey: Option<string>, item: Option<Item>)

  /** A block type: its id and the item that places it, if any. */
  datatype BlockType = BlockType(id: string, item: Option<Item>)
}

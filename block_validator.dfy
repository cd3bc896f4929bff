/**
 * BlockValidator: like EntityValidator, except that an empty block id is
 * always valid and an empty set admits nothing else.
 */
module BlockValidation {
  import opened Wrappers
  import opened Game
  import EntityValidation

  datatype BlockValidator = BlockValidator(blockIds: set<string>) {
    /** isValid(String): a missing id is invalid, the empty id always valid. */
    predicate IsValidId(blockId: Option<string>)
      ensures IsValidId(blockId) ==> blockId.Some?
      ensures blockId == Some("") ==> IsValidId(blockId)
    {
      blockId.Some? && (blockId.value == "" || blockId.value in blockIds || "*" in blockIds)
    }

    /** isValid(ItemStack): a missing stack is invalid, otherwise its block key decides. */
    predicate IsValidStack(itemStack: Option<ItemStack>)
      ensures IsValidStack(itemStack) ==> itemStack.Some? && itemStack.value.blockKey.Some?
    {
      itemStack.Some? && IsValidId(itemStack.value.blockKey)
    }

    /** isValid(BlockType): a missing block is invalid, otherwise its id decides. */
    predicate IsValidBlock(blockType: Option<BlockType>)
      ensures IsValidBlock(blockType) ==> blockType.Some?
    {
      blockType.Some? && IsValidId(Some(blockType.value.id))
    }
  }

  /** The field initialiser: the set {"*"}. */
  const DEFAULT: BlockValidator := BlockValidator({"*"})

  /** A non-empty id is valid exactly when the set names it or holds the wildcard. */
  lemma IdRule(v: BlockValidator, id: string)
    requires id != ""
    ensures v.IsValidId(Some(id)) <==> id in v.blockIds || "*" in v.blockIds
  {
  }

  /** An empty set admits only the empty id, where an empty entity set admits every id. */
  lemma EmptySetContrast(id: string)
    ensures BlockValidator({}).IsValidId(Some(id)) <==> id == ""
    ensures EntityValidation.EntityValidator({}).IsValidId(Some(id))
  {
  }

  /** The default validator accepts every present id, every stack with a block key, and every block. */
  lemma DefaultAcceptsAll(id: string, stack: ItemStack, block: BlockType)
    ensures DEFAULT.IsValidId(Some(id)) && DEFAULT.IsValidBlock(Some(block))
    ensures DEFAULT.IsValidStack(Some(stack)) <==> stack.blockKey.Some?
  {
  }

  /** The stack overload reads the block key, not the item id as EntityValidator does. */
  lemma StackUsesBlockKey(v: BlockValidator, stack: ItemStack)
    ensures v.IsValidStack(Some(stack)) == v.IsValidId(stack.blockKey)
    ensures !v.IsValidStack(None) && !v.IsValidBlock(None)
  {
  }
}

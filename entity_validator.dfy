/**
 * EntityValidator: plain set membership with the wildcard `*` and no regex;
 * an empty set accepts every id.
 */
module EntityValidation {
  import opened Wrappers
  import opened Game

  datatype EntityValidator = EntityValidator(entityIds: set<string>) {
    /** isValid(String): a missing id is invalid. */
    predicate IsValidId(itemId: Option<string>)
      ensures IsValidId(itemId) ==> itemId.Some?
    {
      itemId.Some? && (entityIds == {} || itemId.value in entityIds || "*" in entityIds)
    }

    /** isValid(ItemStack): a missing stack is invalid, otherwise its item id decides. */
    predicate IsValidStack(itemStack: Option<ItemStack>)
      ensures IsValidStack(itemStack) ==> itemStack.Some?
    {
      itemStack.Some? && IsValidId(Some(itemStack.value.itemId))
    }

    /** isValid(BlockType): a missing block or a block with no item is invalid; otherwise the item's id decides. */
    predicate IsValidBlock(blockType: Option<BlockType>)
      ensures IsValidBlock(blockType) ==> blockType.Some? && blockType.value.item.Some?
    {
      blockType.Some? && blockType.value.item.Some? && IsValidId(Some(blockType.value.item.value.id))
    }
  }

  /** The field initialiser: the set {"*"}. */
  const DEFAULT: EntityValidator := EntityValidator({"*"})

  /** A present id is valid exactly when the set is empty, names it, or holds the wildcard. */
  lemma IdRule(v: EntityValidator, id: string)
    ensures v.IsValidId(Some(id)) <==> v.entityIds == {} || id in v.entityIds || "*" in v.entityIds
    ensures !v.IsValidId(None)
  {
  }

  /** The default validator accepts every present id, stack, and block with an item. */
  lemma DefaultAcceptsAll(id: string, stack: ItemStack, block: BlockType)
    ensures DEFAULT.IsValidId(Some(id)) && DEFAULT.IsValidStack(Some(stack))
    ensures DEFAULT.IsValidBlock(Some(block)) <==> block.item.Some?
  {
  }

  /** A `regex:` entry is an ordinary string here: it admits only itself. */
  lemma NoRegexSupport(pattern: string, id: string)
    requires id != "regex:" + pattern
    ensures EntityValidator({"regex:" + pattern}).IsValidId(Some("regex:" + pattern))
    ensures !EntityValidator({"regex:" + pattern}).IsValidId(Some(id))
  {
  }

  /** The stack and block overloads reduce to the id check. */
  lemma OverloadsDelegate(v: EntityValidator, stack: ItemStack, block: BlockType)
    ensures v.IsValidStack(Some(stack)) == v.IsValidId(Some(stack.itemId))
    ensures block.item.Some? ==> v.IsValidBlock(Some(block)) == v.IsValidId(Some(block.item.value.id))
    ensures !v.IsValidStack(None) && !v.IsValidBlock(None)
  {
  }
}

/**
 * ItemStackValidator: ids go through ValidatorUtil.match (wildcard, direct
 * and regex entries); a stack passes through its categories first; every
 * exception while checking a stack becomes false.
 */
module ItemStackValidation {
  import opened Wrappers
  import opened JavaData
  import opened Game
  import opened ValidatorUtil

  /**
   * The validator's id set; `order` is the set's iteration order, which
   * match walks when it tries the regex entries.
   */
  datatype ItemStackValidator = ItemStackValidator(itemIds: set<string>, order: seq<string>) {
    ghost predicate Valid() {
      Enumerates(order, itemIds)
    }

    /** isValid(String): match against the id set; a bad pattern's exception propagates. */
    function IsValidId(itemId: string, re: RegexEngine): (r: Result<bool>)
      ensures r.Err? ==> r.error.PatternSyntax?
    {
      MatchValue(itemId, itemIds, order, re)
    }

    /** isValid(BlockType): a block with no item is invalid, otherwise its item's id decides. */
    function IsValidBlock(blockType: BlockType, re: RegexEngine): (r: Result<bool>)
      ensures blockType.item.None? ==> r == Ok(false)
      ensures blockType.item.Some? ==> r == IsValidId(blockType.item.value.id, re)
    {
      if blockType.item.None? then Ok(false) else IsValidId(blockType.item.value.id, re)
    }

    /**
     * The category loop: the first category that matches ends it with true;
     * an exception from match leaves it.
     */
    function CategoryScan(categories: seq<string>, re: RegexEngine): (r: Result<bool>)
      ensures r.Err? ==> r.error.PatternSyntax?
    {
      if categories == [] then Ok(false)
      else
        var m := IsValidId(categories[0], re);
        if m.Err? || m.value then m else CategoryScan(categories[1..], re)
    }

    /**
     * isValid(ItemStack): getItem() of a stack with no item throws, and so
     * does match on a bad pattern; the catch turns both into false.
     */
    predicate StackValid(itemStack: ItemStack, re: RegexEngine) {
      if itemStack.item.None? then false
      else
        var scan := if itemStack.item.value.categories.None? then Ok(false)
                    else CategoryScan(itemStack.item.value.categories.value, re);
        if scan.Err? then false
        else if scan.value then true
        else IsValidId(itemStack.itemId, re) == Ok(true)
    }
  }

  /** The field initialiser: the set {"*"}. */
  const DEFAULT: ItemStackValidator := ItemStackValidator({"*"}, ["*"])

  /** The id overload, through ValidatorUtil.Match. */
  method IsValidIdOf(v: ItemStackValidator, itemId: string, re: RegexEngine) returns (r: Result<bool>)
    requires v.Valid()
    ensures r == v.IsValidId(itemId, re)
  {
    r := Match(itemId, v.itemIds, v.order, re);
  }

  /** isValid(ItemStack): the category loop with its early return, then the id check, inside the catch-all. */
  method IsValidStack(v: ItemStackValidator, itemStack: ItemStack, re: RegexEngine) returns (valid: bool)
    requires v.Valid()
    ensures valid == v.StackValid(itemStack, re)
  {
    if itemStack.item.None? {
      return false;
    }
    var categories := itemStack.item.value.categories;
    if categories.Some? {
      var cs := categories.value;
      var i := 0;
      while i < |cs|
        invariant 0 <= i <= |cs|
        invariant v.CategoryScan(cs, re) == v.CategoryScan(cs[i..], re)
      {
        assert cs[i..][1..] == cs[i + 1..];
        var m := Match(cs[i], v.itemIds, v.order, re);
        if m.Err? {
          return false;
        }
        if m.value {
          return true;
        }
        i := i + 1;
      }
    }
    var r := Match(itemStack.itemId, v.itemIds, v.order, re);
    valid := r == Ok(true);
  }

  /** isValid(BlockType), through ValidatorUtil.Match. */
  method IsValidBlockOf(v: ItemStackValidator, blockType: BlockType, re: RegexEngine) returns (r: Result<bool>)
    requires v.Valid()
    ensures r == v.IsValidBlock(blockType, re)
  {
    if blockType.item.None? {
      return Ok(false);
    }
    r := Match(blockType.item.value.id, v.itemIds, v.order, re);
  }

  /** The scan is true when some category matches and every earlier one returned false. */
  lemma {:induction false} FirstMatchingCategory(v: ItemStackValidator, cs: seq<string>, k: nat, re: RegexEngine)
    requires k < |cs| && v.IsValidId(cs[k], re) == Ok(true)
    requires forall j :: 0 <= j < k ==> v.IsValidId(cs[j], re) == Ok(false)
    ensures v.CategoryScan(cs, re) == Ok(true)
  {
    if k > 0 {
      assert forall j :: 0 <= j < k - 1 ==> cs[1..][j] == cs[j + 1];
      FirstMatchingCategory(v, cs[1..], k - 1, re);
    }
  }

  /** When no category matches the scan is false. */
  lemma {:induction false} NoMatchingCategory(v: ItemStackValidator, cs: seq<string>, re: RegexEngine)
    requires forall j :: 0 <= j < |cs| ==> v.IsValidId(cs[j], re) == Ok(false)
    ensures v.CategoryScan(cs, re) == Ok(false)
  {
    if cs != [] {
      assert forall j :: 0 <= j < |cs| - 1 ==> cs[1..][j] == cs[j + 1];
      NoMatchingCategory(v, cs[1..], re);
    }
  }

  /** A scan that is true names a matching category. */
  lemma {:induction false} CategoryScanSound(v: ItemStackValidator, cs: seq<string>, re: RegexEngine)
    requires v.CategoryScan(cs, re) == Ok(true)
    ensures exists j :: 0 <= j < |cs| && v.IsValidId(cs[j], re) == Ok(true)
  {
    if v.IsValidId(cs[0], re) != Ok(true) {
      CategoryScanSound(v, cs[1..], re);
      var j :| 0 <= j < |cs[1..]| && v.IsValidId(cs[1..][j], re) == Ok(true);
      assert cs[j + 1] == cs[1..][j];
    }
  }

  /** With no categories, or none that match, the stack is judged by its item id. */
  lemma FallsBackToItemId(v: ItemStackValidator, itemStack: ItemStack, re: RegexEngine)
    requires itemStack.item.Some?
    requires itemStack.item.value.categories.Some? ==>
      forall j :: 0 <= j < |itemStack.item.value.categories.value| ==>
        v.IsValidId(itemStack.item.value.categories.value[j], re) == Ok(false)
    ensures v.StackValid(itemStack, re) <==> v.IsValidId(itemStack.itemId, re) == Ok(true)
  {
    if itemStack.item.value.categories.Some? {
      NoMatchingCategory(v, itemStack.item.value.categories.value, re);
    }
  }

  /** Exceptions are swallowed: no item, or a bad pattern met before any match, gives false. */
  lemma ExceptionsGiveFalse(v: ItemStackValidator, itemStack: ItemStack, re: RegexEngine)
    requires itemStack.item.None? ||
      (itemStack.item.value.categories.Some? && v.CategoryScan(itemStack.item.value.categories.value, re).Err?)
    ensures !v.StackValid(itemStack, re)
  {
  }

  /** A valid stack has a matching category or a matching item id. */
  lemma StackValidSound(v: ItemStackValidator, itemStack: ItemStack, re: RegexEngine)
    requires v.StackValid(itemStack, re)
    ensures itemStack.item.Some?
    ensures v.IsValidId(itemStack.itemId, re) == Ok(true) ||
      (itemStack.item.value.categories.Some? &&
       exists j :: 0 <= j < |itemStack.item.value.categories.value| &&
         v.IsValidId(itemStack.item.value.categories.value[j], re) == Ok(true))
  {
    var cats := itemStack.item.value.categories;
    if cats.Some? && v.CategoryScan(cats.value, re) == Ok(true) {
      CategoryScanSound(v, cats.value, re);
    }
  }

  /** The default validator accepts every id and every stack that has an item. */
  lemma DefaultAcceptsAll(id: string, itemStack: ItemStack, re: RegexEngine)
    ensures DEFAULT.Valid()
    ensures DEFAULT.IsValidId(id, re) == Ok(true)
    ensures DEFAULT.StackValid(itemStack, re) <==> itemStack.item.Some?
  {
    if itemStack.item.Some? && itemStack.item.value.categories.Some? {
      var cs := itemStack.item.value.categories.value;
      if cs != [] {
        FirstMatchingCategory(DEFAULT, cs, 0, re);
      }
    }
  }
}

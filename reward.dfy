/**
 * Reward: a reward string `type:field:field…` and a weight. giveReward
 * dispatches on the type and reads its fields with String.split; what it
 * does to the world is returned as a list of effects (an item given, a
 * console command run, a deposit made through a registered economy).
 */
module Rewards {
  import opened Wrappers
  import opened JavaData
  import opened JavaText
  import opened EconomyRegistry

  /** The online player's reference: its UUID and username. */
  datatype PlayerRef = PlayerRef(uuid: nat, username: string)

  /** AdvancedRewards.DataPlayer: whether the Player entity component was found, and the reference. */
  datatype DataPlayer = DataPlayer(hasPlayer: bool, playerRef: PlayerRef)

  /** A money amount as written: one number or a `min-max` range, still as text. */
  datatype MoneyAmount = Exact(text: string) | Between(min: string, max: string)

  /** What a reward does outside the model. */
  datatype Effect =
    | GiveItem(player: nat, itemId: string, amount: Int32)
    | ConsoleCommand(command: string)
    | Deposit(player: nat, economy: Economy, currency: string, money: MoneyAmount, reason: string)

  /** parts[i], or ArrayIndexOutOfBoundsException. */
  function Field(parts: seq<string>, i: nat): (r: Result<string>)
    ensures r.Ok? <==> i < |parts|
    ensures r.Ok? ==> r.value == parts[i]
    ensures r.Err? ==> r.error == ArrayIndexOutOfBounds
  {
    if i < |parts| then Ok(parts[i]) else Err(ArrayIndexOutOfBounds)
  }

  /** Integer.parseInt, or NumberFormatException naming the text. */
  function ParseIntOr(s: string): (r: Result<Int32>)
    ensures r.Ok? <==> ParseInt(s).Some?
    ensures r.Ok? ==> r.value == ParseInt(s).value
    ensures r.Err? ==> r.error == NumberFormat(s)
  {
    if ParseInt(s).Some? then Ok(ParseInt(s).value) else Err(NumberFormat(s))
  }

  /** ThreadLocalRandom.nextInt(origin, bound): `roll` picks a value in [origin, bound); an empty range throws. */
  function NextInt(origin: Int32, bound: Int32, roll: nat): (r: Result<Int32>)
    ensures r.Ok? <==> origin < bound
    ensures r.Ok? ==> origin <= r.value < bound
    ensures r.Err? ==> r.error == IllegalArgument("bound must be greater than origin")
  {
    if origin >= bound then Err(IllegalArgument("bound must be greater than origin"))
    else
      var v := origin + roll % (bound - origin);
      Ok(v)
  }

  /** `min-max`: nextInt(min, max + 1), where `max + 1` wraps at 32 bits. */
  function RangeAmountOf(range: seq<string>, roll: nat): (r: Result<Int32>)
    ensures range == [] ==> r == Err(ArrayIndexOutOfBounds)
    ensures r.Ok? ==> (|range| >= 2 && ParseInt(range[0]).Some? && ParseInt(range[1]).Some? &&
                       ParseInt(range[0]).value <= r.value <= ParseInt(range[1]).value)
    ensures r.Err? ==> (r.error == ArrayIndexOutOfBounds || r.error.NumberFormat? ||
                        r.error == IllegalArgument("bound must be greater than origin"))
  {
    var lo := Field(range, 0);
    if lo.Err? then Err(lo.error) else
    var min := ParseIntOr(lo.value);
    if min.Err? then Err(min.error) else
    var hi := Field(range, 1);
    if hi.Err? then Err(hi.error) else
    var max := ParseIntOr(hi.value);
    if max.Err? then Err(max.error) else
    var bound := Signed32((max.value + 1) % TWO_32);
    assert bound <= max.value + 1 by {
      if 0 <= max.value + 1 < TWO_31 {
        assert (max.value + 1) % TWO_32 == max.value + 1;
      } else if max.value + 1 < 0 {
        assert (max.value + 1) % TWO_32 == max.value + 1 + TWO_32;
      }
    }
    NextInt(min.value, bound, roll)
  }

  /** The item amount: a number, or a `min-max` range split on '-'; `roll` stands for the random draw. */
  function ItemAmount(amountStr: string, roll: nat): (r: Result<Int32>)
    ensures '-' !in amountStr ==> (r.Ok? <==> ParseInt(amountStr).Some?)
    ensures r.Ok? ==> r.value >= 0
    ensures r.Err? ==> (r.error == ArrayIndexOutOfBounds || r.error.NumberFormat? ||
                        r.error == IllegalArgument("bound must be greater than origin"))
  {
    if '-' in amountStr then
      SplitLacksSeparator(amountStr, '-');
      var r := RangeAmountOf(Split(amountStr, '-'), roll);
      assert r.Ok? ==> '-' !in Split(amountStr, '-')[0];
      r
    else ParseIntOr(amountStr)
  }

  /** The money amount: a number or a `min-max` range, split on '-'. */
  function MoneyAmountOf(amountStr: string): (r: Result<MoneyAmount>)
    ensures '-' !in amountStr <==> r == Ok(Exact(amountStr))
    ensures r.Ok? && r.value.Between? ==> '-' !in r.value.min && '-' !in r.value.max
    ensures r.Err? ==> r.error == ArrayIndexOutOfBounds
  {
    if '-' in amountStr then
      SplitLacksSeparator(amountStr, '-');
      var range := Split(amountStr, '-');
      var lo := Field(range, 0);
      if lo.Err? then Err(lo.error) else
      var hi := Field(range, 1);
      if hi.Err? then Err(hi.error) else Ok(Between(lo.value, hi.value))
    else Ok(Exact(amountStr))
  }

  const DISCONNECTED_MESSAGE: string := "Disconnected rewards only support money rewards."

  datatype Reward = Reward(reward: string, weight: real) {
    /** getRewardType: the first field of split(":"). */
    function Type(): (r: Result<string>)
      ensures r.Ok? ==> ':' !in r.value
    {
      SplitLacksSeparator(reward, ':');
      Field(Split(reward, ':'), 0)
    }

    /** giveReward: item, money or command; any other type is unsupported. */
    function GiveReward(data: DataPlayer, playerUuid: nat, roll: nat, economies: map<string, Economy>): (r: Result<seq<Effect>>)
      ensures r.Ok? ==> Type().Ok? && Type().value in {"item", "money", "command"} && |r.value| <= 1
      ensures Type().Err? ==> r == Err(Type().error)
    {
      var t := Type();
      if t.Err? then Err(t.error)
      else if t.value == "item" then ItemReward(data, roll, economies)
      else if t.value == "money" then MoneyReward(playerUuid, economies)
      else if t.value == "command" then CommandReward(data)
      else Err(UnsupportedOperation("Unsupported reward type: " + t.value))
    }

    /**
     * giveItemReward: `item:<amount>:<itemId>`; with no Player entity it
     * falls back to giveDisconnectedReward.
     */
    function ItemReward(data: DataPlayer, roll: nat, economies: map<string, Economy>): (r: Result<seq<Effect>>)
      ensures r.Ok? && data.hasPlayer ==>
        |r.value| == 1 && r.value[0].GiveItem? && r.value[0].player == data.playerRef.uuid && r.value[0].amount >= 0
      ensures r.Ok? && !data.hasPlayer ==>
        Type() == Ok("money") && |r.value| <= 1 && forall i :: 0 <= i < |r.value| ==> r.value[i].Deposit?
    {
      var parts := Split(reward, ':');
      var amountStr := Field(parts, 1);
      if amountStr.Err? then Err(amountStr.error) else
      var itemId := Field(parts, 2);
      if itemId.Err? then Err(itemId.error) else
      var amount := ItemAmount(amountStr.value, roll);
      if amount.Err? then Err(amount.error)
      else if !data.hasPlayer then GiveDisconnectedReward(data.playerRef.uuid, economies)
      else Ok([GiveItem(data.playerRef.uuid, itemId.value, amount.value)])
    }

    /** giveCommandReward: everything after the first ':', with %player% replaced, run from the console. */
    function CommandReward(data: DataPlayer): (r: Result<seq<Effect>>)
      ensures r.Ok? <==> ':' in reward
      ensures r.Ok? ==> |r.value| == 1 && r.value[0].ConsoleCommand?
      ensures r.Err? ==> r.error == ArrayIndexOutOfBounds
    {
      var parts := Split2(reward, ':');
      if |parts| < 2 then Err(ArrayIndexOutOfBounds)
      else Ok([ConsoleCommand(Replace(parts[1], "%player%", data.playerRef.username))])
    }

    /**
     * giveMoneyReward: `money:<economy>:<currency>:<amount>[:<reason>]`; an
     * unknown economy deposits nothing.
     */
    function MoneyReward(playerUuid: nat, economies: map<string, Economy>): (r: Result<seq<Effect>>)
      ensures r.Err? ==> r.error == ArrayIndexOutOfBounds
      ensures r.Ok? ==> (|Split(reward, ':')| >= 4 && |r.value| <= 1 &&
                         (r.value != [] <==> Split(reward, ':')[1] in economies))
      ensures r.Ok? && r.value != [] ==>
        r.value[0].Deposit? && r.value[0].player == playerUuid && r.value[0].economy == economies[Split(reward, ':')[1]] &&
        r.value[0].currency == Split(reward, ':')[2]
    {
      var parts := Split(reward, ':');
      var economyId := Field(parts, 1);
      if economyId.Err? then Err(economyId.error) else
      var currencyId := Field(parts, 2);
      if currencyId.Err? then Err(currencyId.error) else
      var amountStr := Field(parts, 3);
      if amountStr.Err? then Err(amountStr.error) else
      var reason := if |parts| >= 5 then parts[4] else "Reward";
      var amount := MoneyAmountOf(amountStr.value);
      if amount.Err? then Err(amount.error)
      else if economyId.value in economies then
        Ok([Deposit(playerUuid, economies[economyId.value], currencyId.value, amount.value, reason)])
      else Ok([])
    }

    /** giveDisconnectedReward: money only. */
    function GiveDisconnectedReward(playerUuid: nat, economies: map<string, Economy>): (r: Result<seq<Effect>>)
      ensures r.Ok? ==> Type() == Ok("money") && |r.value| <= 1 && forall i :: 0 <= i < |r.value| ==> r.value[i].Deposit?
      ensures Type().Ok? && Type().value != "money" ==> r == Err(UnsupportedOperation(DISCONNECTED_MESSAGE))
    {
      var t := Type();
      if t.Err? then Err(t.error)
      else if t.value == "money" then MoneyReward(playerUuid, economies)
      else Err(UnsupportedOperation(DISCONNECTED_MESSAGE))
    }
  }

  /** The no-argument constructor. */
  const DEFAULT_REWARD: Reward := Reward("item:1:Soil_Dirt", 1.0)

  /** The type is the text before the first ':' when that text is not empty. */
  lemma TypeBeforeColon(head: string, rest: string, weight: real)
    requires head != "" && ':' !in head
    ensures Reward(head + ":" + rest, weight).Type() == Ok(head)
  {
    FieldsAppend(head, ':', rest);
    assert (head + ":" + rest)[|head|] == ':';
    DropTrailingEmptyKeeps(Fields(head + [':'] + rest, ':'), 0);
  }

  /** Without a ':' the type is the whole string. */
  lemma TypeWithoutColon(s: string, weight: real)
    requires ':' !in s
    ensures Reward(s, weight).Type() == Ok(s)
  {
  }

  /** A string of colons only splits into nothing, so it has no type. */
  lemma TypeOfColons(weight: real)
    ensures Reward("::", weight).Type() == Err(ArrayIndexOutOfBounds)
  {
    assert Fields("::", ':') == ["", "", ""] by {
      assert Fields("", ':') == [[]];
      assert "::"[1..] == ":" && ":"[1..] == "";
    }
  }

  /** Any type other than item, money and command is refused, and offline only money is accepted. */
  lemma UnsupportedTypes(r: Reward, data: DataPlayer, playerUuid: nat, roll: nat, economies: map<string, Economy>)
    requires r.Type().Ok?
    ensures r.Type().value !in {"item", "money", "command"} ==>
      r.GiveReward(data, playerUuid, roll, economies) == Err(UnsupportedOperation("Unsupported reward type: " + r.Type().value))
    ensures r.Type().value != "money" ==>
      r.GiveDisconnectedReward(playerUuid, economies) == Err(UnsupportedOperation(DISCONNECTED_MESSAGE))
    ensures r.Type().value == "money" ==>
      r.GiveDisconnectedReward(playerUuid, economies) == r.GiveReward(data, playerUuid, roll, economies)
  {
  }

  lemma DigitsLackDash(n: nat)
    ensures '-' !in NatToString(n) && ':' !in NatToString(n)
  {
    var s := NatToString(n);
    assert forall i :: 0 <= i < |s| ==> IsDigit(s[i]);
  }

  lemma ParseNat(n: nat)
    requires n < TWO_31
    ensures ParseIntOr(NatToString(n)) == Ok(n)
  {
    ParseIntOfIntToString(n);
  }

  /** A plain number is the amount. */
  lemma ExactAmount(n: nat, roll: nat)
    requires n < TWO_31
    ensures ItemAmount(NatToString(n), roll) == Ok(n)
  {
    DigitsLackDash(n);
    ParseNat(n);
  }

  /** Two numbers joined by '-' split back into the two numbers. */
  lemma SplitRange(lo: nat, hi: nat)
    ensures '-' in NatToString(lo) + "-" + NatToString(hi)
    ensures Split(NatToString(lo) + "-" + NatToString(hi), '-') == [NatToString(lo), NatToString(hi)]
  {
    var a, b := NatToString(lo), NatToString(hi);
    DigitsLackDash(lo);
    DigitsLackDash(hi);
    JoinTwo(a, b, '-');
    SplitOfJoin([a, b], '-');
    assert (a + "-" + b)[|a|] == '-';
  }

  lemma RangeOfNumbers(lo: nat, hi: nat, roll: nat)
    requires lo < TWO_31 && hi < TWO_31
    ensures RangeAmountOf([NatToString(lo), NatToString(hi)], roll) == NextInt(lo, Signed32((hi + 1) % TWO_32), roll)
  {
    ParseNat(lo);
    ParseNat(hi);
  }

  lemma NoWrap(x: nat)
    requires x < TWO_31
    ensures Signed32(x % TWO_32) == x
  {
    assert x % TWO_32 == x;
  }

  /** `min-max` gives an amount in [min, max], inclusive. */
  lemma RangeAmount(lo: nat, hi: nat, roll: nat)
    requires lo <= hi < TWO_31 - 1
    ensures var r := ItemAmount(NatToString(lo) + "-" + NatToString(hi), roll);
      r.Ok? && lo <= r.value <= hi
  {
    var a, b := NatToString(lo), NatToString(hi);
    SplitRange(lo, hi);
    assert ItemAmount(a + "-" + b, roll) == RangeAmountOf([a, b], roll);
    RangeOfNumbers(lo, hi, roll);
    NoWrap(hi + 1);
    var r := NextInt(lo, hi + 1, roll);
    assert r.Ok? && lo <= r.value <= hi;
  }

  /** `n-2147483647`: max + 1 wraps to Integer.MIN_VALUE and nextInt refuses the range. */
  lemma RangeToMaxOverflows(lo: nat, roll: nat)
    requires lo < TWO_31
    ensures ItemAmount(NatToString(lo) + "-" + NatToString(TWO_31 - 1), roll) == Err(IllegalArgument("bound must be greater than origin"))
  {
    SplitRange(lo, TWO_31 - 1);
    RangeOfNumbers(lo, TWO_31 - 1, roll);
    assert Signed32(TWO_31 % TWO_32) == -TWO_31;
  }

  /** A negative amount contains '-', so it is read as a range with an empty minimum. */
  lemma NegativeAmountFails(n: nat, roll: nat)
    requires n > 0
    ensures ItemAmount("-" + NatToString(n), roll) == Err(NumberFormat(""))
  {
    var b := NatToString(n);
    DigitsLackDash(n);
    JoinTwo("", b, '-');
    SplitOfJoin(["", b], '-');
    assert ("-" + b)[0] == '-';
  }

  /** `item:<n>:<itemId>` gives n of the item to an online player. */
  lemma ItemGrammar(n: nat, itemId: string, data: DataPlayer, playerUuid: nat, roll: nat, economies: map<string, Economy>, weight: real)
    requires n < TWO_31 && itemId != "" && ':' !in itemId
    requires data.hasPlayer
    ensures Reward("item:" + NatToString(n) + ":" + itemId, weight).GiveReward(data, playerUuid, roll, economies) ==
      Ok([GiveItem(data.playerRef.uuid, itemId, n)])
  {
    var a := NatToString(n);
    DigitsLackDash(n);
    var s := "item:" + a + ":" + itemId;
    assert s == "item" + [':'] + a + [':'] + itemId;
    JoinThree("item", a, itemId, ':');
    SplitOfJoin(["item", a, itemId], ':');
    assert s[4] == ':';
    ExactAmount(n, roll);
  }

  /** With no Player entity an item reward ends in giveDisconnectedReward, which refuses it. */
  lemma OfflineItemFails(n: nat, itemId: string, data: DataPlayer, playerUuid: nat, roll: nat, economies: map<string, Economy>, weight: real)
    requires n < TWO_31 && itemId != "" && ':' !in itemId
    requires !data.hasPlayer
    ensures Reward("item:" + NatToString(n) + ":" + itemId, weight).GiveReward(data, playerUuid, roll, economies) ==
      Err(UnsupportedOperation(DISCONNECTED_MESSAGE))
  {
    var a := NatToString(n);
    DigitsLackDash(n);
    var s := "item:" + a + ":" + itemId;
    assert s == "item" + [':'] + a + [':'] + itemId;
    JoinThree("item", a, itemId, ':');
    SplitOfJoin(["item", a, itemId], ':');
    assert s[4] == ':';
    ExactAmount(n, roll);
  }

  /** `item:<itemId>` has no third field. */
  lemma ItemWithoutAmountFails(itemId: string, data: DataPlayer, playerUuid: nat, roll: nat, economies: map<string, Economy>, weight: real)
    requires itemId != "" && ':' !in itemId
    ensures Reward("item:" + itemId, weight).GiveReward(data, playerUuid, roll, economies) == Err(ArrayIndexOutOfBounds)
  {
    var s := "item:" + itemId;
    assert s == "item" + [':'] + itemId;
    JoinTwo("item", itemId, ':');
    SplitOfJoin(["item", itemId], ':');
    assert s[4] == ':';
  }

  /** A command keeps every later colon and has each %player% replaced by the username. */
  lemma CommandGrammar(command: string, data: DataPlayer, playerUuid: nat, roll: nat, economies: map<string, Economy>, weight: real)
    ensures Reward("command:" + command, weight).GiveReward(data, playerUuid, roll, economies) ==
      Ok([ConsoleCommand(Replace(command, "%player%", data.playerRef.username))])
  {
    assert "command:" + command == "command" + ":" + command;
    assert "command" + ":" + command == "command" + [':'] + command;
    TypeBeforeColon("command", command, weight);
    Split2OfPrefix("command", ':', command);
  }

  /** `money:<economy>:<currency>:<amount>` deposits with the reason "Reward", and only through a registered economy. */
  lemma MoneyGrammar(economyId: string, currency: string, amount: string, playerUuid: nat, data: DataPlayer, roll: nat, economies: map<string, Economy>, weight: real)
    requires ':' !in economyId && ':' !in currency && ':' !in amount && '-' !in amount && amount != ""
    ensures Reward(Join(["money", economyId, currency, amount], ':'), weight).GiveReward(data, playerUuid, roll, economies) ==
      Ok(if economyId in economies then [Deposit(playerUuid, economies[economyId], currency, Exact(amount), "Reward")] else [])
  {
    SplitOfJoin(["money", economyId, currency, amount], ':');
  }

  /** A fifth field is the reason. */
  lemma MoneyWithReason(economyId: string, currency: string, amount: string, reason: string, playerUuid: nat, economies: map<string, Economy>, weight: real)
    requires ':' !in economyId && ':' !in currency && ':' !in amount && '-' !in amount && ':' !in reason && reason != ""
    ensures Reward(Join(["money", economyId, currency, amount, reason], ':'), weight).MoneyReward(playerUuid, economies) ==
      Ok(if economyId in economies then [Deposit(playerUuid, economies[economyId], currency, Exact(amount), reason)] else [])
  {
    SplitOfJoin(["money", economyId, currency, amount, reason], ':');
  }

  /** Text after a fifth colon is dropped. */
  lemma MoneyDropsSixthField(economyId: string, currency: string, amount: string, reason: string, extra: string, playerUuid: nat, economies: map<string, Economy>, weight: real)
    requires ':' !in economyId && ':' !in currency && ':' !in amount && '-' !in amount && ':' !in reason && ':' !in extra && extra != ""
    ensures Reward(Join(["money", economyId, currency, amount, reason, extra], ':'), weight).MoneyReward(playerUuid, economies) ==
      Ok(if economyId in economies then [Deposit(playerUuid, economies[economyId], currency, Exact(amount), reason)] else [])
  {
    SplitOfJoin(["money", economyId, currency, amount, reason, extra], ':');
  }

  /** A trailing ':' leaves an empty field that split discards, so the reason stays "Reward". */
  lemma MoneyTrailingColon(economyId: string, currency: string, amount: string, playerUuid: nat, economies: map<string, Economy>, weight: real)
    requires ':' !in economyId && ':' !in currency && ':' !in amount && '-' !in amount && amount != ""
    ensures Reward(Join(["money", economyId, currency, amount, ""], ':'), weight).MoneyReward(playerUuid, economies) ==
      Ok(if economyId in economies then [Deposit(playerUuid, economies[economyId], currency, Exact(amount), "Reward")] else [])
  {
    SplitOfJoin(["money", economyId, currency, amount, ""], ':');
  }

  /** A money range keeps both ends as written. */
  lemma MoneyRange(lo: string, hi: string)
    requires '-' !in lo && '-' !in hi && hi != ""
    ensures MoneyAmountOf(lo + "-" + hi) == Ok(Between(lo, hi))
  {
    JoinTwo(lo, hi, '-');
    SplitOfJoin([lo, hi], '-');
    assert (lo + "-" + hi)[|lo|] == '-';
  }

  /** The default reward gives one Soil_Dirt. */
  lemma DefaultRewardGivesDirt(data: DataPlayer, playerUuid: nat, roll: nat, economies: map<string, Economy>)
    requires data.hasPlayer
    ensures DEFAULT_REWARD.GiveReward(data, playerUuid, roll, economies) == Ok([GiveItem(data.playerRef.uuid, "Soil_Dirt", 1)])
  {
    assert "item:1:Soil_Dirt" == "item:" + NatToString(1) + ":" + "Soil_Dirt";
    ItemGrammar(1, "Soil_Dirt", data, playerUuid, roll, economies, 1.0);
  }
}

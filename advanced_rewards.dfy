/**
 * AdvancedRewards: a reward list handed out either all at once or by
 * weighted draws, as many draws as the best amount the player's
 * permissions grant, and the money-only variant for offline players.
 * A run is recorded as a Trace: the rewards whose giveReward was called,
 * in order, the effects they had, and the exception that ended the run.
 */
module RewardBundles {
  import opened Wrappers
  import opened JavaData
  import opened EconomyRegistry
  import opened Rewards

  datatype AdvancedRewards = AdvancedRewards(
    id: string,
    giveAll: bool,
    permissionPerAmount: map<string, Int32>,
    rewards: seq<Option<Reward>>)

  /** A giveReward call: the reward, and how many calls came before it. */
  type Giver = (Reward, nat) -> Result<seq<Effect>>

  /** giveReward for an online player; `rolls(k)` is the random item roll of call k. */
  function OnlineGiver(data: DataPlayer, playerUuid: nat, rolls: nat -> nat, economies: map<string, Economy>): Giver {
    (r: Reward, k: nat) => r.GiveReward(data, playerUuid, rolls(k), economies)
  }

  datatype Trace = Trace(given: seq<Reward>, effects: seq<Effect>, failure: Option<Exception>)

  const EMPTY: Trace := Trace([], [], None)

  /** One giveReward call and what came of it: its effects, or the exception that stops the run. */
  function Record(t: Trace, r: Reward, outcome: Result<seq<Effect>>): (u: Trace)
    ensures u.given == t.given + [r]
    ensures u.failure.None? <==> outcome.Ok?
  {
    match outcome
    case Ok(e) => Trace(t.given + [r], t.effects + e, None)
    case Err(x) => Trace(t.given + [r], t.effects, Some(x))
  }

  function Online(t: Trace, r: Reward, give: Giver): Trace {
    Record(t, r, give(r, |t.given|))
  }

  /** The non-null rewards, in order. */
  function NonNull(rs: seq<Option<Reward>>): (r: seq<Reward>)
    ensures |r| <= |rs|
    ensures |r| == |rs| <==> forall i :: 0 <= i < |rs| ==> rs[i].Some?
    ensures forall x :: x in r <==> Some(x) in rs
  {
    if rs == [] then [] else (if rs[0].Some? then [rs[0].value] else []) + NonNull(rs[1..])
  }

  /** The non-null rewards of positive weight, in order: the draw pool. */
  function Positive(rs: seq<Option<Reward>>): (r: seq<Reward>)
    ensures forall x :: x in r <==> Some(x) in rs && x.weight > 0.0
  {
    if rs == [] then [] else (if rs[0].Some? && rs[0].value.weight > 0.0 then [rs[0].value] else []) + Positive(rs[1..])
  }

  /** The non-null rewards of weight zero or less, in order. */
  function NonPositive(rs: seq<Option<Reward>>): (r: seq<Reward>)
    ensures forall x :: x in r <==> Some(x) in rs && x.weight <= 0.0
  {
    if rs == [] then [] else (if rs[0].Some? && rs[0].value.weight <= 0.0 then [rs[0].value] else []) + NonPositive(rs[1..])
  }

  /** The pool and the rewards given at once split the non-null rewards between them. */
  lemma {:induction false} PositiveSplitsNonNull(rs: seq<Option<Reward>>)
    ensures multiset(Positive(rs)) + multiset(NonPositive(rs)) == multiset(NonNull(rs))
  {
    if rs != [] {
      PositiveSplitsNonNull(rs[1..]);
    }
  }

  // ---------------------------------------------------------------- amount

  predicate Eligible(key: string, hasPermission: string -> bool) {
    key == "" || hasPermission(key)
  }

  /** getAmountForPlayer over the entries in `order`: start at 1, take a larger value of an eligible key. */
  function AmountOver(m: map<string, Int32>, order: seq<string>, hasPermission: string -> bool): (a: Int32)
    requires forall i :: 0 <= i < |order| ==> order[i] in m
    ensures a >= 1
    ensures forall i :: 0 <= i < |order| && Eligible(order[i], hasPermission) ==> m[order[i]] <= a
  {
    if order == [] then 1
    else
      var a := AmountOver(m, order[..|order| - 1], hasPermission);
      var k := order[|order| - 1];
      if m[k] <= a then a else if Eligible(k, hasPermission) then m[k] else a
  }

  /** The amount is the largest of 1 and the values of the eligible keys. */
  ghost predicate IsBestAmount(m: map<string, Int32>, keys: set<string>, hasPermission: string -> bool, a: int) {
    a >= 1 &&
    (forall k :: k in keys && k in m && Eligible(k, hasPermission) ==> m[k] <= a) &&
    (a == 1 || exists k :: k in keys && k in m && Eligible(k, hasPermission) && m[k] == a)
  }

  lemma {:induction false} AmountOverIsBest(m: map<string, Int32>, order: seq<string>, hasPermission: string -> bool)
    requires forall i :: 0 <= i < |order| ==> order[i] in m
    ensures IsBestAmount(m, set i | 0 <= i < |order| :: order[i], hasPermission, AmountOver(m, order, hasPermission))
  {
    if order != [] {
      var init := order[..|order| - 1];
      AmountOverIsBest(m, init, hasPermission);
      assert (set i | 0 <= i < |order| :: order[i]) == (set i | 0 <= i < |init| :: init[i]) + {order[|order| - 1]};
    }
  }

  /** Two best amounts over the same keys are equal. */
  lemma BestAmountUnique(m: map<string, Int32>, keys: set<string>, hasPermission: string -> bool, a: int, b: int)
    requires IsBestAmount(m, keys, hasPermission, a) && IsBestAmount(m, keys, hasPermission, b)
    ensures a == b
  {
  }

  /** getAmountForPlayer, with `order` the map's entry iteration order. */
  method GetAmountForPlayer(permissionPerAmount: map<string, Int32>, order: seq<string>, hasPermission: string -> bool)
    returns (amount: Int32)
    requires Enumerates(order, permissionPerAmount.Keys)
    ensures amount == AmountOver(permissionPerAmount, order, hasPermission)
    ensures IsBestAmount(permissionPerAmount, permissionPerAmount.Keys, hasPermission, amount)
  {
    amount := 1;
    for i := 0 to |order|
      invariant amount == AmountOver(permissionPerAmount, order[..i], hasPermission)
    {
      assert order[..i + 1][..i] == order[..i];
      var key := order[i];
      var value := permissionPerAmount[key];
      if value <= amount {
        continue;
      }
      if key == "" || hasPermission(key) {
        amount := value;
      }
    }
    assert order[..|order|] == order;
    AmountOverIsBest(permissionPerAmount, order, hasPermission);
    assert (set i | 0 <= i < |order| :: order[i]) == permissionPerAmount.Keys;
  }

  // ---------------------------------------------------------------- giveAll

  /** giveAllRewards: every non-null reward in list order, until one throws. */
  function GiveAllFrom(t: Trace, rs: seq<Option<Reward>>, give: Giver): (r: Trace)
    ensures t.failure.Some? ==> r == t
    decreases |rs|
  {
    if rs == [] || t.failure.Some? then t
    else GiveAllFrom(if rs[0].None? then t else Online(t, rs[0].value, give), rs[1..], give)
  }

  method GiveAllRewards(rewards: seq<Option<Reward>>, give: Giver) returns (trace: Trace)
    ensures trace == GiveAllFrom(EMPTY, rewards, give)
  {
    trace := EMPTY;
    for i := 0 to |rewards|
      invariant trace.failure.None?
      invariant GiveAllFrom(trace, rewards[i..], give) == GiveAllFrom(EMPTY, rewards, give)
    {
      assert rewards[i..][1..] == rewards[i + 1..];
      if rewards[i].None? {
        continue;
      }
      var reward := rewards[i].value;
      var outcome := give(reward, |trace.given|);
      trace := Record(trace, reward, outcome);
      if trace.failure.Some? {
        return;
      }
    }
  }

  /** Every non-null reward is given once, in list order; a run cut short by an exception gave a prefix of them. */
  lemma {:induction false} GiveAllGiven(t: Trace, rs: seq<Option<Reward>>, give: Giver)
    requires t.failure.None?
    ensures GiveAllFrom(t, rs, give).failure.None? ==> GiveAllFrom(t, rs, give).given == t.given + NonNull(rs)
    ensures GiveAllFrom(t, rs, give).given <= t.given + NonNull(rs)
    decreases |rs|
  {
    if rs != [] {
      var u := if rs[0].None? then t else Online(t, rs[0].value, give);
      assert GiveAllFrom(t, rs, give) == GiveAllFrom(u, rs[1..], give);
      if u.failure.None? {
        GiveAllGiven(u, rs[1..], give);
        assert t.given + NonNull(rs) == u.given + NonNull(rs[1..]);
      } else {
        assert GiveAllFrom(u, rs[1..], give) == u;
      }
    }
  }

  // ---------------------------------------------------------------- weighted

  datatype Partition = Partition(trace: Trace, pool: seq<Reward>)

  /** The first loop of giveWeightedRewards: positive weights join the pool, the others are given at once. */
  function PartitionFrom(t: Trace, pool: seq<Reward>, rs: seq<Option<Reward>>, give: Giver): (p: Partition)
    ensures t.given <= p.trace.given && t.effects <= p.trace.effects && pool <= p.pool
    ensures t.failure.Some? ==> p == Partition(t, pool)
    decreases |rs|
  {
    if rs == [] || t.failure.Some? then Partition(t, pool)
    else if rs[0].None? then PartitionFrom(t, pool, rs[1..], give)
    else if rs[0].value.weight > 0.0 then PartitionFrom(t, pool + [rs[0].value], rs[1..], give)
    else PartitionFrom(Online(t, rs[0].value, give), pool, rs[1..], give)
  }

  /** The rewards that draws i, i+1, … before `amount` pick, `picks(i)` standing for the roulette draw. */
  function Drawn(pool: seq<Reward>, picks: nat -> nat, i: nat, amount: int): (r: seq<Reward>)
    requires pool != []
    ensures |r| == (if i < amount then amount - i else 0)
    ensures forall j :: 0 <= j < |r| ==> r[j] in pool
    decreases amount - i
  {
    if i >= amount then [] else [pool[picks(i) % |pool|]] + Drawn(pool, picks, i + 1, amount)
  }

  /** Draw j of the list is the pool entry that pick i + j selects. */
  lemma {:induction false} DrawnPicks(pool: seq<Reward>, picks: nat -> nat, i: nat, amount: int, j: nat)
    requires pool != [] && j < |Drawn(pool, picks, i, amount)|
    ensures Drawn(pool, picks, i, amount)[j] == pool[picks(i + j) % |pool|]
    decreases amount - i
  {
    if j > 0 {
      DrawnPicks(pool, picks, i + 1, amount, j - 1);
    }
  }

  /**
   * The second loop: `amount` draws from the pool. An empty pool has total
   * weight 0 and nextDouble(0) throws at the first draw.
   */
  function DrawFrom(t: Trace, pool: seq<Reward>, i: nat, amount: int, picks: nat -> nat, give: Giver): (r: Trace)
    ensures t.failure.Some? ==> r == t
    decreases amount - i
  {
    if i >= amount || t.failure.Some? then t
    else if pool == [] then t.(failure := Some(IllegalArgument("bound must be positive")))
    else DrawFrom(Online(t, pool[picks(i) % |pool|], give), pool, i + 1, amount, picks, give)
  }

  /** The first loop's gifts come first; with no positive weight any draw ends in an exception. */
  function Weighted(rs: seq<Option<Reward>>, amount: int, picks: nat -> nat, give: Giver): (r: Trace)
    ensures PartitionFrom(EMPTY, [], rs, give).trace.given <= r.given
    ensures amount > 0 && Positive(rs) == [] ==> r.failure.Some?
  {
    var p := PartitionFrom(EMPTY, [], rs, give);
    var r := DrawFrom(p.trace, p.pool, 0, amount, picks, give);
    DrawExtends(p.trace, p.pool, 0, amount, picks, give);
    if p.trace.failure.None? then PartitionPool(EMPTY, [], rs, give); r else r
  }

  /** Draws only append: to the rewards given and to the effects. */
  lemma {:induction false} DrawExtends(t: Trace, pool: seq<Reward>, i: nat, amount: int, picks: nat -> nat, give: Giver)
    ensures t.given <= DrawFrom(t, pool, i, amount, picks, give).given
    ensures t.effects <= DrawFrom(t, pool, i, amount, picks, give).effects
    decreases amount - i
  {
    if i < amount && t.failure.None? && pool != [] {
      var u := Online(t, pool[picks(i) % |pool|], give);
      DrawExtends(u, pool, i + 1, amount, picks, give);
    }
  }

  method GiveWeightedRewards(rewards: seq<Option<Reward>>, amount: int, picks: nat -> nat, give: Giver) returns (trace: Trace)
    ensures trace == Weighted(rewards, amount, picks, give)
  {
    trace := EMPTY;
    var validRewards: seq<Reward> := [];
    for i := 0 to |rewards|
      invariant trace.failure.None?
      invariant PartitionFrom(trace, validRewards, rewards[i..], give) == PartitionFrom(EMPTY, [], rewards, give)
    {
      assert rewards[i..][1..] == rewards[i + 1..];
      if rewards[i].None? {
        continue;
      }
      var reward := rewards[i].value;
      if reward.weight > 0.0 {
        validRewards := validRewards + [reward];
      } else {
        var outcome := give(reward, |trace.given|);
        trace := Record(trace, reward, outcome);
        if trace.failure.Some? {
          return;
        }
      }
    }
    var i: nat := 0;
    while i < amount
      invariant trace.failure.None?
      invariant DrawFrom(trace, validRewards, i, amount, picks, give) == Weighted(rewards, amount, picks, give)
      decreases amount - i
    {
      if validRewards == [] {
        trace := trace.(failure := Some(IllegalArgument("bound must be positive")));
        return;
      }
      var reward := validRewards[picks(i) % |validRewards|];
      var outcome := give(reward, |trace.given|);
      trace := Record(trace, reward, outcome);
      i := i + 1;
      if trace.failure.Some? {
        return;
      }
    }
  }

  /** Partitioning pools the positive rewards in order. */
  lemma {:induction false} PartitionPool(t: Trace, pool: seq<Reward>, rs: seq<Option<Reward>>, give: Giver)
    requires t.failure.None?
    requires PartitionFrom(t, pool, rs, give).trace.failure.None?
    ensures PartitionFrom(t, pool, rs, give).pool == pool + Positive(rs)
    decreases |rs|
  {
    if rs != [] {
      var rest := rs[1..];
      if rs[0].None? {
        PartitionPool(t, pool, rest, give);
      } else if rs[0].value.weight > 0.0 {
        PartitionPool(t, pool + [rs[0].value], rest, give);
        assert pool + [rs[0].value] + Positive(rest) == pool + Positive(rs);
      } else {
        var u := Online(t, rs[0].value, give);
        assert PartitionFrom(t, pool, rs, give) == PartitionFrom(u, pool, rest, give);
        PartitionPool(u, pool, rest, give);
      }
    }
  }

  /** Partitioning gives the non-positive rewards, each once, in order. */
  lemma {:induction false} PartitionGiven(t: Trace, pool: seq<Reward>, rs: seq<Option<Reward>>, give: Giver)
    requires t.failure.None?
    requires PartitionFrom(t, pool, rs, give).trace.failure.None?
    ensures PartitionFrom(t, pool, rs, give).trace.given == t.given + NonPositive(rs)
    decreases |rs|
  {
    if rs != [] {
      var rest := rs[1..];
      if rs[0].None? {
        PartitionGiven(t, pool, rest, give);
      } else if rs[0].value.weight > 0.0 {
        PartitionGiven(t, pool + [rs[0].value], rest, give);
      } else {
        var u := Online(t, rs[0].value, give);
        assert PartitionFrom(t, pool, rs, give) == PartitionFrom(u, pool, rest, give);
        PartitionGiven(u, pool, rest, give);
        assert u.given + NonPositive(rest) == t.given + NonPositive(rs);
      }
    }
  }

  /** With a non-empty pool and no exception, exactly the drawn rewards are given, one per draw. */
  lemma {:induction false} DrawGiven(t: Trace, pool: seq<Reward>, i: nat, amount: int, picks: nat -> nat, give: Giver)
    requires t.failure.None? && pool != []
    ensures DrawFrom(t, pool, i, amount, picks, give).failure.None? ==>
      DrawFrom(t, pool, i, amount, picks, give).given == t.given + Drawn(pool, picks, i, amount)
    decreases amount - i
  {
    if i < amount {
      var u := Online(t, pool[picks(i) % |pool|], give);
      if u.failure.None? {
        DrawGiven(u, pool, i + 1, amount, picks, give);
        assert u.given + Drawn(pool, picks, i + 1, amount) == t.given + Drawn(pool, picks, i, amount);
      }
    }
  }

  /**
   * A weighted run that ends without an exception gave every non-positive
   * reward once in list order, then `amount` rewards drawn from the
   * positive ones.
   */
  lemma WeightedGiven(rs: seq<Option<Reward>>, amount: int, picks: nat -> nat, give: Giver)
    requires Weighted(rs, amount, picks, give).failure.None?
    ensures amount > 0 ==> Positive(rs) != []
    ensures Positive(rs) != [] ==> Weighted(rs, amount, picks, give).given == NonPositive(rs) + Drawn(Positive(rs), picks, 0, amount)
    ensures Positive(rs) == [] ==> Weighted(rs, amount, picks, give).given == NonPositive(rs)
  {
    var p := PartitionFrom(EMPTY, [], rs, give);
    assert Weighted(rs, amount, picks, give) == DrawFrom(p.trace, p.pool, 0, amount, picks, give);
    assert p.trace.failure.None?;
    PartitionPool(EMPTY, [], rs, give);
    PartitionGiven(EMPTY, [], rs, give);
    assert [] + Positive(rs) == Positive(rs) && EMPTY.given + NonPositive(rs) == NonPositive(rs);
    assert p.pool == Positive(rs) && p.trace.given == NonPositive(rs);
    if p.pool != [] {
      DrawGiven(p.trace, p.pool, 0, amount, picks, give);
    }
  }

  /** With no positive weight, any draw throws IllegalArgumentException after the non-positive rewards were given. */
  lemma EmptyPoolThrows(rs: seq<Option<Reward>>, amount: int, picks: nat -> nat, give: Giver)
    requires Positive(rs) == [] && amount > 0
    requires PartitionFrom(EMPTY, [], rs, give).trace.failure.None?
    ensures Weighted(rs, amount, picks, give).failure == Some(IllegalArgument("bound must be positive"))
    ensures Weighted(rs, amount, picks, give).given == NonPositive(rs)
  {
    PartitionPool(EMPTY, [], rs, give);
    PartitionGiven(EMPTY, [], rs, give);
  }

  // ---------------------------------------------------------------- offline

  /** giveDisconnectedRewards: every reward's disconnected variant, in list order; a null entry throws. */
  function DisconnectedFrom(t: Trace, rs: seq<Option<Reward>>, playerUuid: nat, economies: map<string, Economy>): (r: Trace)
    ensures t.given <= r.given && t.effects <= r.effects
    ensures t.failure.Some? ==> r == t
    ensures t.failure.None? && r.failure.None? ==> forall i :: 0 <= i < |rs| ==> rs[i].Some?
    ensures t.failure.None? && (exists i :: 0 <= i < |rs| && rs[i].None?) ==> r.failure.Some?
    decreases |rs|
  {
    if rs == [] || t.failure.Some? then t
    else if rs[0].None? then t.(failure := Some(NullPointer))
    else DisconnectedFrom(Record(t, rs[0].value, rs[0].value.GiveDisconnectedReward(playerUuid, economies)), rs[1..], playerUuid, economies)
  }

  method GiveDisconnectedRewards(rewards: seq<Option<Reward>>, playerUuid: nat, economies: map<string, Economy>) returns (trace: Trace)
    ensures trace == DisconnectedFrom(EMPTY, rewards, playerUuid, economies)
  {
    trace := EMPTY;
    for i := 0 to |rewards|
      invariant trace.failure.None?
      invariant DisconnectedFrom(trace, rewards[i..], playerUuid, economies) == DisconnectedFrom(EMPTY, rewards, playerUuid, economies)
    {
      assert rewards[i..][1..] == rewards[i + 1..];
      if rewards[i].None? {
        trace := trace.(failure := Some(NullPointer));
        return;
      }
      var reward := rewards[i].value;
      trace := Record(trace, reward, reward.GiveDisconnectedReward(playerUuid, economies));
      if trace.failure.Some? {
        return;
      }
    }
  }

  /** An offline run that ends without an exception met only money rewards, no null, and gave each once in order. */
  lemma {:induction false} DisconnectedOnlyMoney(t: Trace, rs: seq<Option<Reward>>, playerUuid: nat, economies: map<string, Economy>)
    requires t.failure.None?
    requires DisconnectedFrom(t, rs, playerUuid, economies).failure.None?
    ensures forall i :: 0 <= i < |rs| ==> rs[i].Some? && rs[i].value.Type() == Ok("money")
    ensures DisconnectedFrom(t, rs, playerUuid, economies).given == t.given + NonNull(rs)
    decreases |rs|
  {
    if rs != [] {
      var r := rs[0].value;
      var u := Record(t, r, r.GiveDisconnectedReward(playerUuid, economies));
      DisconnectedOnlyMoney(u, rs[1..], playerUuid, economies);
      assert forall i :: 1 <= i < |rs| ==> rs[i] == rs[1..][i - 1];
      assert r.Type() == Ok("money") by {
        UnsupportedTypes(r, DataPlayer(false, PlayerRef(playerUuid, "")), playerUuid, 0, economies);
      }
    }
  }

  // ---------------------------------------------------------------- entry point

  /**
   * giveRewards, once the asynchronous lookup has produced `online` (null
   * when the player is not online): offline rewards, or the amount and
   * then all or weighted rewards.
   */
  method GiveRewards(ar: AdvancedRewards, online: Option<DataPlayer>, playerUuid: nat, hasPermission: string -> bool,
                     order: seq<string>, rolls: nat -> nat, picks: nat -> nat, economies: map<string, Economy>)
    returns (trace: Trace)
    requires Enumerates(order, ar.permissionPerAmount.Keys)
    ensures online.None? ==> trace == DisconnectedFrom(EMPTY, ar.rewards, playerUuid, economies)
    ensures online.Some? && ar.giveAll ==>
      trace == GiveAllFrom(EMPTY, ar.rewards, OnlineGiver(online.value, playerUuid, rolls, economies))
    ensures online.Some? && !ar.giveAll ==>
      trace == Weighted(ar.rewards, AmountOver(ar.permissionPerAmount, order, hasPermission), picks,
                        OnlineGiver(online.value, playerUuid, rolls, economies))
  {
    if online.None? {
      trace := GiveDisconnectedRewards(ar.rewards, playerUuid, economies);
      return;
    }
    var amount := GetAmountForPlayer(ar.permissionPerAmount, order, hasPermission);
    var give := OnlineGiver(online.value, playerUuid, rolls, economies);
    if ar.giveAll {
      trace := GiveAllRewards(ar.rewards, give);
    } else {
      trace := GiveWeightedRewards(ar.rewards, amount, picks, give);
    }
  }

  // ---------------------------------------------------------------- defaults

  const DEFAULT_AMOUNTS: map<string, Int32> := map["" := 1, "group.vip" := 2]

  /** With the default map a `group.vip` holder gets 2 draws and everyone else 1. */
  lemma DefaultAmount(order: seq<string>, hasPermission: string -> bool)
    requires Enumerates(order, DEFAULT_AMOUNTS.Keys)
    ensures AmountOver(DEFAULT_AMOUNTS, order, hasPermission) == if hasPermission("group.vip") then 2 else 1
  {
    AmountOverIsBest(DEFAULT_AMOUNTS, order, hasPermission);
    assert (set i | 0 <= i < |order| :: order[i]) == DEFAULT_AMOUNTS.Keys;
    var expected := if hasPermission("group.vip") then 2 else 1;
    assert IsBestAmount(DEFAULT_AMOUNTS, DEFAULT_AMOUNTS.Keys, hasPermission, expected);
    BestAmountUnique(DEFAULT_AMOUNTS, DEFAULT_AMOUNTS.Keys, hasPermission, expected, AmountOver(DEFAULT_AMOUNTS, order, hasPermission));
  }

  /** The default item reward as the field initialiser writes it: no amount field. */
  const DEFAULT_ITEM_AS_WRITTEN: Reward := Reward("item:Soil_Dirt", 1.0)

  /** The default item reward as the no-argument Reward constructor writes it. */
  const DEFAULT_ITEM: Reward := Reward("item:1:Soil_Dirt", 1.0)

  const DEFAULT_MONEY: Reward := Reward("money:ZEconomy:coins:1:1 Coin rewards", 1.0)
  const DEFAULT_COMMAND: Reward := Reward("command:give %player% Soil_Dirt 1", 1.0)

  /** The default reward list of a new AdvancedRewards, as written. */
  const DEFAULT_REWARDS: seq<Option<Reward>> := [Some(DEFAULT_ITEM_AS_WRITTEN), Some(DEFAULT_MONEY), Some(DEFAULT_COMMAND)]

  /** The default reward list with the item in the format Reward's own default uses. */
  const DEFAULT_REWARDS_CORRECTED: seq<Option<Reward>> := [Some(DEFAULT_ITEM), Some(DEFAULT_MONEY), Some(DEFAULT_COMMAND)]

  /** A new AdvancedRewards: weighted draws, the default amounts and the default list as written. */
  const DEFAULT: AdvancedRewards := AdvancedRewards("", false, DEFAULT_AMOUNTS, DEFAULT_REWARDS)

  /** A new AdvancedRewards with the corrected list. */
  const DEFAULT_CORRECTED: AdvancedRewards := AdvancedRewards("", false, DEFAULT_AMOUNTS, DEFAULT_REWARDS_CORRECTED)

  /** All three default rewards have positive weight, so the first loop gives nothing and pools them in order. */
  lemma DefaultsPooled(rewards: seq<Option<Reward>>, give: Giver)
    requires rewards == DEFAULT_REWARDS || rewards == DEFAULT_REWARDS_CORRECTED
    ensures PartitionFrom(EMPTY, [], rewards, give) == Partition(EMPTY, [rewards[0].value, DEFAULT_MONEY, DEFAULT_COMMAND])
  {
    assert rewards[0].Some? && rewards[0].value.weight > 0.0;
    assert rewards[1] == Some(DEFAULT_MONEY) && rewards[2] == Some(DEFAULT_COMMAND);
    var p1 := [rewards[0].value];
    assert [] + p1 == p1;
    var p2 := p1 + [DEFAULT_MONEY];
    assert PartitionFrom(EMPTY, [], rewards, give) == PartitionFrom(EMPTY, p1, rewards[1..], give);
    assert PartitionFrom(EMPTY, p1, rewards[1..], give) == PartitionFrom(EMPTY, p2, rewards[2..], give);
    assert PartitionFrom(EMPTY, p2, rewards[2..], give) == PartitionFrom(EMPTY, p2 + [DEFAULT_COMMAND], [], give);
  }

  /** As written, the default item reward throws ArrayIndexOutOfBoundsException for every player. */
  lemma DefaultItemAsWrittenFails(data: DataPlayer, playerUuid: nat, roll: nat, economies: map<string, Economy>)
    ensures DEFAULT_ITEM_AS_WRITTEN.GiveReward(data, playerUuid, roll, economies) == Err(ArrayIndexOutOfBounds)
  {
    assert "item:Soil_Dirt" == "item:" + "Soil_Dirt";
    ItemWithoutAmountFails("Soil_Dirt", data, playerUuid, roll, economies, 1.0);
  }

  /**
   * The default bundle as written: whenever the first draw picks the item,
   * the run stops there with ArrayIndexOutOfBoundsException.
   */
  lemma DefaultBundleFails(data: DataPlayer, playerUuid: nat, rolls: nat -> nat, picks: nat -> nat,
                           economies: map<string, Economy>, amount: int)
    requires amount >= 1 && picks(0) % 3 == 0
    ensures var give := OnlineGiver(data, playerUuid, rolls, economies);
      Weighted(DEFAULT.rewards, amount, picks, give) == Trace([DEFAULT_ITEM_AS_WRITTEN], [], Some(ArrayIndexOutOfBounds))
  {
    var give := OnlineGiver(data, playerUuid, rolls, economies);
    DefaultsPooled(DEFAULT_REWARDS, give);
    var pool := [DEFAULT_ITEM_AS_WRITTEN, DEFAULT_MONEY, DEFAULT_COMMAND];
    DefaultItemAsWrittenFails(data, playerUuid, rolls(0), economies);
    assert give(DEFAULT_ITEM_AS_WRITTEN, 0) == Err(ArrayIndexOutOfBounds);
    assert pool[picks(0) % |pool|] == DEFAULT_ITEM_AS_WRITTEN;
    var u := Online(EMPTY, DEFAULT_ITEM_AS_WRITTEN, give);
    assert u == Trace([DEFAULT_ITEM_AS_WRITTEN], [], Some(ArrayIndexOutOfBounds));
    assert DrawFrom(EMPTY, pool, 0, amount, picks, give) == DrawFrom(u, pool, 1, amount, picks, give);
  }

  /** The corrected bundle: one draw that picks the item gives an online player one Soil_Dirt. */
  lemma DefaultCorrectedGivesDirt(data: DataPlayer, playerUuid: nat, rolls: nat -> nat, picks: nat -> nat,
                                  economies: map<string, Economy>)
    requires data.hasPlayer && picks(0) % 3 == 0
    ensures var give := OnlineGiver(data, playerUuid, rolls, economies);
      Weighted(DEFAULT_CORRECTED.rewards, 1, picks, give) == Trace([DEFAULT_ITEM], [GiveItem(data.playerRef.uuid, "Soil_Dirt", 1)], None)
  {
    var give := OnlineGiver(data, playerUuid, rolls, economies);
    DefaultsPooled(DEFAULT_REWARDS_CORRECTED, give);
    var pool := [DEFAULT_ITEM, DEFAULT_MONEY, DEFAULT_COMMAND];
    DefaultRewardGivesDirt(data, playerUuid, rolls(0), economies);
    assert give(DEFAULT_ITEM, 0) == Ok([GiveItem(data.playerRef.uuid, "Soil_Dirt", 1)]);
    assert pool[picks(0) % |pool|] == DEFAULT_ITEM;
    var u := Online(EMPTY, DEFAULT_ITEM, give);
    assert DrawFrom(EMPTY, pool, 0, 1, picks, give) == DrawFrom(u, pool, 1, 1, picks, give);
  }

  /** The corrected default item reward gives one Soil_Dirt to an online player. */
  lemma DefaultItemGives(data: DataPlayer, playerUuid: nat, roll: nat, economies: map<string, Economy>)
    requires data.hasPlayer
    ensures DEFAULT_ITEM.GiveReward(data, playerUuid, roll, economies) == Ok([GiveItem(data.playerRef.uuid, "Soil_Dirt", 1)])
  {
    DefaultRewardGivesDirt(data, playerUuid, roll, economies);
  }
}

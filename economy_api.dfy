/**
 * EconomyApi: a registry of economy providers keyed by economy id, and the
 * balance operations that resolve a provider and forward to it. A provider
 * is the five calls it answers; amounts are BigDecimal values, exact
 * rationals here.
 */
module EconomyRegistry {
  import opened Wrappers

  /** The provider calls the API forwards to: player, currency, then amount and reason. */
  datatype Provider = Provider(
    balance: (nat, string) -> real,
    setBalance: (nat, string, real, string) -> bool,
    deposit: (nat, string, real, string) -> bool,
    withdraw: (nat, string, real, string) -> bool,
    hasBalance: (nat, string, real) -> bool)

  /** An economy: its id (getEconomyId) and its provider. */
  datatype Economy = Economy(id: string, provider: Provider)

  /** EconomySelector: an economy id and a currency id. */
  datatype EconomySelector = EconomySelector(economy: string, currency: string)

  /** The selector's defaults. */
  const DEFAULT_SELECTOR: EconomySelector := EconomySelector("ZEconomy", "coins")

  /** resolveEconomy: the registered economy, or IllegalArgumentException. */
  function Resolve(economies: map<string, Economy>, selector: EconomySelector): (r: Result<Economy>)
    ensures r.Ok? <==> selector.economy in economies
    ensures r.Ok? ==> r.value == economies[selector.economy]
    ensures r.Err? ==> r.error == IllegalArgument("Economy not found: " + selector.economy)
  {
    if selector.economy in economies then Ok(economies[selector.economy])
    else Err(IllegalArgument("Economy not found: " + selector.economy))
  }

  /** The ECONOMIES map; the class stands for the static state. */
  class EconomyApi {
    var economies: map<string, Economy>

    /** The static initialiser registers the built-in provider under "ZEconomy". */
    constructor (zEconomy: Provider)
      ensures economies == map["ZEconomy" := Economy("ZEconomy", zEconomy)]
    {
      economies := map["ZEconomy" := Economy("ZEconomy", zEconomy)];
    }

    /** registerEconomy: putIfAbsent; a taken id throws and keeps the earlier entry. */
    method RegisterEconomy(economy: Economy) returns (r: Result<()>)
      modifies this
      ensures economy.id in old(economies) ==>
        r == Err(IllegalState("Economy already registered: " + economy.id)) && economies == old(economies)
      ensures economy.id !in old(economies) ==>
        r == Ok(()) && economies == old(economies)[economy.id := economy]
    {
      if economy.id in economies {
        return Err(IllegalState("Economy already registered: " + economy.id));
      }
      economies := economies[economy.id := economy];
      r := Ok(());
    }

    /** getEconomy: a lookup, null when absent. */
    function GetEconomy(economyId: string): (r: Option<Economy>)
      reads this
      ensures r.Some? <==> economyId in economies
      ensures r.Some? ==> r.value == economies[economyId]
    {
      if economyId in economies then Some(economies[economyId]) else None
    }

    /** getBalance(playerId, selector). */
    function GetBalanceBy(playerId: nat, selector: EconomySelector): (r: Result<real>)
      reads this
      ensures r.Err? <==> selector.economy !in economies
      ensures r.Ok? ==> r.value == economies[selector.economy].provider.balance(playerId, selector.currency)
    {
      var e := Resolve(economies, selector);
      if e.Err? then Err(e.error) else Ok(e.value.provider.balance(playerId, selector.currency))
    }

    /** getBalance(playerId, economyId, currencyId). */
    function GetBalance(playerId: nat, economyId: string, currencyId: string): (r: Result<real>)
      reads this
      ensures r == GetBalanceBy(playerId, EconomySelector(economyId, currencyId))
    {
      GetBalanceBy(playerId, EconomySelector(economyId, currencyId))
    }

    /** setBalance(playerId, selector, amount, reason). */
    function SetBalanceBy(playerId: nat, selector: EconomySelector, amount: real, reason: string): (r: Result<bool>)
      reads this
      ensures r.Err? <==> selector.economy !in economies
      ensures r.Ok? ==> r.value == economies[selector.economy].provider.setBalance(playerId, selector.currency, amount, reason)
    {
      var e := Resolve(economies, selector);
      if e.Err? then Err(e.error) else Ok(e.value.provider.setBalance(playerId, selector.currency, amount, reason))
    }

    /** setBalance(playerId, economyId, currencyId, amount, reason). */
    function SetBalance(playerId: nat, economyId: string, currencyId: string, amount: real, reason: string): (r: Result<bool>)
      reads this
      ensures r == SetBalanceBy(playerId, EconomySelector(economyId, currencyId), amount, reason)
    {
      SetBalanceBy(playerId, EconomySelector(economyId, currencyId), amount, reason)
    }

    /** deposit(playerId, selector, amount, reason). */
    function DepositBy(playerId: nat, selector: EconomySelector, amount: real, reason: string): (r: Result<bool>)
      reads this
      ensures r.Err? <==> selector.economy !in economies
      ensures r.Ok? ==> r.value == economies[selector.economy].provider.deposit(playerId, selector.currency, amount, reason)
    {
      var e := Resolve(economies, selector);
      if e.Err? then Err(e.error) else Ok(e.value.provider.deposit(playerId, selector.currency, amount, reason))
    }

    /** deposit(playerId, economyId, currencyId, amount, reason). */
    function Deposit(playerId: nat, economyId: string, currencyId: string, amount: real, reason: string): (r: Result<bool>)
      reads this
      ensures r == DepositBy(playerId, EconomySelector(economyId, currencyId), amount, reason)
    {
      DepositBy(playerId, EconomySelector(economyId, currencyId), amount, reason)
    }

    /** withdraw(playerId, selector, amount, reason). */
    function WithdrawBy(playerId: nat, selector: EconomySelector, amount: real, reason: string): (r: Result<bool>)
      reads this
      ensures r.Err? <==> selector.economy !in economies
      ensures r.Ok? ==> r.value == economies[selector.economy].provider.withdraw(playerId, selector.currency, amount, reason)
    {
      var e := Resolve(economies, selector);
      if e.Err? then Err(e.error) else Ok(e.value.provider.withdraw(playerId, selector.currency, amount, reason))
    }

    /** withdraw(playerId, economyId, currencyId, amount, reason). */
    function Withdraw(playerId: nat, economyId: string, currencyId: string, amount: real, reason: string): (r: Result<bool>)
      reads this
      ensures r == WithdrawBy(playerId, EconomySelector(economyId, currencyId), amount, reason)
    {
      WithdrawBy(playerId, EconomySelector(economyId, currencyId), amount, reason)
    }

    /** hasBalance(playerId, selector, amount). */
    function HasBalanceBy(playerId: nat, selector: EconomySelector, amount: real): (r: Result<bool>)
      reads this
      ensures r.Err? <==> selector.economy !in economies
      ensures r.Ok? ==> r.value == economies[selector.economy].provider.hasBalance(playerId, selector.currency, amount)
    {
      var e := Resolve(economies, selector);
      if e.Err? then Err(e.error) else Ok(e.value.provider.hasBalance(playerId, selector.currency, amount))
    }

    /** hasBalance(playerId, economyId, currencyId, amount). */
    function HasBalance(playerId: nat, economyId: string, currencyId: string, amount: real): (r: Result<bool>)
      reads this
      ensures r == HasBalanceBy(playerId, EconomySelector(economyId, currencyId), amount)
    {
      HasBalanceBy(playerId, EconomySelector(economyId, currencyId), amount)
    }
  }

  /** The balance operations never consult a provider of an unregistered economy: any providers give the same error. */
  lemma UnregisteredNeverCalls(api: EconomyApi, playerId: nat, selector: EconomySelector, amount: real, reason: string)
    requires selector.economy !in api.economies
    ensures api.GetBalanceBy(playerId, selector) == Err(IllegalArgument("Economy not found: " + selector.economy))
    ensures api.DepositBy(playerId, selector, amount, reason) == Err(IllegalArgument("Economy not found: " + selector.economy))
    ensures api.WithdrawBy(playerId, selector, amount, reason) == Err(IllegalArgument("Economy not found: " + selector.economy))
    ensures api.SetBalanceBy(playerId, selector, amount, reason) == Err(IllegalArgument("Economy not found: " + selector.economy))
    ensures api.HasBalanceBy(playerId, selector, amount) == Err(IllegalArgument("Economy not found: " + selector.economy))
  {
  }

  /** On a fresh registry the default selector reads the built-in provider's "coins" balance. */
  method DefaultSelectorResolves(zEconomy: Provider, playerId: nat) returns (balance: Result<real>)
    ensures balance == Ok(zEconomy.balance(playerId, "coins"))
  {
    var api := new EconomyApi(zEconomy);
    balance := api.GetBalanceBy(playerId, DEFAULT_SELECTOR);
  }

  /** A fresh registry, then a new id, then the same id again: the second registration fails and the first stays. */
  method RegisterTwice(zEconomy: Provider, economy: Economy) returns (first: Result<()>, second: Result<()>, kept: Option<Economy>)
    requires economy.id != "ZEconomy"
    ensures first == Ok(()) && second.Err? && second.error.IllegalState?
    ensures kept == Some(economy)
  {
    var api := new EconomyApi(zEconomy);
    first := api.RegisterEconomy(economy);
    second := api.RegisterEconomy(Economy(economy.id, zEconomy));
    kept := api.GetEconomy(economy.id);
  }
}

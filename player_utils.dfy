/**
 * PlayerUtils: the cooldown a player's permissions grant, the human-readable
 * rest of a cooldown, and the routing of reward and config commands. The
 * permission service, the clock and the command manager are parameters.
 */
module Cooldowns {
  import opened Wrappers
  import opened JavaData
  import opened JavaText
  import opened Duration

  datatype Player = Player(uuid: nat, username: string)

  /** `c` is the smallest of the default and of every value whose key the player holds. */
  ghost predicate IsPermittedMinimum(values: map<string, int>, default: int, permitted: string -> bool, c: int) {
    c <= default &&
    (forall k :: k in values && permitted(k) ==> c <= values[k]) &&
    (c == default || exists k :: k in values && permitted(k) && values[k] == c)
  }

  /** The minimum is determined: both overloads compute the same number. */
  lemma MinimumUnique(values: map<string, int>, default: int, permitted: string -> bool, c1: int, c2: int)
    requires IsPermittedMinimum(values, default, permitted, c1)
    requires IsPermittedMinimum(values, default, permitted, c2)
    ensures c1 == c2
  {
    if c1 != default {
      var k :| k in values && permitted(k) && values[k] == c1;
    }
    if c2 != default {
      var k :| k in values && permitted(k) && values[k] == c2;
    }
  }

  /** What the permission service answers for a possibly absent player: nothing is held by nobody. */
  function Holds(player: Option<Player>, hasPermission: (Player, string) -> bool): (p: string -> bool)
    ensures player.None? ==> forall k :: !p(k)
    ensures player.Some? ==> forall k :: p(k) == hasPermission(player.value, k)
  {
    k => player.Some? && hasPermission(player.value, k)
  }

  /**
   * getCooldown(Map<String, Integer>, int, PlayerRef): walk the entries in
   * the map's own order, lowering the cooldown to every smaller value whose
   * key the player holds.
   */
  method GetCooldown(cooldowns: map<string, Int32>, defaultCooldown: Int32, player: Option<Player>,
                     hasPermission: (Player, string) -> bool)
    returns (cooldown: Int32)
    ensures IsPermittedMinimum(cooldowns, defaultCooldown, Holds(player, hasPermission), cooldown)
    ensures player.None? ==> cooldown == defaultCooldown
  {
    cooldown := defaultCooldown;
    var todo := cooldowns.Keys;
    while todo != {}
      invariant todo <= cooldowns.Keys
      invariant IsPermittedMinimum(map k | k in cooldowns && k !in todo :: cooldowns[k], defaultCooldown,
                                   Holds(player, hasPermission), cooldown)
      decreases |todo|
    {
      var k :| k in todo;
      if cooldowns[k] < cooldown && player.Some? && hasPermission(player.value, k) {
        cooldown := cooldowns[k];
      }
      todo := todo - {k};
    }
    assert (map k | k in cooldowns && k !in todo :: cooldowns[k]) == cooldowns;
  }

  /** The cooldowns as milliseconds. */
  function MillisOf(cooldowns: map<string, DurationValue>): (m: map<string, int>)
    ensures m.Keys == cooldowns.Keys
    ensures forall k :: k in m ==> m[k] == cooldowns[k].millis
  {
    map k | k in cooldowns :: cooldowns[k].millis
  }

  /**
   * getCooldown(Map<String, DurationValue>, DurationValue, PlayerRef): the
   * same minimum in milliseconds; an entry above the current best is passed
   * over before the permission is asked.
   */
  method GetCooldownMillis(cooldowns: map<string, DurationValue>, defaultCooldown: DurationValue,
                           player: Option<Player>, hasPermission: (Player, string) -> bool)
    returns (cooldown: int)
    ensures IsPermittedMinimum(MillisOf(cooldowns), defaultCooldown.millis, Holds(player, hasPermission), cooldown)
    ensures player.None? ==> cooldown == defaultCooldown.millis
  {
    cooldown := ToMillis(defaultCooldown);
    var todo := cooldowns.Keys;
    while todo != {}
      invariant todo <= cooldowns.Keys
      invariant IsPermittedMinimum(map k | k in cooldowns && k !in todo :: cooldowns[k].millis, defaultCooldown.millis,
                                   Holds(player, hasPermission), cooldown)
      decreases |todo|
    {
      var k :| k in todo;
      todo := todo - {k};
      if ToMillis(cooldowns[k]) > cooldown {
        continue;
      }
      if player.Some? && hasPermission(player.value, k) {
        cooldown := ToMillis(cooldowns[k]);
      }
    }
    assert (map k | k in cooldowns && k !in todo :: cooldowns[k].millis) == MillisOf(cooldowns);
  }

  /** The message templates of the language file. */
  datatype Lang = Lang(
    noCooldown: string,
    day: string, days: string,
    hour: string, hours: string,
    minute: string, minutes: string,
    second: string, seconds: string)

  /** Whole seconds split into days, hours of the day, minutes of the hour and seconds of the minute. */
  datatype Parts = Parts(days: nat, hours: nat, minutes: nat, seconds: nat)

  /** Each part but the days is below its next unit. */
  function Decompose(t: nat): (p: Parts)
    ensures p.hours < 24 && p.minutes < 60 && p.seconds < 60
  {
    Parts(t / 86400, (t / 3600) % 24, (t / 60) % 60, t % 60)
  }

  /** The parts add back up to the seconds. */
  lemma DecomposeRecombines(t: nat)
    ensures var p := Decompose(t);
      86400 * p.days + 3600 * p.hours + 60 * p.minutes + p.seconds == t
  {
    NestedDivisions(t);
    var mt := t / 60;
    var ht := t / 3600;
    assert t == 60 * mt + t % 60;
    assert mt == 60 * ht + mt % 60;
    assert ht == 24 * (t / 86400) + ht % 24;
  }

  /** Dividing by 60 twice is dividing by 3600; by 3600 and then 24 is by 86400. */
  lemma NestedDivisions(t: nat)
    ensures t / 60 / 60 == t / 3600
    ensures t / 3600 / 24 == t / 86400
  {
    var q := t / 3600;
    assert t == 3600 * q + t % 3600;
    var m := t / 60;
    assert t == 60 * m + t % 60;
    assert 60 * (m / 60) + m % 60 == m;
    var d := t / 86400;
    assert t == 86400 * d + t % 86400;
    assert 24 * (q / 24) + q % 24 == q;
  }

  /** One component: nothing when zero, else the singular or plural template with the number in place of %s. */
  function Component(n: nat, one: string, many: string): (s: string)
    ensures n == 0 ==> s == ""
  {
    if n == 0 then "" else Replace(if n == 1 then one else many, "%s", IntToString(n))
  }

  /** The appended components, in day, hour, minute, second order. */
  function Components(p: Parts, lang: Lang): string {
    Component(p.days, lang.day, lang.days) + Component(p.hours, lang.hour, lang.hours) +
    Component(p.minutes, lang.minute, lang.minutes) + Component(p.seconds, lang.second, lang.seconds)
  }

  /** One `if (n > 0) result.append(...)` of the formatter. */
  method AppendComponent(result: string, n: nat, one: string, many: string) returns (r: string)
    ensures r == result + Component(n, one, many)
  {
    r := result;
    if n > 0 {
      r := r + Replace(if n == 1 then one else many, "%s", IntToString(n));
    }
  }

  /**
   * The text for `timeMillis` left: none left is the no-cooldown text;
   * otherwise the components of the whole seconds left, trimmed, or the
   * no-cooldown text when every component is zero.
   */
  function CooldownText(timeMillis: int, lang: Lang): (s: string)
    ensures timeMillis < 1000 ==> s == lang.noCooldown
  {
    if timeMillis <= 0 then lang.noCooldown
    else
      var parts := Components(Decompose(timeMillis / 1000), lang);
      if parts == [] then lang.noCooldown else Trim(parts)
  }

  /**
   * getCooldown(long): the time left until `timestamp`, or the no-cooldown
   * text when none is left. The StringBuilder gets each non-zero component
   * in turn; an empty result gives the no-cooldown text, otherwise it is
   * trimmed.
   */
  method FormatCooldown(timestamp: int, now: int, lang: Lang) returns (text: string)
    ensures text == CooldownText(timestamp - now, lang)
  {
    var timeMillis := timestamp - now;
    if timeMillis <= 0 {
      return lang.noCooldown;
    }
    var t: nat := timeMillis / 1000;
    var parts := Decompose(t);
    var days, hours, minutes, seconds := parts.days, parts.hours, parts.minutes, parts.seconds;
    var result := "";
    result := AppendComponent(result, days, lang.day, lang.days);
    assert result == Component(days, lang.day, lang.days);
    result := AppendComponent(result, hours, lang.hour, lang.hours);
    result := AppendComponent(result, minutes, lang.minute, lang.minutes);
    result := AppendComponent(result, seconds, lang.second, lang.seconds);
    assert result == Components(Decompose(timeMillis / 1000), lang);
    text := if result == [] then lang.noCooldown else Trim(result);
  }

  /** A component is shown exactly when its number is not zero, if its templates print something. */
  lemma ComponentShown(n: nat, one: string, many: string)
    requires "%s" == one && "%s" == many
    ensures Component(n, one, many) == (if n == 0 then "" else IntToString(n))
  {
    if n > 0 {
      var s := IntToString(n);
      var tmpl := if n == 1 then one else many;
      assert tmpl[..2] == "%s";
      assert tmpl[2..] == "";
    }
  }

  /** getCooldown(Date): no date means no cooldown; otherwise its time is formatted. */
  method FormatCooldownOfDate(date: Option<int>, now: int, lang: Lang) returns (text: string)
    ensures date.None? ==> text == lang.noCooldown
    ensures date.Some? ==> text == CooldownText(date.value - now, lang)
  {
    if date.None? {
      return lang.noCooldown;
    }
    text := FormatCooldown(date.value, now, lang);
  }

  /** isCooldown(Date): a cooldown is active while now is before it. */
  function IsCooldownAt(cooldown: Option<int>, now: int): (active: bool)
    ensures active <==> cooldown.Some? && now < cooldown.value
  {
    if cooldown.None? then false else now < cooldown.value
  }

  /** isCooldown(Long): the same test through a Date of that instant. */
  function IsCooldown(cooldown: Option<Long>, now: int): (active: bool)
    ensures active <==> cooldown.Some? && now < cooldown.value
  {
    if cooldown.None? then false else IsCooldownAt(Some(cooldown.value as int), now)
  }

  datatype Sender = Console | AsPlayer(player: Player)

  /** What reaches the command manager. */
  datatype Dispatch = Dispatch(sender: Sender, command: string)

  /**
   * Both executors put the username in place of every %player% and hand
   * the command to the given sender; a missing player throws.
   */
  function ExecuteAs(sender: Option<Player> -> Sender, command: string, player: Option<Player>): (r: Result<Dispatch>)
    ensures player.None? <==> r == Err(NullPointer)
    ensures r.Ok? ==> r.value.sender == sender(player)
    ensures r.Ok? && !Occurs(command, "%player%") ==> r.value.command == command
  {
    if player.None? then Err(NullPointer)
    else
      var d := Dispatch(sender(player), Replace(command, "%player%", player.value.username));
      if Occurs(command, "%player%") then Ok(d)
      else ReplaceAbsent(command, "%player%", player.value.username); Ok(d)
  }

  function ConsoleSender(player: Option<Player>): Sender {
    Console
  }

  function PlayerSender(player: Option<Player>): Sender {
    if player.Some? then AsPlayer(player.value) else Console
  }

  /** executeCommandAsConsole. */
  function ExecuteCommandAsConsole(command: string, player: Option<Player>): (r: Result<Dispatch>)
    ensures r.Ok? ==> r.value.sender == Console
    ensures r == ExecuteAs(ConsoleSender, command, player)
  {
    ExecuteAs(ConsoleSender, command, player)
  }

  /** executeCommandAsPlayer. */
  function ExecuteCommandAsPlayer(command: string, player: Option<Player>): (r: Result<Dispatch>)
    ensures r.Ok? ==> player.Some? && r.value.sender == AsPlayer(player.value)
    ensures r == ExecuteAs(PlayerSender, command, player)
  {
    ExecuteAs(PlayerSender, command, player)
  }

  /**
   * executeCommand: `console:` runs as the console and `player:` as the
   * player, each with its prefix removed; anything else runs as the
   * console unchanged.
   */
  function ExecuteCommand(command: string, player: Option<Player>): (r: Result<Dispatch>)
    ensures player.None? <==> r == Err(NullPointer)
    ensures r.Ok? && r.value.sender != Console ==>
      !StartsWith(command, "console:") && StartsWith(command, "player:") && r.value.sender == AsPlayer(player.value)
  {
    if StartsWith(command, "console:") then ExecuteCommandAsConsole(ReplaceFirst(command, "console:", ""), player)
    else if StartsWith(command, "player:") then ExecuteCommandAsPlayer(ReplaceFirst(command, "player:", ""), player)
    else ExecuteCommandAsConsole(command, player)
  }

  /** `console:` is stripped and the rest runs as the console. */
  lemma ConsolePrefixRoutes(rest: string, player: Player)
    ensures ExecuteCommand("console:" + rest, Some(player)) ==
      Ok(Dispatch(Console, Replace(rest, "%player%", player.username)))
  {
    var c := "console:" + rest;
    assert StartsWith(c, "console:") by {
      assert c[..8] == "console:";
    }
    ReplaceFirstPrefix(c, "console:");
    assert c[8..] == rest;
  }

  /** `player:` is stripped and the rest runs as the player. */
  lemma PlayerPrefixRoutes(rest: string, player: Player)
    ensures ExecuteCommand("player:" + rest, Some(player)) ==
      Ok(Dispatch(AsPlayer(player), Replace(rest, "%player%", player.username)))
  {
    var c := "player:" + rest;
    assert !StartsWith(c, "console:") by {
      assert c[0] == 'p';
    }
    assert StartsWith(c, "player:") by {
      assert c[..7] == "player:";
    }
    ReplaceFirstPrefix(c, "player:");
    assert c[7..] == rest;
  }

  /** Any other command runs as the console, as written. */
  lemma UnprefixedRoutes(command: string, player: Player)
    requires !StartsWith(command, "console:") && !StartsWith(command, "player:")
    ensures ExecuteCommand(command, Some(player)) ==
      Ok(Dispatch(Console, Replace(command, "%player%", player.username)))
  {
  }

  /** A command without the placeholder reaches the manager verbatim. */
  lemma CommandWithoutPlaceholder(command: string, player: Player)
    requires !StartsWith(command, "console:") && !StartsWith(command, "player:")
    requires !Occurs(command, "%player%")
    ensures ExecuteCommand(command, Some(player)) == Ok(Dispatch(Console, command))
  {
    ReplaceAbsent(command, "%player%", player.username);
  }
}

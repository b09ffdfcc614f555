/**
  The in-memory part of utils/config.py: the global configuration and the per-guild
  configurations, with the validating and clamping setters of `ConfigManager`.
  Loading and saving JSON files is not modelled, so a manager starts from the
  defaults and every guild configuration it creates is the default one.
*/
module Config {
  import opened Wrappers

  // ---------- The dataclasses ----------

  datatype CritRules = CritRules(d20CritSuccess: int, d20CritFailure: int, d100CritSuccess: int, d100CritFailure: int)

  const DefaultCritRules := CritRules(20, 1, 1, 100)

  /** How one log sink streams: `mode` is "live" or "batch". */
  datatype StreamSettings = StreamSettings(mode: string, throttleMs: int, chunkLimit: int)

  const DefaultStreamSettings := StreamSettings("live", 200, 1800)

  datatype RestartSettings = RestartSettings(mode: string, service: string)

  const DefaultRestartSettings := RestartSettings("execv", "trpg-bot.service")

  datatype GlobalConfig = GlobalConfig(
    devUserIds: seq<int>, restart: RestartSettings, gstreamChannelId: int, gstream: StreamSettings)

  const DefaultGlobalConfig := GlobalConfig([], DefaultRestartSettings, 0, DefaultStreamSettings)

  datatype GuildConfig = GuildConfig(
    critLogChannelId: int, streamLogChannelId: int, stream: StreamSettings, crit: CritRules)

  const DefaultGuildConfig := GuildConfig(0, 0, DefaultStreamSettings, DefaultCritRules)

  /** The `ValueError` a setter raises for a value outside its whitelist. */
  datatype ConfigError = ValueError(message: string)

  // ---------- Validation and normalisation ----------

  predicate IsStreamMode(mode: string) {
    mode == "live" || mode == "batch"
  }

  predicate IsRestartMode(mode: string) {
    mode == "execv" || mode == "systemd_user" || mode == "systemd_system"
  }

  const ServiceSuffix := ".service"

  predicate EndsWith(s: string, suffix: string) {
    |suffix| <= |s| && s[|s| - |suffix|..] == suffix
  }

  /** `name if name.endswith(".service") else name + ".service"`. */
  function NormalizeService(name: string): (r: string)
    ensures EndsWith(r, ServiceSuffix)
    ensures EndsWith(name, ServiceSuffix) ==> r == name
    ensures !EndsWith(name, ServiceSuffix) ==> r == name + ServiceSuffix
  {
    if EndsWith(name, ServiceSuffix) then name
    else
      var r := name + ServiceSuffix;
      assert r[|r| - |ServiceSuffix|..] == ServiceSuffix;
      r
  }

  /** Normalising a service name twice is normalising it once. */
  lemma NormalizeServiceIdempotent(name: string)
    ensures NormalizeService(NormalizeService(name)) == NormalizeService(name)
  {
  }

  /** `max(0, ms)`. */
  function ClampThrottle(ms: int): (r: int)
    ensures r >= 0
    ensures ms >= 0 ==> r == ms
    ensures ms < 0 ==> r == 0
  {
    if ms < 0 then 0 else ms
  }

  const MinChunkLimit := 200

  /** `max(200, n)`. */
  function ClampChunkLimit(n: int): (r: int)
    ensures r >= MinChunkLimit
    ensures n >= MinChunkLimit ==> r == n
    ensures n < MinChunkLimit ==> r == MinChunkLimit
  {
    if n < MinChunkLimit then MinChunkLimit else n
  }

  /** What every stored stream setting satisfies once the setters are the only writers. */
  predicate SettingsValid(s: StreamSettings) {
    IsStreamMode(s.mode) && s.throttleMs >= 0 && s.chunkLimit >= MinChunkLimit
  }

  // ---------- The developer list ----------

  predicate NoDup(s: seq<int>) {
    forall i, j | 0 <= i < j < |s| :: s[i] != s[j]
  }

  /** The list after `add_dev_user(u)`: appended only when absent. */
  function WithDev(ids: seq<int>, u: int): (r: seq<int>)
    ensures u in r
    ensures forall x :: x in r <==> x in ids || x == u
    ensures u in ids ==> r == ids
    ensures NoDup(ids) ==> NoDup(r)
  {
    if u in ids then ids else ids + [u]
  }

  /** Index of the first occurrence of `u`. */
  function IndexOf(ids: seq<int>, u: int): (i: nat)
    requires u in ids
    ensures i < |ids| && ids[i] == u && u !in ids[..i]
  {
    if ids[0] == u then 0 else 1 + IndexOf(ids[1..], u)
  }

  /** Python's `list.remove(u)` on a list that may lack `u`. */
  function RemoveFirst(ids: seq<int>, u: int): seq<int> {
    if ids == [] then []
    else if ids[0] == u then ids[1..]
    else [ids[0]] + RemoveFirst(ids[1..], u)
  }

  /** Removal drops the first occurrence of `u` and keeps the order of the rest;
      without an occurrence the list is unchanged. */
  lemma {:induction false} RemoveFirstDropsFirst(ids: seq<int>, u: int)
    ensures u !in ids ==> RemoveFirst(ids, u) == ids
    ensures u in ids ==> RemoveFirst(ids, u) == ids[..IndexOf(ids, u)] + ids[IndexOf(ids, u) + 1..]
  {
    if ids != [] && ids[0] != u {
      var tail := ids[1..];
      RemoveFirstDropsFirst(tail, u);
      if u in ids {
        var i := IndexOf(tail, u);
        assert IndexOf(ids, u) == 1 + i;
        assert ids[..1 + i] == [ids[0]] + tail[..i];
        assert ids[1 + i + 1..] == tail[i + 1..];
      } else {
        assert ids == [ids[0]] + tail;
      }
    }
  }

  /** Removing from a duplicate-free list removes the element entirely and keeps
      the rest duplicate-free. */
  lemma {:induction false} RemoveFirstNoDup(ids: seq<int>, u: int)
    requires NoDup(ids)
    ensures NoDup(RemoveFirst(ids, u)) && u !in RemoveFirst(ids, u)
    ensures forall x :: x in RemoveFirst(ids, u) <==> x in ids && x != u
  {
    if ids != [] && ids[0] != u {
      assert NoDup(ids[1..]);
      RemoveFirstNoDup(ids[1..], u);
      assert ids[0] !in ids[1..];
    }
  }

  /** The list after `remove_dev_user(u)`, which only removes when `u` is present. */
  function WithoutDev(ids: seq<int>, u: int): (r: seq<int>)
    requires NoDup(ids)
    ensures NoDup(r) && u !in r
    ensures u !in ids ==> r == ids
    ensures forall x :: x in r <==> x in ids && x != u
  {
    if u in ids then RemoveFirstNoDup(ids, u); RemoveFirst(ids, u) else ids
  }

  // ---------- Crit rules set by keyword ----------

  /** `setattr(cfg.crit, k, int(v))` for one of the four field names; any other name is ignored. */
  function ApplyCritKwarg(c: CritRules, name: string, v: int): CritRules {
    if name == "d20_crit_success" then c.(d20CritSuccess := v)
    else if name == "d20_crit_failure" then c.(d20CritFailure := v)
    else if name == "d100_crit_success" then c.(d100CritSuccess := v)
    else if name == "d100_crit_failure" then c.(d100CritFailure := v)
    else c
  }

  /** The keyword arguments applied in order. */
  function ApplyCritKwargs(c: CritRules, kwargs: seq<(string, int)>): CritRules {
    if kwargs == [] then c
    else
      var last := kwargs[|kwargs| - 1];
      ApplyCritKwarg(ApplyCritKwargs(c, kwargs[..|kwargs| - 1]), last.0, last.1)
  }

  /** The value given last for `name`, or `default` when it is never given. */
  function LastValue(kwargs: seq<(string, int)>, name: string, default: int): int {
    if kwargs == [] then default
    else if kwargs[|kwargs| - 1].0 == name then kwargs[|kwargs| - 1].1
    else LastValue(kwargs[..|kwargs| - 1], name, default)
  }

  /** Each crit field ends up with the last value given for its name, and keeps its
      old value when none is given. */
  lemma {:induction false} ApplyCritKwargsFields(c: CritRules, kwargs: seq<(string, int)>)
    ensures ApplyCritKwargs(c, kwargs) == CritRules(
      LastValue(kwargs, "d20_crit_success", c.d20CritSuccess),
      LastValue(kwargs, "d20_crit_failure", c.d20CritFailure),
      LastValue(kwargs, "d100_crit_success", c.d100CritSuccess),
      LastValue(kwargs, "d100_crit_failure", c.d100CritFailure))
  {
    if kwargs != [] {
      ApplyCritKwargsFields(c, kwargs[..|kwargs| - 1]);
    }
  }

  // ---------- The guild cache scan ----------

  /** The cached guild ids, in insertion order, whose stream channel id is non-zero. */
  function StreamGuilds(order: seq<int>, cache: map<int, GuildConfig>): (ids: seq<int>)
    requires forall g | g in order :: g in cache
    ensures forall g :: g in ids <==> g in order && cache[g].streamLogChannelId != 0
    ensures NoDup(order) ==> NoDup(ids)
  {
    if order == [] then []
    else
      var g := order[|order| - 1];
      var init := StreamGuilds(order[..|order| - 1], cache);
      assert forall x :: x in order <==> x in order[..|order| - 1] || x == g;
      if cache[g].streamLogChannelId != 0 then init + [g] else init
  }

  /** The key order of a dict after `d[g] = ...`: a new key goes last. */
  function Touch(order: seq<int>, g: int): (r: seq<int>)
    ensures forall x :: x in r <==> x in order || x == g
    ensures NoDup(order) ==> NoDup(r)
  {
    if g in order then order else order + [g]
  }

  // ---------- ConfigManager ----------

  class ConfigManager {
    var globalConfig: GlobalConfig
    /** `guild_cache`, with its keys in insertion order (the order Python iterates a dict). */
    var guildCache: map<int, GuildConfig>
    var cacheOrder: seq<int>

    ghost predicate Valid()
      reads this
    {
      && NoDup(cacheOrder)
      && (forall g :: g in guildCache <==> g in cacheOrder)
      && NoDup(globalConfig.devUserIds)
      && IsRestartMode(globalConfig.restart.mode)
      && EndsWith(globalConfig.restart.service, ServiceSuffix)
      && SettingsValid(globalConfig.gstream)
      && (forall g | g in guildCache :: SettingsValid(guildCache[g].stream))
    }

    constructor ()
      ensures Valid()
      ensures globalConfig == DefaultGlobalConfig && guildCache == map[] && cacheOrder == []
    {
      globalConfig := DefaultGlobalConfig;
      guildCache := map[];
      cacheOrder := [];
      assert "trpg-bot.service"[|"trpg-bot.service"| - |ServiceSuffix|..] == ServiceSuffix;
    }

    /** What `get_guild_cfg(g)` returns: the cached configuration, or the default one
        it would create. */
    function GuildView(g: int): GuildConfig
      reads this
    {
      if g in guildCache then guildCache[g] else DefaultGuildConfig
    }

    // ----- Developers -----

    function GetDevUserIds(): seq<int>
      reads this
    {
      globalConfig.devUserIds
    }

    predicate IsDeveloper(u: int)
      reads this
    {
      u in globalConfig.devUserIds
    }

    method AddDevUser(u: int)
      requires Valid()
      modifies this
      ensures Valid() && IsDeveloper(u)
      ensures globalConfig == old(globalConfig).(devUserIds := WithDev(old(globalConfig.devUserIds), u))
      ensures guildCache == old(guildCache) && cacheOrder == old(cacheOrder)
    {
      if u !in globalConfig.devUserIds {
        globalConfig := globalConfig.(devUserIds := globalConfig.devUserIds + [u]);
      }
    }

    method RemoveDevUser(u: int)
      requires Valid()
      modifies this
      ensures Valid() && !IsDeveloper(u)
      ensures globalConfig == old(globalConfig).(devUserIds := WithoutDev(old(globalConfig.devUserIds), u))
      ensures guildCache == old(guildCache) && cacheOrder == old(cacheOrder)
    {
      if u in globalConfig.devUserIds {
        RemoveFirstNoDup(globalConfig.devUserIds, u);
        globalConfig := globalConfig.(devUserIds := RemoveFirst(globalConfig.devUserIds, u));
      }
    }

    // ----- Restart -----

    function GetRestart(): RestartSettings
      reads this
    {
      globalConfig.restart
    }

    method SetRestartMode(mode: string) returns (err: Option<ConfigError>)
      requires Valid()
      modifies this
      ensures Valid()
      ensures err.None? <==> IsRestartMode(mode)
      ensures err.Some? ==> globalConfig == old(globalConfig)
      ensures err.None? ==> globalConfig == old(globalConfig).(restart := old(globalConfig.restart).(mode := mode))
      ensures guildCache == old(guildCache) && cacheOrder == old(cacheOrder)
    {
      if !IsRestartMode(mode) {
        return Some(ValueError("mode 必須是 execv / systemd_user / systemd_system"));
      }
      globalConfig := globalConfig.(restart := globalConfig.restart.(mode := mode));
      err := None;
    }

    method SetRestartService(name: string)
      requires Valid()
      modifies this
      ensures Valid() && EndsWith(GetRestart().service, ServiceSuffix)
      ensures globalConfig == old(globalConfig).(restart := old(globalConfig.restart).(service := NormalizeService(name)))
      ensures guildCache == old(guildCache) && cacheOrder == old(cacheOrder)
    {
      var n := name;
      if !EndsWith(n, ServiceSuffix) {
        n := n + ServiceSuffix;
      }
      globalConfig := globalConfig.(restart := globalConfig.restart.(service := n));
    }

    // ----- Guild configurations -----

    /** `get_guild_cfg(g)`: the cached configuration, created (as the default) and
        cached on first use. */
    method GetGuildCfg(g: int) returns (cfg: GuildConfig)
      requires Valid()
      modifies this
      ensures Valid()
      ensures cfg == old(GuildView(g)) && g in guildCache && guildCache[g] == cfg
      ensures g in old(guildCache) ==> guildCache == old(guildCache) && cacheOrder == old(cacheOrder)
      ensures g !in old(guildCache) ==> guildCache == old(guildCache)[g := DefaultGuildConfig] && cacheOrder == old(cacheOrder) + [g]
      ensures globalConfig == old(globalConfig)
    {
      if g in guildCache {
        cfg := guildCache[g];
      } else {
        cfg := DefaultGuildConfig;
        guildCache := guildCache[g := cfg];
        cacheOrder := cacheOrder + [g];
      }
    }

    /** Store an updated configuration for `g` (the in-place field assignment). */
    method PutGuildCfg(g: int, cfg: GuildConfig)
      requires Valid() && SettingsValid(cfg.stream)
      modifies this
      ensures Valid()
      ensures guildCache == old(guildCache)[g := cfg] && cacheOrder == Touch(old(cacheOrder), g)
      ensures globalConfig == old(globalConfig)
    {
      guildCache := guildCache[g := cfg];
      cacheOrder := Touch(cacheOrder, g);
    }

    method GetCritRules(g: Option<int>) returns (c: CritRules)
      requires Valid()
      modifies this
      ensures Valid()
      ensures g.None? ==> c == DefaultCritRules && guildCache == old(guildCache) && cacheOrder == old(cacheOrder)
      ensures g.Some? ==> c == old(GuildView(g.value)).crit && g.value in guildCache
      ensures g.Some? ==> guildCache == old(guildCache)[g.value := old(GuildView(g.value))] && cacheOrder == Touch(old(cacheOrder), g.value)
      ensures globalConfig == old(globalConfig)
    {
      if g.None? {
        return DefaultCritRules;
      }
      var cfg := GetGuildCfg(g.value);
      c := cfg.crit;
    }

    /** `set_crit_rules(g, **kwargs)`: each known field name is set, in order. */
    method SetCritRules(g: int, kwargs: seq<(string, int)>)
      requires Valid()
      modifies this
      ensures Valid()
      ensures guildCache == old(guildCache)[g := old(GuildView(g)).(crit := ApplyCritKwargs(old(GuildView(g)).crit, kwargs))]
      ensures cacheOrder == Touch(old(cacheOrder), g) && globalConfig == old(globalConfig)
    {
      var cfg := GetGuildCfg(g);
      var crit := cfg.crit;
      var i := 0;
      while i < |kwargs|
        invariant 0 <= i <= |kwargs|
        invariant crit == ApplyCritKwargs(cfg.crit, kwargs[..i])
      {
        var (k, v) := kwargs[i];
        assert kwargs[..i + 1][..i] == kwargs[..i];
        crit := ApplyCritKwarg(crit, k, v);
        i := i + 1;
      }
      assert kwargs[..i] == kwargs;
      PutGuildCfg(g, cfg.(crit := crit));
    }

    method GetCritLogChannelId(g: int) returns (id: int)
      requires Valid()
      modifies this
      ensures Valid()
      ensures id == old(GuildView(g)).critLogChannelId
      ensures guildCache == old(guildCache)[g := old(GuildView(g))] && cacheOrder == Touch(old(cacheOrder), g)
      ensures globalConfig == old(globalConfig)
    {
      var cfg := GetGuildCfg(g);
      id := cfg.critLogChannelId;
    }

    method SetCritLogChannel(g: int, channelId: int)
      requires Valid()
      modifies this
      ensures Valid()
      ensures guildCache == old(guildCache)[g := old(GuildView(g)).(critLogChannelId := channelId)]
      ensures cacheOrder == Touch(old(cacheOrder), g) && globalConfig == old(globalConfig)
    {
      var cfg := GetGuildCfg(g);
      PutGuildCfg(g, cfg.(critLogChannelId := channelId));
    }

    method GetStreamLogChannelId(g: int) returns (id: int)
      requires Valid()
      modifies this
      ensures Valid()
      ensures id == old(GuildView(g)).streamLogChannelId
      ensures guildCache == old(guildCache)[g := old(GuildView(g))] && cacheOrder == Touch(old(cacheOrder), g)
      ensures globalConfig == old(globalConfig)
    {
      var cfg := GetGuildCfg(g);
      id := cfg.streamLogChannelId;
    }

    method SetStreamLogChannel(g: int, channelId: int)
      requires Valid()
      modifies this
      ensures Valid()
      ensures guildCache == old(guildCache)[g := old(GuildView(g)).(streamLogChannelId := channelId)]
      ensures cacheOrder == Touch(old(cacheOrder), g) && globalConfig == old(globalConfig)
    {
      var cfg := GetGuildCfg(g);
      PutGuildCfg(g, cfg.(streamLogChannelId := channelId));
    }

    /** `clear_stream_log_channel(g)`: only the stream channel id changes, to 0. */
    method ClearStreamLogChannel(g: int)
      requires Valid()
      modifies this
      ensures Valid()
      ensures guildCache == old(guildCache)[g := old(GuildView(g)).(streamLogChannelId := 0)]
      ensures cacheOrder == Touch(old(cacheOrder), g) && globalConfig == old(globalConfig)
    {
      var cfg := GetGuildCfg(g);
      PutGuildCfg(g, cfg.(streamLogChannelId := 0));
    }

    method GetStreamSettings(g: int) returns (s: StreamSettings)
      requires Valid()
      modifies this
      ensures Valid() && SettingsValid(s)
      ensures s == old(GuildView(g)).stream
      ensures guildCache == old(guildCache)[g := old(GuildView(g))] && cacheOrder == Touch(old(cacheOrder), g)
      ensures globalConfig == old(globalConfig)
    {
      var cfg := GetGuildCfg(g);
      s := cfg.stream;
    }

    /** `set_stream_mode(g, mode)`: the mode is checked before the guild is even
        looked up, so a rejected mode leaves everything as it was. */
    method SetStreamMode(g: int, mode: string) returns (err: Option<ConfigError>)
      requires Valid()
      modifies this
      ensures Valid()
      ensures err.None? <==> IsStreamMode(mode)
      ensures err.Some? ==> guildCache == old(guildCache) && cacheOrder == old(cacheOrder)
      ensures err.None? ==> guildCache == old(guildCache)[g := old(GuildView(g)).(stream := old(GuildView(g)).stream.(mode := mode))]
      ensures err.None? ==> cacheOrder == Touch(old(cacheOrder), g)
      ensures globalConfig == old(globalConfig)
    {
      if !IsStreamMode(mode) {
        return Some(ValueError("mode 必須是 live / batch"));
      }
      var cfg := GetGuildCfg(g);
      PutGuildCfg(g, cfg.(stream := cfg.stream.(mode := mode)));
      err := None;
    }

    method SetStreamThrottle(g: int, ms: int)
      requires Valid()
      modifies this
      ensures Valid() && g in guildCache && guildCache[g].stream.throttleMs >= 0
      ensures guildCache == old(guildCache)[g := old(GuildView(g)).(stream := old(GuildView(g)).stream.(throttleMs := ClampThrottle(ms)))]
      ensures cacheOrder == Touch(old(cacheOrder), g) && globalConfig == old(globalConfig)
    {
      var cfg := GetGuildCfg(g);
      PutGuildCfg(g, cfg.(stream := cfg.stream.(throttleMs := if 0 < ms then ms else 0)));
    }

    method SetStreamChunkLimit(g: int, n: int)
      requires Valid()
      modifies this
      ensures Valid() && g in guildCache && guildCache[g].stream.chunkLimit >= MinChunkLimit
      ensures guildCache == old(guildCache)[g := old(GuildView(g)).(stream := old(GuildView(g)).stream.(chunkLimit := ClampChunkLimit(n)))]
      ensures cacheOrder == Touch(old(cacheOrder), g) && globalConfig == old(globalConfig)
    {
      var cfg := GetGuildCfg(g);
      PutGuildCfg(g, cfg.(stream := cfg.stream.(chunkLimit := if MinChunkLimit < n then n else MinChunkLimit)));
    }

    /** The cache half of `guilds_with_stream_channel()`: the cached guild ids, in
        cache order, whose stream channel id is non-zero. */
    method GuildsWithStreamChannel() returns (ids: seq<int>)
      requires Valid()
      ensures ids == StreamGuilds(cacheOrder, guildCache)
      ensures forall g :: g in ids <==> g in guildCache && guildCache[g].streamLogChannelId != 0
      ensures NoDup(ids)
    {
      ids := [];
      var i := 0;
      while i < |cacheOrder|
        invariant 0 <= i <= |cacheOrder|
        invariant ids == StreamGuilds(cacheOrder[..i], guildCache)
      {
        var g := cacheOrder[i];
        assert cacheOrder[..i + 1][..i] == cacheOrder[..i];
        if guildCache[g].streamLogChannelId != 0 {
          ids := ids + [g];
        }
        i := i + 1;
      }
      assert cacheOrder[..i] == cacheOrder;
    }

    // ----- The global stream -----

    function GetGlobalStreamChannelId(): int
      reads this
    {
      globalConfig.gstreamChannelId
    }

    method SetGlobalStreamChannel(channelId: int)
      requires Valid()
      modifies this
      ensures Valid()
      ensures globalConfig == old(globalConfig).(gstreamChannelId := channelId)
      ensures guildCache == old(guildCache) && cacheOrder == old(cacheOrder)
    {
      globalConfig := globalConfig.(gstreamChannelId := channelId);
    }

    method ClearGlobalStreamChannel()
      requires Valid()
      modifies this
      ensures Valid()
      ensures globalConfig == old(globalConfig).(gstreamChannelId := 0)
      ensures guildCache == old(guildCache) && cacheOrder == old(cacheOrder)
    {
      globalConfig := globalConfig.(gstreamChannelId := 0);
    }

    function GetGlobalStreamSettings(): StreamSettings
      reads this
    {
      globalConfig.gstream
    }

    method SetGlobalStreamMode(mode: string) returns (err: Option<ConfigError>)
      requires Valid()
      modifies this
      ensures Valid()
      ensures err.None? <==> IsStreamMode(mode)
      ensures err.Some? ==> globalConfig == old(globalConfig)
      ensures err.None? ==> globalConfig == old(globalConfig).(gstream := old(globalConfig.gstream).(mode := mode))
      ensures guildCache == old(guildCache) && cacheOrder == old(cacheOrder)
    {
      if !IsStreamMode(mode) {
        return Some(ValueError("mode 必須是 live / batch"));
      }
      globalConfig := globalConfig.(gstream := globalConfig.gstream.(mode := mode));
      err := None;
    }

    method SetGlobalStreamThrottle(ms: int)
      requires Valid()
      modifies this
      ensures Valid()
      ensures globalConfig == old(globalConfig).(gstream := old(globalConfig.gstream).(throttleMs := ClampThrottle(ms)))
      ensures guildCache == old(guildCache) && cacheOrder == old(cacheOrder)
    {
      globalConfig := globalConfig.(gstream := globalConfig.gstream.(throttleMs := if 0 < ms then ms else 0));
    }

    method SetGlobalStreamChunkLimit(n: int)
      requires Valid()
      modifies this
      ensures Valid()
      ensures globalConfig == old(globalConfig).(gstream := old(globalConfig.gstream).(chunkLimit := ClampChunkLimit(n)))
      ensures guildCache == old(guildCache) && cacheOrder == old(cacheOrder)
    {
      globalConfig := globalConfig.(gstream := globalConfig.gstream.(chunkLimit := if MinChunkLimit < n then n else MinChunkLimit));
    }
  }
}

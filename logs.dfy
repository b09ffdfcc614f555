/**
  `LogsCog` of cogs/logs.py: the per-sink live states, the relay's handling of
  one queued line, and the three stream commands that reset a sink. Each method
  is proved to change the cog exactly as the matching function of `Relay` says;
  the properties of the relay are proved about those functions.

  `LOG_QUEUE`, the module-level queue every log record is put on, is the field
  `logQueue`; the transport calls the cog makes are recorded in `calls`.
*/
module Logs {
  import opened Wrappers
  import opened Relay
  import Config

  class LogsCog {
    const config: Config.ConfigManager
    /** `_live_state`: guild id to live state, 0 for the global sink. */
    var liveState: map<int, LiveState>
    var logQueue: seq<string>
    var calls: seq<Call>

    function Snapshot(): World
      reads this
    {
      World(liveState, logQueue, calls)
    }

    /** The cog starts with no live state and finds in `LOG_QUEUE` whatever was
        logged before it was added: `queued`. */
    constructor (config: Config.ConfigManager, queued: seq<string>)
      ensures this.config == config
      ensures liveState == map[] && logQueue == queued && calls == []
    {
      this.config := config;
      liveState := map[];
      logQueue := queued;
      calls := [];
    }

    /** `LOG_QUEUE.put_nowait(msg)`, as `DiscordQueueHandler.emit` does for every record. */
    method Emit(msg: string)
      modifies this
      ensures logQueue == old(logQueue) + [msg]
      ensures liveState == old(liveState) && calls == old(calls)
    {
      logQueue := logQueue + [msg];
    }

    /** The stream settings of a sink: the global ones for key 0, else the guild's. */
    function SinkSettings(k: int): Config.StreamSettings
      reads config
    {
      if k == GlobalKey then config.globalConfig.gstream else config.GuildView(k).stream
    }

    /** `_state(k)`: the entry for `k`, inserting a fresh one when there is none. */
    method State(k: int) returns (st: LiveState)
      modifies this
      ensures st == StateOf(old(liveState), k)
      ensures liveState == old(liveState)[k := st]
      ensures logQueue == old(logQueue) && calls == old(calls)
    {
      if k in liveState {
        st := liveState[k];
        assert liveState == liveState[k := st];
      } else {
        st := LiveState(None, [], 0);
        liveState := liveState[k := st];
      }
    }

    /** `_ensure_live_message` on the state of one sink: the state afterwards and the
        messages sent. */
    static method EnsureStep(st: LiveState, limit: int, channel: int, sendResult: Option<Handle>)
      returns (next: LiveState, sent: seq<Call>)
      ensures (next, sent) == EnsureSpec(st, limit, channel, sendResult)
    {
      next, sent := st, [];
      var content := RenderLiveText(st.buffer, limit);
      if st.message.None? {
        sent := [Send(channel, if !Text.AllSpace(content) then content else StartText)];
        next := st.(message := sendResult);
      } else if |content| > MaxLiveText {
        sent := [Send(channel, ContinuedText)];
        if sendResult.Some? {
          next := st.(message := sendResult, buffer := []);
        } else {
          next := st.(message := None);
        }
      }
    }

    /** `_ensure_live_message(k, channel)`. */
    method EnsureLiveMessage(k: int, channel: int, sendResult: Option<Handle>)
      modifies this
      ensures var (st, sent) := EnsureSpec(StateOf(old(liveState), k), SinkSettings(k).chunkLimit, channel, sendResult);
        liveState == old(liveState)[k := st] && calls == old(calls) + sent
      ensures logQueue == old(logQueue)
    {
      var limit := SinkSettings(k).chunkLimit;
      var st := State(k);
      var next, sent := EnsureStep(st, limit, channel, sendResult);
      calls := calls + sent;
      StoreTwice(old(liveState), k, st, next);
      liveState := liveState[k := next];
      assert limit == SinkSettings(k).chunkLimit;
    }

    method LivePush(k: int, channel: int, line: string, io: SinkIo)
      modifies this
      ensures var (st, made) := LivePushSpec(StateOf(old(liveState), k), line, SinkSettings(k), channel, io);
        liveState == old(liveState)[k := st] && calls == old(calls) + made
      ensures logQueue == old(logQueue)
    {
      ghost var live0 := liveState;
      AppendLine(k, line);
      ghost var appended := liveState[k];
      EnsureLiveMessage(k, channel, io.sendResult);
      ghost var ensured := liveState[k];
      StoreTwice(live0, k, appended, ensured);
      EditIfDue(k, io);
      StoreTwice(live0, k, ensured, liveState[k]);
    }

    /** `st.buffer.append(line)` on the state for `k`, created if need be. */
    method AppendLine(k: int, line: string)
      modifies this
      ensures liveState == old(liveState)[k := StateOf(old(liveState), k).(buffer := StateOf(old(liveState), k).buffer + [line])]
      ensures logQueue == old(logQueue) && calls == old(calls)
    {
      var st := State(k);
      StoreTwice(old(liveState), k, st, st.(buffer := st.buffer + [line]));
      liveState := liveState[k := st.(buffer := st.buffer + [line])];
    }

    /** The throttle check and the edit of `_live_push`, on an existing state. */
    method EditIfDue(k: int, io: SinkIo)
      requires k in liveState
      modifies this
      ensures var (st, edits) := EditStep(old(liveState[k]), SinkSettings(k), io);
        liveState == old(liveState)[k := st] && calls == old(calls) + edits
      ensures logQueue == old(logQueue)
    {
      var s := SinkSettings(k);
      var st := liveState[k];
      if io.now - st.lastEditTs < s.throttleMs {
        assert liveState == liveState[k := st];
        return;
      }
      if st.message.None? {
        assert liveState == liveState[k := st];
        return;
      }
      calls := calls + [Edit(st.message.value, RenderLiveText(st.buffer, s.chunkLimit))];
      if io.editOk {
        st := st.(lastEditTs := io.editedAt);
      } else {
        st := st.(message := None);
      }
      liveState := liveState[k := st];
    }

    /** The collecting loop of `_batch_push`: take queued lines after `firstLine`
        until the total exceeds 1800 or the queue is empty (the one-second wait
        would time out). */
    static method CollectBatch(firstLine: string, queue: seq<string>) returns (batch: seq<string>, rest: seq<string>)
      ensures var n := BatchTake(|firstLine|, queue);
        batch == [firstLine] + queue[..n] && rest == queue[n..]
    {
      rest := queue;
      ghost var n := 0;
      batch := [firstLine];
      while rest != []
        invariant n <= |queue| && rest == queue[n..]
        invariant batch == [firstLine] + queue[..n]
        invariant BatchTake(|firstLine|, queue) == n + BatchTake(Text.TotalLength(batch), rest)
        decreases |rest|
      {
        var msg := rest[0];
        BatchTakeStep(batch, rest);
        rest := rest[1..];
        batch := batch + [msg];
        n := n + 1;
        assert queue[..n] == queue[..n - 1] + [msg];
        if Text.TotalLength(batch) > BatchBudget {
          break;
        }
      }
    }

    /** `_batch_push`: collect a batch off the queue, then send one message; a failed
        send is ignored. */
    method BatchPush(channel: int, firstLine: string)
      modifies this
      ensures var n := BatchTake(|firstLine|, old(logQueue));
        && logQueue == old(logQueue)[n..]
        && calls == old(calls) + [Send(channel, BatchText([firstLine] + old(logQueue)[..n]))]
      ensures liveState == old(liveState)
    {
      var batch, rest := CollectBatch(firstLine, logQueue);
      logQueue := rest;
      calls := calls + [Send(channel, BatchText(batch))];
    }

    /** Serve one resolved sink: live mode pushes live, anything else batches. */
    method ServeLine(k: int, channel: int, mode: string, line: string, io: SinkIo)
      modifies this
      ensures Snapshot() == ServeSink(old(Snapshot()), k, channel, mode, SinkSettings(k), line, io)
    {
      if mode == "live" {
        LivePush(k, channel, line, io);
      } else {
        BatchPush(channel, line);
      }
    }

    /** The global sink's part of a relay turn, inside its own `try`. */
    method ServeGlobalLine(line: string, env: Env)
      modifies this
      ensures Snapshot() == ServeGlobal(old(Snapshot()), config.globalConfig, line, env)
    {
      var r := Resolve(config.globalConfig.gstreamChannelId, env);
      if r.Deliver? {
        ServeLine(GlobalKey, r.channel, config.globalConfig.gstream.mode, line, env.io(GlobalKey));
      }
    }

    /** One guild's part of a relay turn; `faulted` is an exception escaping it. */
    method ServeGuildLine(g: int, line: string, env: Env) returns (faulted: bool)
      requires g in config.guildCache
      modifies this
      ensures (Snapshot(), faulted) == ServeGuild(old(Snapshot()), g, config.guildCache[g], config.globalConfig.gstream, line, env)
    {
      var r := Resolve(config.GuildView(g).streamLogChannelId, env);
      faulted := r.Fault?;
      if r.Deliver? {
        ServeLine(g, r.channel, config.GuildView(g).stream.mode, line, env.io(g));
      }
    }

    /** The guild loop of `_relay_logs`, inside one `try`: each guild in order until a
        guild's channel lookup raises; `faulted` says one did. */
    method ServeGuildLines(gs: seq<int>, line: string, env: Env) returns (faulted: bool)
      requires forall j | 0 <= j < |gs| :: gs[j] in config.guildCache
      modifies this
      ensures (Snapshot(), faulted) == ServeGuilds(old(Snapshot()), gs, config.guildCache, config.globalConfig.gstream, line, env)
    {
      ghost var w := Snapshot();
      faulted := false;
      var i := 0;
      while i < |gs|
        invariant 0 <= i <= |gs|
        invariant ServeGuilds(w, gs[..i], config.guildCache, config.globalConfig.gstream, line, env) == (Snapshot(), false)
      {
        ServeGuildsNext(w, gs, i, config.guildCache, config.globalConfig.gstream, line, env, Snapshot());
        faulted := ServeGuildLine(gs[i], line, env);
        if faulted {
          FaultSkipsRest(w, gs, i + 1, config.guildCache, config.globalConfig.gstream, line, env);
          return;
        }
        i := i + 1;
      }
      assert gs[..i] == gs;
    }

    /** One turn of `_relay_logs`: the oldest queued line goes to the global sink,
        then to each guild with a stream channel, until a guild's lookup raises. */
    method RelayStep(env: Env)
      requires config.Valid()
      modifies this
      ensures Snapshot() == RelayStepSpec(old(Snapshot()), config.globalConfig, config.guildCache, config.cacheOrder, env)
    {
      if logQueue == [] {
        return;
      }
      var line := logQueue[0];
      logQueue := logQueue[1..];
      ServeGlobalLine(line, env);
      var gs := config.GuildsWithStreamChannel();
      assert forall j | 0 <= j < |gs| :: gs[j] in gs;
      var _ := ServeGuildLines(gs, line, env);
    }

    // ---------- Stream commands ----------

    /** `log stream set`: store the channel, and in live mode start a fresh live
        message there with an empty buffer and a zero timestamp. */
    method LogStreamSet(g: int, channel: int, sendResult: Option<Handle>)
      requires config.Valid()
      modifies this, config
      ensures config.Valid()
      ensures config.guildCache == old(config.guildCache)[g := old(config.GuildView(g)).(streamLogChannelId := channel)]
      ensures config.cacheOrder == Config.Touch(old(config.cacheOrder), g) && config.globalConfig == old(config.globalConfig)
      ensures config.GuildView(g).stream.mode == "live" ==>
        liveState == old(liveState)[g := LiveState(sendResult, [], 0)] && calls == old(calls) + [Send(channel, StartText)]
      ensures config.GuildView(g).stream.mode != "live" ==> liveState == old(liveState) && calls == old(calls)
      ensures logQueue == old(logQueue)
    {
      config.SetStreamLogChannel(g, channel);
      if config.GuildView(g).stream.mode == "live" {
        var st := State(g);
        ghost var created := st;
        calls := calls + [Send(channel, StartText)];
        st := st.(message := sendResult);
        st := st.(buffer := [], lastEditTs := 0);
        StoreTwice(old(liveState), g, created, st);
        liveState := liveState[g := st];
      }
    }

    /** `log stream off`: clear the channel and leave the sink with no message and
        an empty buffer. */
    method LogStreamOff(g: int)
      requires config.Valid()
      modifies this, config
      ensures config.Valid()
      ensures config.guildCache == old(config.guildCache)[g := old(config.GuildView(g)).(streamLogChannelId := 0)]
      ensures config.cacheOrder == Config.Touch(old(config.cacheOrder), g) && config.globalConfig == old(config.globalConfig)
      ensures liveState == old(liveState)[g := StateOf(old(liveState), g).(message := None, buffer := [])]
      ensures liveState[g].message.None? && liveState[g].buffer == []
      ensures logQueue == old(logQueue) && calls == old(calls)
    {
      config.ClearStreamLogChannel(g);
      var st := State(g);
      ghost var created := st;
      st := st.(message := None, buffer := []);
      StoreTwice(old(liveState), g, created, st);
      liveState := liveState[g := st];
    }

    /** `log stream mode`: a rejected mode changes nothing; switching to live with a
        configured text channel starts a fresh live message there. */
    method LogStreamMode(g: int, mode: string, env: Env) returns (err: Option<Config.ConfigError>)
      requires config.Valid()
      modifies this, config
      ensures config.Valid()
      ensures err.None? <==> Config.IsStreamMode(mode)
      ensures err.Some? ==> config.guildCache == old(config.guildCache) && config.cacheOrder == old(config.cacheOrder)
      ensures err.None? ==> config.guildCache == old(config.guildCache)[g := old(config.GuildView(g)).(stream := old(config.GuildView(g)).stream.(mode := mode))]
      ensures err.None? ==> config.cacheOrder == Config.Touch(old(config.cacheOrder), g)
      ensures config.globalConfig == old(config.globalConfig)
      ensures var r := Resolve(config.GuildView(g).streamLogChannelId, env);
        if err.None? && mode == "live" && r.Deliver? then
          liveState == old(liveState)[g := LiveState(env.io(g).sendResult, [], 0)]
          && calls == old(calls) + [Send(r.channel, StartText)]
        else liveState == old(liveState) && calls == old(calls)
      ensures logQueue == old(logQueue)
    {
      err := config.SetStreamMode(g, mode);
      if err.Some? {
        return;
      }
      if mode == "live" {
        ghost var stored := config.guildCache[g];
        var chId := config.GetStreamLogChannelId(g);
        StoreTwice(old(config.guildCache), g, stored, stored);
        var r := Resolve(chId, env);
        if r.Deliver? {
          var st := State(g);
          ghost var created := st;
          calls := calls + [Send(r.channel, StartText)];
          st := st.(message := env.io(g).sendResult);
          st := st.(buffer := [], lastEditTs := 0);
          StoreTwice(old(liveState), g, created, st);
          liveState := liveState[g := st];
        }
      }
    }
  }
}

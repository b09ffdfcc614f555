/**
  The log relay of cogs/logs.py as functions on values: one sink's `LiveState`,
  the rendering of the live message, `_ensure_live_message`, `_live_push`,
  `_batch_push`, and one turn of the `_relay_logs` dispatch over the global sink
  and the guild sinks.

  Discord is replaced by inputs: a send either returns a message handle or fails,
  an edit either succeeds or fails, and the monotonic clock is read as integer
  milliseconds. Every transport call a sink makes is appended to a transcript,
  so the order of the calls can be stated.
*/
module Relay {
  import opened Wrappers
  import opened Text
  import Config

  /** A sent Discord message. */
  type Handle = nat

  /** One sink's live-mode state; key 0 is the global sink, any other key a guild. */
  datatype LiveState = LiveState(message: Option<Handle>, buffer: seq<string>, lastEditTs: int)

  const FreshState := LiveState(None, [], 0)

  /** A transport call: sending to a channel, or editing a sent message. */
  datatype Call = Send(channel: int, content: string) | Edit(message: Handle, content: string)

  /** What the outside world answers to one sink while it handles one line:
      the outcome of a send (`None` when it raises), whether an edit succeeds,
      and the two clock readings of `_live_push` (before and after the edit). */
  datatype SinkIo = SinkIo(sendResult: Option<Handle>, editOk: bool, now: int, editedAt: int)

  /** How channel ids resolve during one turn: the ids that are text channels,
      the ids whose lookup raises, and each sink's transport answers. */
  datatype Env = Env(textChannels: set<int>, faultyChannels: set<int>, io: int -> SinkIo)

  /** The relay's mutable world: the sinks' states, `LOG_QUEUE`, and the calls made so far. */
  datatype World = World(live: map<int, LiveState>, queue: seq<string>, calls: seq<Call>)

  const GlobalKey := 0
  const Header := "\U{1F534} **Live Log**\n```log\n"
  const Footer := "\n```"
  const StartText := Header + "(啟動)" + Footer
  const ContinuedText := Header + "(續)" + Footer
  /** Above this many characters the live message is replaced. */
  const MaxLiveText := 1950
  /** A batch stops once its lines total more than this many characters. */
  const BatchBudget := 1800
  /** A batch message shows at most this many lines. */
  const BatchLines := 200

  predicate IsSuffix<T(==)>(a: seq<T>, b: seq<T>) {
    |a| <= |b| && a == b[|b| - |a|..]
  }

  lemma {:induction false} SuffixTransitive<T>(a: seq<T>, b: seq<T>, c: seq<T>)
    requires IsSuffix(a, b) && IsSuffix(b, c)
    ensures IsSuffix(a, c)
  {
    assert c[|c| - |b|..][|b| - |a|..] == c[|c| - |a|..];
  }

  /** `_state(k)` without the insertion: the entry for `k`, or a fresh one. */
  function StateOf(live: map<int, LiveState>, k: int): LiveState {
    if k in live then live[k] else FreshState
  }

  /** Storing a value under `k` twice keeps only the second. */
  lemma StoreTwice<K, V>(live: map<K, V>, k: K, a: V, b: V)
    ensures live[k := a][k := b] == live[k := b]
  {
  }

  // ---------- Rendering ----------

  function Min(a: int, b: int): int {
    if a < b then a else b
  }

  /** Python's `s[start:]` for any integer `start`. */
  function SliceFrom(s: string, start: int): (r: string)
    ensures IsSuffix(r, s)
  {
    if start >= 0 then (if start <= |s| then s[start..] else [])
    else if |s| + start >= 0 then s[|s| + start..]
    else s
  }

  /** `s[-limit:] if len(s) > limit else s`: the newest `limit` characters for a
      positive limit, and all of them for a zero limit, since `s[-0:]` is `s`. */
  function Tail(s: string, limit: int): (r: string)
    ensures IsSuffix(r, s)
    ensures limit > 0 ==> |r| == Min(|s|, limit)
    ensures limit == 0 ==> r == s
  {
    if |s| > limit then SliceFrom(s, -limit) else s
  }

  /** The body of the live message: the newest `limit` characters of the joined buffer. */
  function RenderBody(buffer: seq<string>, limit: int): (body: string)
    ensures IsSuffix(body, Join(buffer, "\n"))
    ensures limit > 0 ==> |body| == Min(|Join(buffer, "\n")|, limit)
    ensures limit == 0 ==> body == Join(buffer, "\n")
  {
    Tail(Join(buffer, "\n"), limit)
  }

  /** `_render_live_text`: the body between the fixed header and footer. The text is
      never blank, so `_ensure_live_message` never falls back to its placeholder, and
      it is the body plus 26 characters of frame. */
  function RenderLiveText(buffer: seq<string>, limit: int): (r: string)
    ensures !AllSpace(r)
    ensures |r| == |RenderBody(buffer, limit)| + 26
    ensures limit > 0 ==> |r| <= limit + 26
  {
    var r := Header + RenderBody(buffer, limit) + Footer;
    assert r[0] == '\U{1F534}';
    r
  }

  /** What a live message shows: the fixed header, then the body, which is the newest
      `limit` characters of the buffer joined by newlines (all of them for a zero
      limit), then the fixed footer. */
  lemma LiveTextFrame(buffer: seq<string>, limit: int)
    ensures var r := RenderLiveText(buffer, limit);
      var body := r[|Header|..|r| - |Footer|];
      && r[..|Header|] == Header && r[|r| - |Footer|..] == Footer
      && IsSuffix(body, Join(buffer, "\n"))
      && (limit > 0 ==> |body| == Min(|Join(buffer, "\n")|, limit))
      && (limit == 0 ==> body == Join(buffer, "\n"))
  {
    var body := RenderBody(buffer, limit);
    var r := RenderLiveText(buffer, limit);
    assert r == Header + body + Footer;
    assert r[|Header|..|r| - |Footer|] == body;
  }

  /** The buffer joined by newlines ends with its newest line. */
  lemma JoinEndsWithLast(buffer: seq<string>, line: string)
    ensures IsSuffix(line, Join(buffer + [line], "\n"))
  {
    var b := buffer + [line];
    assert b[..|b| - 1] == buffer;
  }

  /** Of two suffixes of one sequence, the shorter is a suffix of the longer. */
  lemma SuffixOfSuffix<T>(a: seq<T>, b: seq<T>, c: seq<T>)
    requires IsSuffix(a, c) && IsSuffix(b, c) && |a| <= |b|
    ensures IsSuffix(a, b)
  {
    assert b[|b| - |a|..] == c[|c| - |a|..];
  }

  /** A suffix of the body, followed by the footer, ends the framed text. */
  lemma SuffixFramed(a: string, h: string, body: string, f: string)
    requires IsSuffix(a, body)
    ensures IsSuffix(a + f, h + body + f)
  {
    var r := h + body + f;
    assert r[|r| - |a + f|..] == body[|body| - |a|..] + f;
  }

  /** A newest line that fits in the chunk limit (or any line for a zero limit) ends the body. */
  lemma NewestLineInBody(buffer: seq<string>, line: string, limit: int)
    requires limit == 0 || |line| <= limit
    ensures IsSuffix(line, RenderBody(buffer + [line], limit))
  {
    JoinEndsWithLast(buffer, line);
    SuffixOfSuffix(line, RenderBody(buffer + [line], limit), Join(buffer + [line], "\n"));
  }

  /** A newest line that fits in the chunk limit (or any line for a zero limit) is
      shown in full, right before the footer. */
  lemma NewestLineShown(buffer: seq<string>, line: string, limit: int)
    requires limit == 0 || |line| <= limit
    ensures IsSuffix(line + Footer, RenderLiveText(buffer + [line], limit))
  {
    NewestLineInBody(buffer, line, limit);
    SuffixFramed(line, Header, RenderBody(buffer + [line], limit), Footer);
  }

  /** With a chunk limit of at most 1924 the rendered text never exceeds 1950
      characters, so the message is never rolled over and the buffer never cleared
      by `_ensure_live_message`; the default limit of 1800 is such a limit. */
  lemma NoRolloverWithinLimit(buffer: seq<string>, limit: int)
    requires 1 <= limit <= MaxLiveText - 26
    ensures |RenderLiveText(buffer, limit)| <= MaxLiveText
  {
  }

  // ---------- One live sink ----------

  /** `_ensure_live_message`: send a message when there is none (a failed send
      leaves none); replace an existing one whose text grew past 1950 characters,
      clearing the buffer only when the replacement was sent. */
  function EnsureSpec(st: LiveState, limit: int, channel: int, sendResult: Option<Handle>): (LiveState, seq<Call>) {
    var content := RenderLiveText(st.buffer, limit);
    if st.message.None? then
      (st.(message := sendResult), [Send(channel, if !AllSpace(content) then content else StartText)])
    else if |content| > MaxLiveText then
      if sendResult.Some? then (st.(message := sendResult, buffer := []), [Send(channel, ContinuedText)])
      else (st.(message := None), [Send(channel, ContinuedText)])
    else (st, [])
  }

  /** Whether a push of `line` to `st` makes `_ensure_live_message` roll the message over. */
  predicate RollsOver(st: LiveState, line: string, limit: int, sendResult: Option<Handle>) {
    st.message.Some? && |RenderLiveText(st.buffer + [line], limit)| > MaxLiveText && sendResult.Some?
  }

  /** The second half of `_live_push`: edit the message unless the throttle window,
      measured from the last successful edit, has not passed or there is no message;
      a successful edit records the clock, a failed one drops the message. */
  function EditStep(st: LiveState, s: Config.StreamSettings, io: SinkIo): (LiveState, seq<Call>) {
    if io.now - st.lastEditTs < s.throttleMs || st.message.None? then (st, [])
    else
      var edit := Edit(st.message.value, RenderLiveText(st.buffer, s.chunkLimit));
      if io.editOk then (st.(lastEditTs := io.editedAt), [edit])
      else (st.(message := None), [edit])
  }

  /** `_live_push`: append the line, ensure the message, then the edit step. */
  function LivePushSpec(st: LiveState, line: string, s: Config.StreamSettings, channel: int, io: SinkIo): (LiveState, seq<Call>) {
    var (st1, sent) := EnsureSpec(st.(buffer := st.buffer + [line]), s.chunkLimit, channel, io.sendResult);
    var (st2, edits) := EditStep(st1, s, io);
    (st2, sent + edits)
  }

  /** Whether the push edits: the message exists after the ensure step and the
      throttle window, measured from the last successful edit, has passed. */
  predicate EditDue(st: LiveState, line: string, s: Config.StreamSettings, channel: int, io: SinkIo) {
    EnsureSpec(st.(buffer := st.buffer + [line]), s.chunkLimit, channel, io.sendResult).0.message.Some?
    && io.now - st.lastEditTs >= s.throttleMs
  }

  /** `_ensure_live_message` on its three paths: with no message it sends the
      rendered text (never the placeholder) and keeps the outcome, failure included;
      an existing message is replaced exactly when the text is longer than 1950,
      and the buffer is cleared only when that replacement was sent; otherwise nothing
      happens. It never touches the edit timestamp. */
  lemma EnsureCases(st: LiveState, limit: int, channel: int, sendResult: Option<Handle>)
    ensures var (st1, calls) := EnsureSpec(st, limit, channel, sendResult);
      && st1.lastEditTs == st.lastEditTs
      && (st.message.None? ==> st1 == st.(message := sendResult) && calls == [Send(channel, RenderLiveText(st.buffer, limit))])
      && (st.message.Some? && |RenderLiveText(st.buffer, limit)| > MaxLiveText ==>
            calls == [Send(channel, ContinuedText)] && st1.message == sendResult
            && st1.buffer == (if sendResult.Some? then [] else st.buffer))
      && (st.message.Some? && |RenderLiveText(st.buffer, limit)| <= MaxLiveText ==> st1 == st && calls == [])
  {
  }

  /** The line is appended before any transport call and stays in the buffer,
      as its last entry, unless the push rolled the message over, which clears the
      buffer, this line included. */
  lemma LivePushBuffer(st: LiveState, line: string, s: Config.StreamSettings, channel: int, io: SinkIo)
    ensures var st1 := LivePushSpec(st, line, s, channel, io).0;
      && (!RollsOver(st, line, s.chunkLimit, io.sendResult) ==> st1.buffer == st.buffer + [line])
      && (RollsOver(st, line, s.chunkLimit, io.sendResult) ==> st1.buffer == [])
  {
  }

  /** An edit is made exactly when it is due, it is the last call of the push, and
      it shows the current buffer rendered (its newest `chunk_limit` characters); `last_edit_ts` moves only on a
      successful edit, and a failed edit drops the message but keeps the buffer. */
  lemma LivePushEdit(st: LiveState, line: string, s: Config.StreamSettings, channel: int, io: SinkIo)
    ensures var (st1, calls) := LivePushSpec(st, line, s, channel, io);
      var (st0, sent) := EnsureSpec(st.(buffer := st.buffer + [line]), s.chunkLimit, channel, io.sendResult);
      && (EditDue(st, line, s, channel, io) ==>
            calls == sent + [Edit(st0.message.value, RenderLiveText(st1.buffer, s.chunkLimit))]
            && st1.buffer == st0.buffer
            && (io.editOk ==> st1 == st0.(lastEditTs := io.editedAt))
            && (!io.editOk ==> st1 == st0.(message := None)))
      && (!EditDue(st, line, s, channel, io) ==> calls == sent && st1 == st0)
  {
    EnsureCases(st.(buffer := st.buffer + [line]), s.chunkLimit, channel, io.sendResult);
  }

  /** A pushed line that fits in the chunk limit appears in full, right before the
      footer, in the edit the push makes when one is due and the push did not roll the
      message over. */
  lemma PushedLineEdited(st: LiveState, line: string, s: Config.StreamSettings, channel: int, io: SinkIo)
    requires EditDue(st, line, s, channel, io) && !RollsOver(st, line, s.chunkLimit, io.sendResult)
    requires s.chunkLimit == 0 || |line| <= s.chunkLimit
    ensures var calls := LivePushSpec(st, line, s, channel, io).1;
      calls != [] && calls[|calls| - 1].Edit? && IsSuffix(line + Footer, calls[|calls| - 1].content)
  {
    LivePushEdit(st, line, s, channel, io);
    LivePushBuffer(st, line, s, channel, io);
    NewestLineShown(st.buffer, line, s.chunkLimit);
  }

  /** A push inside the throttle window makes no edit, whatever else happens, and
      keeps the timestamp. */
  lemma ThrottledPushDoesNotEdit(st: LiveState, line: string, s: Config.StreamSettings, channel: int, io: SinkIo)
    requires io.now - st.lastEditTs < s.throttleMs
    ensures var (st1, calls) := LivePushSpec(st, line, s, channel, io);
      (forall i | 0 <= i < |calls| :: calls[i].Send?) && st1.lastEditTs == st.lastEditTs
  {
    EnsureCases(st.(buffer := st.buffer + [line]), s.chunkLimit, channel, io.sendResult);
  }

  /** Lines pushed inside the throttle window are kept: after any sequence of
      pushes that made no rollover, the buffer holds all of them in order, so the
      next edit renders them. */
  function PushAll(st: LiveState, lines: seq<string>, s: Config.StreamSettings, channel: int, io: seq<SinkIo>): LiveState
    requires |io| == |lines|
  {
    if lines == [] then st
    else
      var n := |lines| - 1;
      LivePushSpec(PushAll(st, lines[..n], s, channel, io[..n]), lines[n], s, channel, io[n]).0
  }

  lemma {:induction false} PendingLinesKept(st: LiveState, lines: seq<string>, s: Config.StreamSettings, channel: int, io: seq<SinkIo>)
    requires |io| == |lines|
    requires 1 <= s.chunkLimit <= MaxLiveText - 26
    ensures PushAll(st, lines, s, channel, io).buffer == st.buffer + lines
  {
    if lines != [] {
      var n := |lines| - 1;
      PendingLinesKept(st, lines[..n], s, channel, io[..n]);
      var prev := PushAll(st, lines[..n], s, channel, io[..n]);
      NoRolloverWithinLimit(prev.buffer + [lines[n]], s.chunkLimit);
      LivePushBuffer(prev, lines[n], s, channel, io[n]);
      assert lines[..n] + [lines[n]] == lines;
    }
  }

  /** A sink whose message was lost (a failed send or edit) sends a new one,
      showing its buffer rendered, this line included, on its next push. */
  lemma BrokenSinkRecreates(st: LiveState, line: string, s: Config.StreamSettings, channel: int, io: SinkIo)
    requires st.message.None?
    ensures var calls := LivePushSpec(st, line, s, channel, io).1;
      |calls| >= 1 && calls[0] == Send(channel, RenderLiveText(st.buffer + [line], s.chunkLimit))
  {
    EnsureCases(st.(buffer := st.buffer + [line]), s.chunkLimit, channel, io.sendResult);
  }

  // ---------- Batch sinks ----------

  /** How many queue lines `_batch_push` takes after a first line of `total`
      characters: it takes a line, then stops if the total now exceeds 1800; an
      empty queue is the timeout. */
  function BatchTake(total: int, q: seq<string>): (n: nat)
    ensures n <= |q|
    ensures q != [] ==> n >= 1
    decreases |q|
  {
    if q == [] then 0
    else if total + |q[0]| > BatchBudget then 1
    else 1 + BatchTake(total + |q[0]|, q[1..])
  }

  /** The batch stops at the first line that takes the total past 1800, and not
      before it; if no line does, it takes the whole queue. */
  lemma {:induction false} BatchTakeStops(first: string, q: seq<string>)
    ensures var n := BatchTake(|first|, q);
      && (forall j | 0 < j < n :: TotalLength([first] + q[..j]) <= BatchBudget)
      && (n == |q| || TotalLength([first] + q[..n]) > BatchBudget)
      && (0 < n < |q| ==> TotalLength([first] + q[..n]) > BatchBudget)
  {
    BatchTakeFrom([first], q);
  }

  lemma {:induction false} BatchTakeFrom(batch: seq<string>, q: seq<string>)
    ensures var n := BatchTake(TotalLength(batch), q);
      && (forall j | 0 < j < n :: TotalLength(batch + q[..j]) <= BatchBudget)
      && (0 < n < |q| ==> TotalLength(batch + q[..n]) > BatchBudget)
      && (n == |q| || TotalLength(batch + q[..n]) > BatchBudget)
    decreases |q|
  {
    if q != [] {
      var next := batch + [q[0]];
      TotalLengthSnoc(batch, q[0]);
      assert batch + q[..1] == next;
      if TotalLength(batch) + |q[0]| <= BatchBudget {
        BatchTakeFrom(next, q[1..]);
        ShiftPrefixes(batch, q);
      }
    }
  }

  /** A prefix of `q` after `batch` is the first line moved onto the batch. */
  lemma ShiftPrefixes(batch: seq<string>, q: seq<string>)
    requires q != []
    ensures forall j | 1 <= j <= |q| :: batch + q[..j] == (batch + [q[0]]) + q[1..][..j - 1]
  {
    forall j | 1 <= j <= |q|
      ensures batch + q[..j] == (batch + [q[0]]) + q[1..][..j - 1]
    {
      assert q[..j] == [q[0]] + q[1..][..j - 1];
    }
  }

  /** One turn of the batch loop: take the next line, then stop if the total is now past 1800. */
  lemma BatchTakeStep(batch: seq<string>, q: seq<string>)
    requires q != []
    ensures var next := batch + [q[0]];
      && TotalLength(next) == TotalLength(batch) + |q[0]|
      && BatchTake(TotalLength(batch), q)
         == 1 + (if TotalLength(next) > BatchBudget then 0 else BatchTake(TotalLength(next), q[1..]))
  {
    TotalLengthSnoc(batch, q[0]);
  }

  lemma TotalLengthSnoc(batch: seq<string>, line: string)
    ensures TotalLength(batch + [line]) == TotalLength(batch) + |line|
  {
    assert (batch + [line])[..|batch|] == batch;
  }

  /** `batch[-200:]`. */
  function LastLines(batch: seq<string>): (r: seq<string>)
    ensures |r| == Min(|batch|, BatchLines)
    ensures IsSuffix(r, batch)
  {
    if |batch| > BatchLines then batch[|batch| - BatchLines..] else batch
  }

  /** The message a batch sends: its newest 200 lines in a code block. */
  function BatchText(batch: seq<string>): string {
    "```log\n" + Join(LastLines(batch), "\n") + "\n```"
  }

  /** `_batch_push`: take lines off the shared queue, then send one message; a failed
      send is ignored, so the outcome does not matter. */
  function BatchPushSpec(w: World, channel: int, first: string): World {
    var n := BatchTake(|first|, w.queue);
    w.(queue := w.queue[n..], calls := w.calls + [Send(channel, BatchText([first] + w.queue[..n]))])
  }

  /** A batch push consumes exactly the lines it sent, from the front of the queue,
      and changes no live state. */
  lemma BatchConsumesTaken(w: World, channel: int, first: string)
    ensures var w1 := BatchPushSpec(w, channel, first);
      var n := BatchTake(|first|, w.queue);
      && w.queue == w.queue[..n] + w1.queue
      && w1.calls == w.calls + [Send(channel, BatchText([first] + w.queue[..n]))]
      && w1.live == w.live
  {
    BatchPushFields(w, channel, first);
    SplitAt(w.queue, BatchTake(|first|, w.queue));
  }

  /** The world after a batch push, field by field. */
  lemma BatchPushFields(w: World, channel: int, first: string)
    ensures var n := BatchTake(|first|, w.queue);
      BatchPushSpec(w, channel, first) == World(w.live, w.queue[n..], w.calls + [Send(channel, BatchText([first] + w.queue[..n]))])
  {
  }

  lemma SplitAt<T>(q: seq<T>, n: nat)
    requires n <= |q|
    ensures q == q[..n] + q[n..]
  {
  }

  // ---------- Dispatch ----------

  /** Serve one resolved sink: "live" mode pushes live, any other mode batches.
      The live push uses the settings of the state's key: the global ones for key 0. */
  function ServeSink(w: World, key: int, channel: int, mode: string, s: Config.StreamSettings, line: string, io: SinkIo): World {
    if mode == "live" then
      var (st, calls) := LivePushSpec(StateOf(w.live, key), line, s, channel, io);
      w.(live := w.live[key := st], calls := w.calls + calls)
    else BatchPushSpec(w, channel, line)
  }

  datatype Resolution = Skip | Fault | Deliver(channel: int)

  /** Resolving a configured channel id: 0 and non-text channels are skipped, and a
      lookup that raises is a fault. */
  function Resolve(channelId: int, env: Env): Resolution {
    if channelId == 0 then Skip
    else if channelId in env.faultyChannels then Fault
    else if channelId in env.textChannels then Deliver(channelId)
    else Skip
  }

  /** The global sink; a fault is caught by its own `try`. */
  function ServeGlobal(w: World, g: Config.GlobalConfig, line: string, env: Env): World {
    match Resolve(g.gstreamChannelId, env)
    case Deliver(channel) => ServeSink(w, GlobalKey, channel, g.gstream.mode, g.gstream, line, env.io(GlobalKey))
    case _ => w
  }

  /** The settings `_live_push` and `_render_live_text` read for key `k`. */
  function KeySettings(k: int, cfg: Config.GuildConfig, gstream: Config.StreamSettings): Config.StreamSettings {
    if k == GlobalKey then gstream else cfg.stream
  }

  /** One guild sink; the flag says the channel lookup raised. The mode is the
      guild's, but the live push shares key `g` of the live states, so a guild id 0
      would push to the global sink's state with the global settings. */
  function ServeGuild(w: World, g: int, cfg: Config.GuildConfig, gstream: Config.StreamSettings, line: string, env: Env): (World, bool) {
    match Resolve(cfg.streamLogChannelId, env)
    case Skip => (w, false)
    case Fault => (w, true)
    case Deliver(channel) => (ServeSink(w, g, channel, cfg.stream.mode, KeySettings(g, cfg, gstream), line, env.io(g)), false)
  }

  /** The guild sinks in order; the flag says a fault escaped the loop, which then
      skips every remaining guild. */
  function ServeGuilds(w: World, gs: seq<int>, cache: map<int, Config.GuildConfig>, gstream: Config.StreamSettings, line: string, env: Env): (World, bool)
    requires forall i | 0 <= i < |gs| :: gs[i] in cache
  {
    if gs == [] then (w, false)
    else
      var n := |gs| - 1;
      var prev := ServeGuilds(w, gs[..n], cache, gstream, line, env);
      if prev.1 then prev else ServeGuild(prev.0, gs[n], cache[gs[n]], gstream, line, env)
  }

  /** Serving one more guild of the list, when no fault has ended the loop yet. */
  lemma ServeGuildsNext(w: World, gs: seq<int>, i: nat, cache: map<int, Config.GuildConfig>, gstream: Config.StreamSettings, line: string, env: Env, prev: World)
    requires i < |gs|
    requires forall j | 0 <= j < |gs| :: gs[j] in cache
    requires ServeGuilds(w, gs[..i], cache, gstream, line, env) == (prev, false)
    ensures ServeGuilds(w, gs[..i + 1], cache, gstream, line, env) == ServeGuild(prev, gs[i], cache[gs[i]], gstream, line, env)
  {
    assert gs[..i + 1][..i] == gs[..i];
  }

  /** The skip rule of `_relay_logs`: a sink is skipped when its channel id is 0 or
      names no text channel, faults exactly when the lookup of a non-zero id raises,
      and is otherwise delivered to that very channel. */
  lemma ResolveRules(channelId: int, env: Env)
    ensures Resolve(channelId, env) == Skip <==>
      channelId == 0 || (channelId !in env.faultyChannels && channelId !in env.textChannels)
    ensures Resolve(channelId, env) == Fault <==> channelId != 0 && channelId in env.faultyChannels
    ensures Resolve(channelId, env).Deliver? ==>
      Resolve(channelId, env).channel == channelId && channelId in env.textChannels
  {
  }

  /** A sink that is skipped or faults changes nothing: the global sink leaves the world
      as it was, and a guild sink does too, flagging exactly the fault. */
  lemma UndeliveredChangesNothing(w: World, g: Config.GlobalConfig, gid: int, cfg: Config.GuildConfig, line: string, env: Env)
    ensures !Resolve(g.gstreamChannelId, env).Deliver? ==> ServeGlobal(w, g, line, env) == w
    ensures !Resolve(cfg.streamLogChannelId, env).Deliver? ==>
      ServeGuild(w, gid, cfg, g.gstream, line, env) == (w, Resolve(cfg.streamLogChannelId, env) == Fault)
  {
  }

  /** One turn of `_relay_logs`: take the oldest line, serve the global sink, then
      the guilds that have a stream channel. An empty queue means the turn waits. */
  function RelayStepSpec(w: World, g: Config.GlobalConfig, cache: map<int, Config.GuildConfig>, order: seq<int>, env: Env): World
    requires forall k | k in order :: k in cache
  {
    if w.queue == [] then w
    else
      var line := w.queue[0];
      var w1 := ServeGlobal(w.(queue := w.queue[1..]), g, line, env);
      ServeGuilds(w1, Config.StreamGuilds(order, cache), cache, g.gstream, line, env).0
  }

  /** A delivered "live" sink leaves the queue alone, and any other mode is the batch push. */
  lemma ServeSinkRouting(w: World, key: int, channel: int, mode: string, s: Config.StreamSettings, line: string, io: SinkIo)
    ensures mode == "live" ==> ServeSink(w, key, channel, mode, s, line, io).queue == w.queue
    ensures mode != "live" ==> ServeSink(w, key, channel, mode, s, line, io) == BatchPushSpec(w, channel, line)
  {
  }

  /** Serving a sink only consumes lines from the front of the queue, only appends
      calls, and changes no live state but its own. */
  lemma ServeSinkFrame(w: World, key: int, channel: int, mode: string, s: Config.StreamSettings, line: string, io: SinkIo)
    ensures var w1 := ServeSink(w, key, channel, mode, s, line, io);
      && IsSuffix(w1.queue, w.queue)
      && w.calls <= w1.calls
      && (forall k | k != key :: (k in w1.live <==> k in w.live) && (k in w.live ==> w1.live[k] == w.live[k]))
  {
  }

  /** The guild loop only consumes from the front of the queue, only appends calls,
      and changes no live state outside the guilds it serves. */
  lemma {:induction false} ServeGuildsFrame(w: World, gs: seq<int>, cache: map<int, Config.GuildConfig>, gstream: Config.StreamSettings, line: string, env: Env)
    requires forall i | 0 <= i < |gs| :: gs[i] in cache
    ensures var w1 := ServeGuilds(w, gs, cache, gstream, line, env).0;
      && IsSuffix(w1.queue, w.queue)
      && w.calls <= w1.calls
      && (forall k | k !in gs :: (k in w1.live <==> k in w.live) && (k in w.live ==> w1.live[k] == w.live[k]))
  {
    if gs != [] {
      var n := |gs| - 1;
      ServeGuildsFrame(w, gs[..n], cache, gstream, line, env);
      var w0 := ServeGuilds(w, gs[..n], cache, gstream, line, env).0;
      var cfg := cache[gs[n]];
      assert forall k | k in gs[..n] :: k in gs;
      if !ServeGuilds(w, gs[..n], cache, gstream, line, env).1 && Resolve(cfg.streamLogChannelId, env).Deliver? {
        ServeSinkFrame(w0, gs[n], Resolve(cfg.streamLogChannelId, env).channel, cfg.stream.mode, KeySettings(gs[n], cfg, gstream), line, env.io(gs[n]));
        SuffixTransitive(ServeGuilds(w, gs, cache, gstream, line, env).0.queue, w0.queue, w.queue);
      }
    }
  }

  /** Once a guild's fault escapes, the rest of the list is skipped: serving any
      longer prefix gives the same world. */
  lemma {:induction false} FaultSkipsRest(w: World, gs: seq<int>, i: nat, cache: map<int, Config.GuildConfig>, gstream: Config.StreamSettings, line: string, env: Env)
    requires i <= |gs|
    requires forall i | 0 <= i < |gs| :: gs[i] in cache
    requires ServeGuilds(w, gs[..i], cache, gstream, line, env).1
    ensures ServeGuilds(w, gs, cache, gstream, line, env) == ServeGuilds(w, gs[..i], cache, gstream, line, env)
    decreases |gs| - i
  {
    if i < |gs| {
      assert gs[..i + 1][..i] == gs[..i];
      FaultSkipsRest(w, gs, i + 1, cache, gstream, line, env);
    } else {
      assert gs[..i] == gs;
    }
  }

  /** A guild whose channel lookup raises stops the loop: no guild after it is served. */
  lemma FaultingGuildStops(w: World, gs: seq<int>, i: nat, cache: map<int, Config.GuildConfig>, gstream: Config.StreamSettings, line: string, env: Env)
    requires i < |gs|
    requires forall i | 0 <= i < |gs| :: gs[i] in cache
    requires gs[i] in cache && Resolve(cache[gs[i]].streamLogChannelId, env) == Fault
    ensures ServeGuilds(w, gs, cache, gstream, line, env).0 == ServeGuilds(w, gs[..i], cache, gstream, line, env).0
  {
    assert gs[..i + 1][..i] == gs[..i];
    FaultSkipsRest(w, gs, i + 1, cache, gstream, line, env);
  }

  /** One relay turn consumes its line and possibly more from the front of the queue,
      and the global sink's calls come before every guild's. */
  lemma RelayStepOrder(w: World, g: Config.GlobalConfig, cache: map<int, Config.GuildConfig>, order: seq<int>, env: Env)
    requires forall k | k in order :: k in cache
    requires w.queue != []
    ensures var w1 := ServeGlobal(w.(queue := w.queue[1..]), g, w.queue[0], env);
      var w2 := RelayStepSpec(w, g, cache, order, env);
      && IsSuffix(w2.queue, w.queue[1..])
      && w.calls <= w1.calls <= w2.calls
  {
    var w0 := w.(queue := w.queue[1..]);
    var w1 := ServeGlobal(w0, g, w.queue[0], env);
    if Resolve(g.gstreamChannelId, env).Deliver? {
      ServeSinkFrame(w0, GlobalKey, Resolve(g.gstreamChannelId, env).channel, g.gstream.mode, g.gstream, w.queue[0], env.io(GlobalKey));
    }
    ServeGuildsFrame(w1, Config.StreamGuilds(order, cache), cache, g.gstream, w.queue[0], env);
    SuffixTransitive(RelayStepSpec(w, g, cache, order, env).queue, w1.queue, w0.queue);
  }
}

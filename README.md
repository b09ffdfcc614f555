# TRPG Discord bot: log relay, configuration, dice and skill checks

A Dafny model of the core of a tabletop-RPG Discord bot:

- **The log relay** of the `Logs` cog (cogs/logs.py). Every log record is put on a shared queue. One relay turn takes the oldest line and offers it first to the global sink, then to every guild that has a stream channel.
  - A sink in "live" mode keeps one Discord message. It appends the line to a buffer and re-edits the message with the newest characters, no more often than its throttle allows. It replaces the message once the text passes 1950 characters.
  - A sink in "batch" mode pulls more lines off the same queue and sends them as one message.
  - The `log stream set/off/mode` commands reset a sink.
- **`ConfigManager`** (utils/config.py). It holds the global settings (developers, restart mode and service, global stream) and one configuration per guild (crit rules, crit and stream channels, stream settings). Its setters validate or clamp their inputs.
- **`parse_and_roll`** (utils/dice.py). It parses a dice expression such as `2d6+1` or `d100<=65`, range-checks it, sums the dice and renders a normalised expression and a detail line.
- **`evaluate`** (utils/coc.py). It is the Call of Cthulhu 7th edition skill check: a d100 roll against a skill gives one of six success levels, plus critical and fumble flags.

## Files

- `wrappers.dfy` holds `Option` and `Result`.
- `text.dfy` holds Python's whitespace set, `str.join`, and the decimal digits `int()` and `str()` read and write.
- `coc.dfy` models `evaluate` and its level lemmas.
- `dice.dfy` models the regular expression as a language and a matcher. The matcher is proved sound and complete. It also models `parse_and_roll` and the round trip of the normalised expression.
- `config.dfy` holds the dataclasses as datatypes and `ConfigManager` as a class with the guild cache as a map plus its insertion order.
- `relay.dfy` states the relay as functions on values: one sink's `LiveState`, the rendering, the live and batch pushes, and one dispatch turn. The relay's lemmas are here.
- `logs.dfy` holds the `LogsCog` class. Its methods change `liveState`, the queue and a transcript of transport calls. The relay methods (`EnsureLiveMessage`, `EditIfDue`, `LivePush`, `BatchPush`, `ServeLine`, `ServeGlobalLine`, `ServeGuildLine`, `ServeGuildLines` and `RelayStep`) are each proved to do exactly what the matching `Relay` function says. `Emit`, `State`, `AppendLine` and the three stream commands state their new state directly in their own contracts.

Discord is replaced by inputs.
- A send returns a message handle or fails (`None`); an edit succeeds or fails.
- `bot.get_channel` resolves a channel id to a text channel, to something else, or raises. The sets in `Env` say which.
- `time.monotonic()` becomes two integer clock readings in milliseconds.
- Every `channel.send` and `message.edit` is appended to the `calls` transcript. This way the order and content of the transport calls can be stated.
- The dice are an input sequence instead of `random.randint` calls.

## Model

| member | source | states |
|---|---|---|
| Coc.EffectiveSkill | utils/coc.py:19 | the clamped skill lies in [0, 100]; it equals the skill for 0..99, is 100 for any skill of 100 or more, and 0 below 0 |
| Coc.HardThreshold | utils/coc.py:20 | the hard threshold is the floor of half the skill: 2h <= s < 2h + 2 |
| Coc.ExtremeThreshold | utils/coc.py:21 | the extreme threshold is the floor of a fifth of the skill: 5e <= s < 5e + 5 |
| Coc.Evaluate | utils/coc.py:18-40 | the result keeps the roll and the clamped skill; it is critical iff the roll is 1; it is a fumble iff the roll is in the 7e fumble range for that skill; the level is a success iff the roll is 1 or at most the skill |
| Coc.LabelInjective | utils/coc.py:27-38 | the six level labels are pairwise distinct |
| Coc.ThresholdsNest | utils/coc.py:19-21 | 0 <= extreme <= hard <= skill <= 100 for every input skill |
| Coc.LevelCharacterisation | utils/coc.py:27-38 | each of the six levels, in both directions, is exactly the set of rolls the priority chain gives it |
| Coc.FumbleThreshold | utils/coc.py:24-25 | on a d100 roll the fumble flag is set iff the roll is at least 96 (skill below 50) or at least 100 (skill 50 or more) |
| Coc.LowerRollIsNoWorse | utils/coc.py:27-38 | for a fixed skill, a lower roll never gives a worse level |
| Coc.FumbleFlagOnSuccess | utils/coc.py:25-34 | a success wins over the fumble flag: at skill 100 a roll of 100 is a regular success with `is_fumble` set |
| Coc.CriticalAtAnySkill | utils/coc.py:23-28 | a roll of 1 is a critical and never a fumble, whatever the skill |
| Text.JoinLength | utils/dice.py:70 | `sep.join(parts)` is as long as the parts plus one separator between each neighbouring pair |
| Text.NatToString | utils/dice.py:65 | `str(n)` is a non-empty run of digits without a leading zero |
| Text.DigitsValueOfNatToString | utils/dice.py:65 | `int(str(n)) == n` |
| Text.SignedToString | utils/dice.py:67 | `f"{v:+d}"` is a sign, then digits; the sign is '-' exactly for negative values; the digits read back as the absolute value |
| Dice.Conforms | utils/dice.py:6-9 | the regular expression as a language: which pieces (leading space, count, `d` or `D`, sides, modifier, gap, comparison, trailing space) a matching text is made of; the reference ScanComplete and MatchIffInLanguage are stated against |
| Dice.Spell | utils/dice.py:6-9 | the text a layout of pieces spells, in the regular expression's order |
| Dice.TakeSpaces | utils/dice.py:7 | a greedy `\s*` splits off a whitespace prefix that cannot be extended |
| Dice.TakeDigits | utils/dice.py:7 | a greedy `\d*` splits off a digit prefix that cannot be extended |
| Dice.TakeComparator | utils/dice.py:7 | the comparator alternative takes a comparator or nothing, and the two parts give back the input |
| Dice.TakeModifier | utils/dice.py:7 | the optional `[+-]\d+` takes a modifier or nothing, and the two parts give back the input |
| Dice.TakeComparison | utils/dice.py:7 | the optional comparison group takes a comparator, whitespace and a target, and the four parts give back the input |
| Dice.ScanAfterSides | utils/dice.py:7 | what follows the sides splits into a modifier, whitespace, a comparison and trailing whitespace that reassemble the input |
| Dice.Scan | utils/dice.py:6-9 | the matcher is sound: a layout it returns conforms to the regular expression's parts and spells the input |
| Dice.TakeSpacesOf | utils/dice.py:7 | `\s*` takes exactly a whitespace prefix that is followed by a non-space |
| Dice.TakeDigitsOf | utils/dice.py:7 | `\d*` takes exactly a digit prefix that is followed by a non-digit |
| Dice.TakeComparatorOf | utils/dice.py:7 | the comparator alternatives, tried in order, pick exactly a conforming layout's comparator |
| Dice.TakeComparisonOf | utils/dice.py:7 | the comparison group takes exactly a conforming layout's comparator, gap and target |
| Dice.TakeModifierOf | utils/dice.py:7 | the modifier alternative takes exactly a conforming layout's modifier |
| Dice.TakeAfterModifierOf | utils/dice.py:7 | after the modifier and whitespace, the comparison is found with the layout's comparator and target |
| Dice.ScanUpToSides | utils/dice.py:7 | up to the sides, the matcher takes the layout's own leading space, count, `d` and sides |
| Dice.ScanAfterSidesComplete | utils/dice.py:7 | every conforming tail after the sides is scanned, and its modifier, comparator and target are recovered |
| Dice.ScanComplete | utils/dice.py:6-9 | the matcher is complete: every text a conforming layout spells is matched, with that layout's groups |
| Dice.Match | utils/dice.py:28 | the groups of a match conform to the regular expression's groups |
| Dice.MatchIffInLanguage | utils/dice.py:6-9 | a text the language accepts is matched with exactly its groups; with Scan's soundness, matching is the language |
| Dice.Parse | utils/dice.py:28-46 | no match gives the invalid-expression error; otherwise the count is checked first (an empty count is 1 die) and then the sides, each error iff its range fails, and no other error is possible, so a matching expression with both in range parses successfully; success carries the groups' values with count in 1..max_dice and sides in 2..max_sides |
| Dice.Sum | utils/dice.py:49 | `sum(rolls)`; SumBounds bounds it |
| Dice.SumBounds | utils/dice.py:48-49 | n dice of s sides sum to between n and n*s |
| Dice.CritFlags | utils/dice.py:52-63 | a critical success iff one die of 20 (or 100) sides shows the success value; a critical failure iff it shows the failure value and not the success value; never both |
| Dice.RenderExpr | utils/dice.py:65-69 | the normalised expression `{count}d{sides}`, `{mod:+d}` when non-zero, ` {cmp} {target}` when both are given; what it means is stated by RenderParses and ExprRoundTrip |
| Dice.RollStrings | utils/dice.py:70 | `map(str, rolls)` has one decimal string per roll |
| Dice.RenderDetail | utils/dice.py:70 | the detail line: the rolls joined by ` + `, then ` {mod:+d}` when non-zero; DetailRoundTrip states that it determines the rolls and the modifier |
| Dice.ReadRolls | utils/dice.py:70 | reads `n1 + n2 + ... + nk` back into numbers, from the right; the inverse of joining the rolls (ReadJoinedRolls) |
| Dice.SplitModifier | utils/dice.py:70 | splits a trailing ` {mod:+d}` off a detail line, or gives modifier 0 |
| Dice.ReadDetail | utils/dice.py:70 | reads a detail line back into rolls and modifier; the inverse of RenderDetail (DetailRoundTrip) |
| Dice.TakeDigitsBack | utils/dice.py:70 | the longest digit suffix of a text and what precedes it, which together give back the text (reading a detail line from the right) |
| Dice.TakeDigitsBackOf | utils/dice.py:70 | a digit run after a non-digit is exactly the digit suffix taken |
| Dice.JoinedRollsSplit | utils/dice.py:70 | the joined rolls are the other rolls joined, the separator, and the last roll |
| Dice.JoinedRollsLast | utils/dice.py:70 | the digit suffix of the joined rolls is the last roll, after nothing or after the separator |
| Dice.ReadRollsSnoc | utils/dice.py:70 | reading `init + " + " + n` is reading `init` and then the number n |
| Dice.ReadRollsSingle | utils/dice.py:70 | a lone number reads back as that one roll |
| Dice.JoinedRollsSingle | utils/dice.py:70 | one roll joined is just its digits (proof helper) |
| Dice.ReadJoinedRolls | utils/dice.py:70 | the rolls joined by ` + ` read back to exactly the rolls |
| Dice.SplitUnmodified | utils/dice.py:70 | a line whose digit suffix follows nothing or a space carries modifier 0 |
| Dice.SplitSigned | utils/dice.py:70 | a line ending in a space and a signed number splits at that space into the text and the signed value |
| Dice.SplitModified | utils/dice.py:70 | a line ending in a space and a rendered non-zero modifier splits back to the text and that modifier |
| Dice.JoinedRollsReadable | utils/dice.py:70 | the joined rolls read back, and what precedes their last number is empty or ends in a space |
| Dice.DetailRoundTripUnmodified | utils/dice.py:70 | with modifier 0 the detail line reads back to the rolls and 0 |
| Dice.RenderDetailModified | utils/dice.py:70 | with a non-zero modifier the detail line is the joined rolls, a space and the signed modifier |
| Dice.DetailRoundTripModified | utils/dice.py:70 | with a non-zero modifier the detail line reads back to the rolls and that modifier |
| Dice.DetailRoundTrip | utils/dice.py:70 | the detail line of any non-empty rolls and any modifier reads back to exactly those rolls and that modifier, so `detail` loses nothing |
| Dice.ParseAndRoll | utils/dice.py:25-81 | it fails exactly when parsing fails, with the same error; on success it keeps the rolls, the total is their sum plus the modifier, within [count+mod, count*sides+mod]; it keeps cmp and target; `expr` is the normalised expression (RenderExpr), `detail` the detail line (RenderDetail), and the crit flags are exactly CritFlags: exclusive, and only a single d20 or d100 can set them |
| Dice.DefaultCrits | utils/dice.py:52-63 | with the default options a single d20 is a critical success iff it shows 20 and a critical failure iff it shows 1; a single d100 iff 1 and iff 100 |
| Dice.SpellRendered | utils/dice.py:65-69 | the normalised expression is spelled by a layout with no optional whitespace |
| Dice.ConformsRendered | utils/dice.py:65-69 | that layout conforms to the regular expression |
| Dice.MatchRendered | utils/dice.py:65-69 | the normalised expression matches with that layout's groups |
| Dice.RenderedGroupValues | utils/dice.py:32-41 | those groups convert back to the request's count, sides, modifier, comparator and target |
| Dice.RenderParses | utils/dice.py:65-69 | a valid request's normalised expression parses back to the same request |
| Dice.ExprRoundTrip | utils/dice.py:65-75 | the `expr` of a roll parses to the same request as the text it was rolled from |
| Dice.ExampleComparison | utils/dice.py:30 | `d100<=65` is one d100 compared with `<=` against 65 |
| Dice.MatchComparison | utils/dice.py:6-9 | `d100<=65` matches with no count, sides 100, comparator `<=` and target 65 |
| Dice.SignAfterGap | utils/dice.py:7 | a sign after whitespace is neither a modifier nor a comparator |
| Dice.SpacedLead | utils/dice.py:7 | `2d6 + 1` has no leading whitespace |
| Dice.SpacedCount | utils/dice.py:7 | the count group of `2d6 + 1` is `2` |
| Dice.SpacedSides | utils/dice.py:7 | after the `d`, the sides group is `6` and ` + 1` remains |
| Dice.ScanStopsAfterSides | utils/dice.py:6-9 | once the sides are read, a tail the rest of the expression refuses fails the whole match |
| Dice.SpacedModifierUnmatched | utils/dice.py:6-9 | `2d6 + 1` does not match the regular expression |
| Dice.ExampleSpacedModifierRejected | utils/dice.py:7 | `2d6 + 1` is rejected because the modifier must follow the sides directly |
| Dice.MatchTwenty | utils/dice.py:6-9 | `d20` matches with no count and sides 20 |
| Dice.ParseTwenty | utils/dice.py:28-46 | `d20` parses to one twenty-sided die with no modifier or comparison |
| Dice.RenderTwenty | utils/dice.py:65-69 | that request renders as `1d20` |
| Dice.ExampleNaturalTwenty | utils/dice.py:52-58 | a natural 20 on `d20` is rendered `1d20`, totals 20 and is a critical success only |
| Config.NormalizeService | utils/config.py:138-141 | the stored service name ends in `.service`; a name that already does is kept, any other gets the suffix |
| Config.NormalizeServiceIdempotent | utils/config.py:138-141 | normalising twice is normalising once |
| Config.ClampThrottle | utils/config.py:240 | `max(0, ms)` is non-negative and is ms whenever ms is |
| Config.ClampChunkLimit | utils/config.py:245 | `max(200, n)` is at least 200 and is n whenever n is |
| Config.WithDev | utils/config.py:115-118 | after adding, u is a developer; the members are the old ones plus u; an existing u changes nothing; no duplicates arise |
| Config.IndexOf | utils/config.py:122 | the index of the first occurrence of u |
| Config.RemoveFirst | utils/config.py:122 | Python's `list.remove(u)`, tolerating an absent u; RemoveFirstDropsFirst and RemoveFirstNoDup state what it does |
| Config.RemoveFirstDropsFirst | utils/config.py:122 | `list.remove(u)` drops exactly the first occurrence of u and keeps the order of the rest; a list without u is unchanged |
| Config.RemoveFirstNoDup | utils/config.py:120-123 | in a duplicate-free list, removal drops u entirely, keeps every other member, and keeps the list duplicate-free |
| Config.WithoutDev | utils/config.py:120-123 | after removing, u is not a developer; every other member stays; an absent u changes nothing |
| Config.ApplyCritKwargs | utils/config.py:200-205 | the keyword arguments applied by `setattr` in the order given; specifies Config.ConfigManager.SetCritRules, and ApplyCritKwargsFields states the outcome |
| Config.ApplyCritKwargsFields | utils/config.py:200-205 | each crit field ends with the last value given for its name, and keeps its value when none is given |
| Config.StreamGuilds | utils/config.py:248-253 | the cache scan yields exactly the cached guilds whose stream channel is non-zero, without duplicates |
| Config.Touch | utils/config.py:191 | a dict assignment adds its key to the key order once, at the end when new |
| Config.ConfigManager.constructor | utils/config.py:45-80 | a fresh manager holds the default global configuration and an empty guild cache (no files are loaded, see Left out) |
| Config.ConfigManager.GetDevUserIds | utils/config.py:112-113 | the developer list, as stored |
| Config.ConfigManager.IsDeveloper | utils/config.py:125-126 | u is in the developer list; AddDevUser and RemoveDevUser state their outcome through it |
| Config.ConfigManager.AddDevUser | utils/config.py:115-118 | u becomes a developer, the list changes as WithDev says, and nothing else changes |
| Config.ConfigManager.RemoveDevUser | utils/config.py:120-123 | u stops being a developer, the list changes as WithoutDev says, and nothing else changes |
| Config.ConfigManager.GetRestart | utils/config.py:129-130 | the restart settings, as stored; SetRestartService states its outcome through it |
| Config.ConfigManager.SetRestartMode | utils/config.py:132-136 | the ValueError is returned iff the mode is not one of the three; on error nothing changes, otherwise only the restart mode changes |
| Config.ConfigManager.SetRestartService | utils/config.py:138-142 | the service becomes the normalised name, which ends in `.service` |
| Config.ConfigManager.GetGuildCfg | utils/config.py:187-192 | the cached configuration is returned unchanged; a missing one is created as the default and cached at the end of the key order |
| Config.ConfigManager.PutGuildCfg | utils/config.py:191 | the guild's entry is replaced and the invariants, including valid stream settings, are kept |
| Config.ConfigManager.GetCritRules | utils/config.py:195-198 | no guild gives the default rules and changes nothing; a guild gives its rules and caches its configuration |
| Config.ConfigManager.SetCritRules | utils/config.py:200-205 | only the guild's crit rules change, to the keyword arguments applied in order |
| Config.ConfigManager.GetCritLogChannelId | utils/config.py:207-208 | the guild's crit channel id is returned and the guild is cached |
| Config.ConfigManager.SetCritLogChannel | utils/config.py:210-213 | only the guild's crit channel id changes |
| Config.ConfigManager.GetStreamLogChannelId | utils/config.py:215-216 | the guild's stream channel id is returned and the guild is cached |
| Config.ConfigManager.SetStreamLogChannel | utils/config.py:218-221 | only the guild's stream channel id changes |
| Config.ConfigManager.ClearStreamLogChannel | utils/config.py:223-226 | only the guild's stream channel id changes, to 0 |
| Config.ConfigManager.GetStreamSettings | utils/config.py:228-229 | the guild's stream settings are returned; they are valid |
| Config.ConfigManager.SetStreamMode | utils/config.py:231-236 | the ValueError is returned iff the mode is neither live nor batch; then nothing changes, not even the cache; otherwise only the guild's mode changes |
| Config.ConfigManager.SetStreamThrottle | utils/config.py:238-241 | only the guild's throttle changes, to `max(0, ms)` |
| Config.ConfigManager.SetStreamChunkLimit | utils/config.py:243-246 | only the guild's chunk limit changes, to `max(200, n)` |
| Config.ConfigManager.GuildsWithStreamChannel | utils/config.py:248-253 | exactly the cached guilds with a stream channel, in cache order and without duplicates |
| Config.ConfigManager.GetGlobalStreamChannelId | utils/config.py:270-271 | the global stream channel id, as stored; ServeGlobal resolves it |
| Config.ConfigManager.SetGlobalStreamChannel | utils/config.py:273-275 | only the global stream channel id changes |
| Config.ConfigManager.ClearGlobalStreamChannel | utils/config.py:277-279 | only the global stream channel id changes, to 0 |
| Config.ConfigManager.GetGlobalStreamSettings | utils/config.py:281-282 | the global stream settings, as stored; key 0 of the live sinks reads them |
| Config.ConfigManager.SetGlobalStreamMode | utils/config.py:284-288 | the ValueError is returned iff the mode is neither live nor batch; on error nothing changes, otherwise only the global mode changes |
| Config.ConfigManager.SetGlobalStreamThrottle | utils/config.py:290-292 | only the global throttle changes, to `max(0, ms)` |
| Config.ConfigManager.SetGlobalStreamChunkLimit | utils/config.py:294-296 | only the global chunk limit changes, to `max(200, n)` |
| Relay.StateOf | cogs/logs.py:42-45 | the live state `_state` returns for a key: the stored one, or a fresh one with no message, an empty buffer and timestamp 0 |
| Relay.SliceFrom | cogs/logs.py:56 | Python's `s[start:]` is a suffix of s for any integer start |
| Relay.Tail | cogs/logs.py:55-56 | the kept text is a suffix of the joined buffer; it has `min(len, limit)` characters for a positive limit and is everything for a zero limit |
| Relay.RenderBody | cogs/logs.py:50-56 | the live body is the newest `limit` characters of the buffer joined by newlines |
| Relay.RenderLiveText | cogs/logs.py:48-57 | the rendered text is never blank (so the `(啟動)` placeholder is never sent from `_ensure_live_message`); it is the body plus 26 characters of frame, so at most the limit plus 26 for a positive limit |
| Relay.LiveTextFrame | cogs/logs.py:48-57 | the live text is the fixed header, then a suffix of the buffer joined by newlines of `min(len, limit)` characters (all of it for a zero limit), then the fixed footer |
| Relay.JoinEndsWithLast | cogs/logs.py:50 | the buffer joined by newlines ends with its newest line |
| Relay.SuffixOfSuffix | cogs/logs.py:55-56 | proof helper: of two suffixes of one text, the shorter is a suffix of the longer |
| Relay.SuffixFramed | cogs/logs.py:57 | proof helper: a suffix of the body followed by the footer ends the framed text |
| Relay.NewestLineInBody | cogs/logs.py:50-56 | a newest line no longer than the chunk limit (any line for a zero limit) ends the body |
| Relay.NewestLineShown | cogs/logs.py:48-57 | such a line is shown in full, right before the footer, in the live text |
| Relay.NoRolloverWithinLimit | cogs/logs.py:55-66 | with a chunk limit of at most 1924 the text never exceeds 1950 characters, so no rollover can happen |
| Relay.EnsureSpec | cogs/logs.py:59-70 | `_ensure_live_message` on values: the new state and the sends; specifies Logs.LogsCog.EnsureLiveMessage, and EnsureCases states its three paths |
| Relay.EditStep | cogs/logs.py:77-93 | the edit half of `_live_push` on values; specifies Logs.LogsCog.EditIfDue, and LivePushEdit states when it edits |
| Relay.LivePushSpec | cogs/logs.py:72-93 | `_live_push` on values: append, ensure, then the edit step; specifies Logs.LogsCog.LivePush, and LivePushBuffer, LivePushEdit and PendingLinesKept state its properties |
| Relay.EnsureCases | cogs/logs.py:59-70 | with no message, the rendered text is sent and the outcome kept (a failed send leaves none); an existing message is replaced iff the text exceeds 1950, and the buffer is cleared only if that send succeeded; otherwise nothing happens; the timestamp is never touched |
| Relay.LivePushBuffer | cogs/logs.py:72-75 | the pushed line ends the buffer unless the push rolled the message over, which clears the buffer, the line included |
| Relay.LivePushEdit | cogs/logs.py:77-93 | an edit is made iff a message exists after the ensure step and the throttle window has passed; it is the last call and shows the current buffer rendered, i.e. its newest `chunk_limit` characters; the timestamp moves only on success; a failed edit drops the message and keeps the buffer |
| Relay.PushedLineEdited | cogs/logs.py:72-93 | when the push edits and did not roll over, a pushed line that fits the chunk limit appears in full, right before the footer, in that edit, which is the push's last call |
| Relay.ThrottledPushDoesNotEdit | cogs/logs.py:83-85 | a push inside the throttle window makes no edit and keeps the timestamp |
| Relay.PendingLinesKept | cogs/logs.py:72-93 | with a chunk limit of at most 1924, any sequence of pushes leaves every pushed line in the buffer, in order |
| Relay.BrokenSinkRecreates | cogs/logs.py:63-64 | a sink whose message was lost sends a new one on its next push, showing the rendered buffer with that line, i.e. its newest `chunk_limit` characters |
| Relay.BatchTake | cogs/logs.py:98-104 | a batch takes at most the whole queue, and at least one line when the queue is non-empty |
| Relay.BatchTakeStops | cogs/logs.py:98-104 | the batch stops at the first line that takes the total past 1800 and not before; if no line does, it takes the whole queue |
| Relay.BatchTakeFrom | cogs/logs.py:98-104 | the same stopping rule from any batch already collected |
| Relay.TotalLengthSnoc | cogs/logs.py:101 | appending a line adds its length to the batch's total |
| Relay.ShiftPrefixes | cogs/logs.py:98-104 | proof helper: a prefix of the queue after the first line taken is the same prefix of the rest |
| Relay.BatchTakeStep | cogs/logs.py:98-104 | one turn of the collecting loop: take the next line, then stop iff the total is past 1800; the invariant of Logs.LogsCog.CollectBatch |
| Relay.LastLines | cogs/logs.py:106 | `batch[-200:]` is the newest `min(len, 200)` lines of the batch |
| Relay.BatchText | cogs/logs.py:106 | the text a batch sends: its newest 200 lines joined by newlines in a `log` code block |
| Relay.BatchPushSpec | cogs/logs.py:95-110 | `_batch_push` on values; specifies Logs.LogsCog.BatchPush, and BatchConsumesTaken states what it consumes and sends |
| Relay.BatchConsumesTaken | cogs/logs.py:95-110 | a batch push removes exactly the lines it takes from the front of the queue, sends one message holding the newest 200 of the first line and those lines, and changes no live state |
| Relay.BatchPushFields | cogs/logs.py:95-110 | proof helper: a batch push leaves the live states, drops the taken lines and appends one send |
| Relay.ServeSink | cogs/logs.py:124-127 | one resolved sink: "live" pushes live, any other mode batches; specifies Logs.LogsCog.ServeLine, and ServeSinkRouting and ServeSinkFrame state its properties |
| Relay.Resolve | cogs/logs.py:119-122 | the channel lookup and its skip rule; ResolveRules states it |
| Relay.ResolveRules | cogs/logs.py:118-145 | a sink is skipped iff its channel id is 0 or names no text channel, faults iff a non-zero id's lookup raises, and is otherwise delivered to that very channel |
| Relay.UndeliveredChangesNothing | cogs/logs.py:118-145 | a skipped or faulting sink changes nothing; a guild sink flags exactly the fault |
| Relay.ServeGlobal | cogs/logs.py:118-130 | the global sink on values; specifies Logs.LogsCog.ServeGlobalLine |
| Relay.KeySettings | cogs/logs.py:51-54 | the settings a live sink reads for its key: the global ones for key 0, the guild's otherwise, as `_render_live_text` and `_live_push` (cogs/logs.py:77-81) choose them |
| Relay.ServeGuild | cogs/logs.py:135-145 | one guild sink on values, with the fault flag; specifies Logs.LogsCog.ServeGuildLine |
| Relay.ServeGuilds | cogs/logs.py:133-148 | the guild loop on values: guilds in order until a fault; specifies Logs.LogsCog.ServeGuildLines, and FaultSkipsRest and FaultingGuildStops state its stopping rule |
| Relay.ServeGuildsNext | cogs/logs.py:134-145 | proof helper: serving one more guild, while no fault has ended the loop, is serving that guild after the prefix |
| Relay.RelayStepSpec | cogs/logs.py:113-148 | one relay turn on values; specifies Logs.LogsCog.RelayStep, and RelayStepOrder states its order and queue use |
| Relay.ServeSinkRouting | cogs/logs.py:124-127 | a "live" sink leaves the queue alone; any other mode is exactly a batch push |
| Relay.ServeSinkFrame | cogs/logs.py:124-127 | serving a sink only consumes from the front of the queue, only appends calls, and changes no other sink's live state |
| Relay.ServeGuildsFrame | cogs/logs.py:133-148 | the guild loop only consumes from the front of the queue, only appends calls, and changes no live state outside the guilds it serves |
| Relay.FaultSkipsRest | cogs/logs.py:133-148 | once a fault escapes, serving any longer prefix of the list gives the same result |
| Relay.FaultingGuildStops | cogs/logs.py:133-148 | a guild whose channel lookup raises ends the loop, and no guild after it is served |
| Relay.RelayStepOrder | cogs/logs.py:113-148 | a relay turn consumes its line, and possibly more, from the front of the queue; the global sink's calls come before every guild's |
| Logs.LogsCog.constructor | cogs/logs.py:27-32 | a new cog has no live states and no calls, and its queue holds exactly the lines logged before it was added (`LOG_QUEUE` is the module-level queue of utils/logging_config.py, fed from startup on) |
| Logs.LogsCog.Emit | utils/logging_config.py:13-19 | a record's line is appended to the queue and nothing else changes |
| Logs.LogsCog.State | cogs/logs.py:41-46 | the existing state is returned, or a fresh one is inserted and returned |
| Logs.LogsCog.EnsureStep | cogs/logs.py:59-70 | the new state and the sends are exactly EnsureSpec |
| Logs.LogsCog.AppendLine | cogs/logs.py:73-74 | the line is appended to the sink's buffer, creating the state if need be |
| Logs.LogsCog.EnsureLiveMessage | cogs/logs.py:59-70 | the sink's state and the calls change exactly as EnsureSpec says |
| Logs.LogsCog.EditIfDue | cogs/logs.py:77-93 | the sink's state and the calls change exactly as EditStep says |
| Logs.LogsCog.LivePush | cogs/logs.py:72-93 | the sink's state and the calls change exactly as LivePushSpec says; the queue is untouched |
| Logs.LogsCog.CollectBatch | cogs/logs.py:96-104 | the loop collects the first line and exactly the BatchTake lines from the front of the queue, and leaves the rest |
| Logs.LogsCog.BatchPush | cogs/logs.py:95-110 | the queue loses exactly the BatchTake lines from its front, and one message holding the newest 200 of the first line and those lines is sent |
| Logs.LogsCog.ServeLine | cogs/logs.py:124-127 | the cog changes as ServeSink says |
| Logs.LogsCog.ServeGlobalLine | cogs/logs.py:118-130 | the cog changes as ServeGlobal says |
| Logs.LogsCog.ServeGuildLine | cogs/logs.py:135-145 | the cog and the fault flag are as ServeGuild says |
| Logs.LogsCog.ServeGuildLines | cogs/logs.py:133-148 | the cog and the fault flag are as ServeGuilds says for the whole list |
| Logs.LogsCog.RelayStep | cogs/logs.py:113-148 | the cog changes as RelayStepSpec says |
| Logs.LogsCog.LogStreamSet | cogs/logs.py:169-180 | the guild's stream channel is stored; in live mode a start message is sent and the sink is reset with an empty buffer and a zero timestamp; otherwise no live state changes |
| Logs.LogsCog.LogStreamOff | cogs/logs.py:182-188 | the guild's stream channel becomes 0 and its sink has no message and an empty buffer |
| Logs.LogsCog.LogStreamMode | cogs/logs.py:190-208 | a rejected mode returns the error and changes nothing; switching to live with a resolvable text channel sends a start message and resets the sink; otherwise only the mode changes |

## Behaviours of the code worth knowing

The model follows the code in each case below. Each is a behaviour a reader of the code's names and comments would not expect.

- **Rollover drops a line.** When a push rolls the live message over, the buffer is cleared *after* the line was appended. So the line that caused the rollover is never shown (`Relay.LivePushBuffer`).
- **Rollover never happens with the default limit.** The text is the body plus 26 characters, and the body is cut to `chunk_limit`. So with any chunk limit of at most 1924, including the default 1800, the text never exceeds 1950. The message is then never replaced and the buffer grows without bound (`Relay.NoRolloverWithinLimit`, `Relay.PendingLinesKept`).
- **One guild's fault stops the others.** The comment at cogs/logs.py:147 says an individual server's error should not interrupt the whole. But a single `try` wraps the whole guild loop, so a lookup that raises skips every later guild for that line (`Relay.FaultingGuildStops`).
- **Batch sinks steal lines.** Lines a batch sink takes off the shared queue are never offered to the global sink or to any other guild (`Relay.BatchConsumesTaken`).
- **No timer flush.** A live sink throttled on its last line shows it only at its next push; nothing edits the message when the throttle window ends.
- **Guild id 0.** A guild whose id were 0 would share the global sink's live state and use the global stream settings for rendering and throttling, since the code keys both by id (`Relay.KeySettings`).

## Left out

- Discord, asyncio and the event loop. The lifetime loop of `_relay_logs` (`while not bot.is_closed()`), its outer `except` with the half-second sleep, and `on_ready` are not modelled; one turn is `Logs.LogsCog.RelayStep`.
- Waiting on the queue: an empty queue stands for `LOG_QUEUE.get()` blocking in the relay and for the one-second `wait_for` timeout in `_batch_push`. Lines logged while a batch waits are not modelled.
- Concurrency: configuration changes made by commands during an `await` of the relay are not modelled; each relay turn reads one configuration.
- The float clock: `time.monotonic()` is modelled as integer milliseconds, and the throttle compares `now - last` with `throttle_ms` in milliseconds instead of seconds.
- Object aliasing: `LiveState`, `GuildConfig` and `StreamSettings` are values, held by the maps and fields of the owning class. Python code outside the core that kept a returned configuration object and mutated it later is not modelled.
- Config.ConfigManager.constructor: starts from the default global configuration and an empty cache. The legacy migration, the loading of the global file and the preloading of every guild file (utils/config.py:51-80) need the file system.
- JSON persistence: loading, saving, the legacy `config.json` migration and error recovery on unreadable files are not modelled. A manager starts from the defaults, so every guild configuration it creates is the default one.
- Config.ConfigManager.GuildsWithStreamChannel: models only the scan of the cache; the second half, which scans the guild files on disk and loads those with a stream channel, needs the file system.
- Config.ConfigManager.SetCritRules: models `setattr` for the four crit field names only. Any other name, including Python's own attributes that `hasattr` would also accept, is ignored. `int(v)` is taken as already applied.
- `int(channel_id)` and `int(ms)` in the setters are taken as already applied: the inputs are integers.
- Logs.LogsCog.RelayStep: requires `config.Valid()`, the invariant every manager built by the constructor and changed only by its methods keeps.
- The `log stream throttle` and `log crit set/off` commands only forward to `ConfigManager` setters, which are modelled. `log level` (`to_level` and the root logger), the help groups and every `ctx.reply` are not modelled.
- The rest of utils/logging_config.py (console and file handlers, log rotation with gzip) is not part of this model; only the `put_nowait` of each record (`Logs.LogsCog.Emit`) is.
- The other cogs (admin, help, dice, roll) and main.py are not part of this model.
- Randomness: `random.randint` in `parse_and_roll` and `d100` in coc.py are replaced by rolls supplied as inputs.
- The regular expression's `\d` is modelled as the ASCII digits, and `int()` reads only ASCII digits; Python also accepts other Unicode decimal digits. `\s` is modelled as the characters `str.isspace` accepts.
- The `DiceError` messages are modelled as error constructors carrying the limits, not as text.

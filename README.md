# Boss-music arbitration (Mowzie's Mobs / OverhauledMusic compatibility)

A Dafny model of the client-side core of a Minecraft compatibility mod. When a
player comes near a boss, the mod plays that boss's theme and suppresses the
boss mod's own music. While the theme is audible it keeps the separate
OverhauledMusic ambient subsystem muted, and it releases that subsystem once the
theme has faded out.

- `wrappers.dfy`: module `Wrappers`. Holds `Option`, which stands for Java's nullable references.
- `boss_sound.dfy`: module `BossSound`. Interface-only models of what the controller uses:
  - `ResourceLocation`;
  - the `BossType` enumeration (name, entity type, theme sound);
  - the playback handle `BossThemeSoundInstance`. It records the last fade command and the hard-stop request. Its `stopped` flag and volume belong to the mixer.
- `music_bridge.dfy`: module `MusicBridge`. Models `OverhauledMusicBridge`:
  - the `initTried`/`available` flags;
  - the foreign `MusicDirector`, with its instance map and `current` pointer;
  - `muteTick` and `unmuteNow` as class methods;
  - pure transition functions that specify those methods (`MuteTickSpec`, `UnmuteNowSpec`, `Run`).

  Each reflective access, each call on the foreign instance map (`isEmpty`, `get`, iterating `values()`), and each per-instance call is an oracle outcome (`Faults`). A proof therefore covers every combination of those failures, including an iteration that throws after some instances were muted.
- `client_events.dfy`: module `BossMusic`. Models `ClientEvents`:
  - the constants;
  - the suppressed identifier set and the `onPlaySound` filter;
  - the nearest-boss search as a nested loop with its specification;
  - a pure model of the out-of-range timer with lemmas about its timeline;
  - the controller class, whose `OnClientTick` states the entire new state of each tick.

  Calls into the bridge are recorded in the trace field `bridgeCalls`. `MusicBridge.Run` gives the bridge-side effect of any such trace.

Points of the code's behaviour that the model keeps as written:
- The code suppresses 14 identifiers: 3 single themes and 11 sculptor sections.
- The sound hook `onPlaySound` reads no controller state. It is a pure membership test.
- If the theme lookup fails, the code still sets `currentBoss` and keeps the previous handle. If the boss changed and that handle had not stopped, it has already been told to fade out and to hard-stop after the fade. So `currentBoss` can be set while `bossSound` is null, or while it is the previous boss's handle. On the next in-range tick that previous handle is faded back up if it has not stopped, but its hard-stop request stays set. `OnClientTick` states exactly this behaviour.
- `ticksSinceOutOfRange` is a Java `int`. The class invariant keeps it between 0 and 1260, so wrap-around can never happen.

## Model

| member | source | states |
|---|---|---|
| `BossSound.BossThemeSoundInstance.constructor` | src/main/java/com/pavithra/mowzieomcompat/ClientEvents.java:194 | A new handle plays the given theme. It is not stopped, has no hard-stop request, starts at volume 0 and fades toward 1 over 40 ticks. |
| `BossSound.BossThemeSoundInstance.FadeTo` | src/main/java/com/pavithra/mowzieomcompat/ClientEvents.java:92 | A fade command changes only the recorded target and duration. The stopped flag, the hard-stop request and the volume stay as they were. |
| `BossSound.BossThemeSoundInstance.RequestHardStopAfterFadeOut` | src/main/java/com/pavithra/mowzieomcompat/ClientEvents.java:91 | Sets the hard-stop request and nothing else. |
| `BossMusic.MowzieBossMusicShape` | src/main/java/com/pavithra/mowzieomcompat/ClientEvents.java:37-56 | The suppressed set has exactly 14 distinct identifiers: 3 single themes and 11 sculptor sections, in two disjoint groups. All are in the `mowziesmobs` namespace. |
| `BossMusic.OnPlaySound` | src/main/java/com/pavithra/mowzieomcompat/ClientEvents.java:145-156 | A request is replaced by no sound exactly when its identifier is present and in the suppressed set. A missing sound stays missing. Any other request passes through unchanged. |
| `BossMusic.OtherNamespacesPass` | src/main/java/com/pavithra/mowzieomcompat/ClientEvents.java:152-160 | A request with no identifier, or with an identifier outside the boss mod's namespace, always plays unchanged. This covers the ambient subsystem's own tracks. |
| `BossMusic.FindBossInRange` | src/main/java/com/pavithra/mowzieomcompat/ClientEvents.java:198-220 | The result is empty exactly when no entity matches a boss type within squared distance 900. Otherwise the result is the type of a match with minimal squared distance. Among matches at that distance, the one visited first wins (the comparison is strict `<`). |
| `BossMusic.NearestAtUnique` | src/main/java/com/pavithra/mowzieomcompat/ClientEvents.java:211-214 | At most one (entity, boss type) pair satisfies the selection rule, so the search result is fully determined by the entity order. |
| `BossMusic.AwayTick` | src/main/java/com/pavithra/mowzieomcompat/ClientEvents.java:113-139 | After an out-of-range tick the player is out of range. The counter invariant is preserved: `wasInRange` implies the count is 0, the count stays within 0..1260, and a held handle implies a count below 1260. |
| `BossMusic.AwayCommands` | src/main/java/com/pavithra/mowzieomcompat/ClientEvents.java:114-136 | An out-of-range tick sends `fadeTo(0, 40)` to the held handle on the tick it leaves range or once the count reaches 1200. From a count of 1200 it also requests the hard stop. The stopped flag and the volume are untouched. |
| `BossMusic.ReleasedIsFinal` | src/main/java/com/pavithra/mowzieomcompat/ClientEvents.java:137-139 | Once the handle is released, any number of further out-of-range ticks change nothing. |
| `BossMusic.CountingAway` | src/main/java/com/pavithra/mowzieomcompat/ClientEvents.java:123-136 | While a handle is held out of range, each tick adds exactly 1 to the counter. The counter stops at 1260, the tick on which the handle is dropped. |
| `BossMusic.LeaveRangeTimeline` | src/main/java/com/pavithra/mowzieomcompat/ClientEvents.java:114-136 | After leaving range with a handle, k ticks later the counter reads k (capped at 1260). The handle is still held exactly while k < 1260. |
| `BossMusic.HardStopWindow` | src/main/java/com/pavithra/mowzieomcompat/ClientEvents.java:126-135 | The k-th tick out of range still finds the handle held exactly when k <= 1260. On such a tick, the commands `AwayCommands` sends the handle request the hard stop exactly when k >= 1200 (or when it was already requested). |
| `BossMusic.MuteBetweenUnmutes` | src/main/java/com/pavithra/mowzieomcompat/ClientEvents.java:169-181 | In a trace the controller keeps (every `Unmute` directly after a `Mute`), any two `Unmute`s have a `Mute` between them. |
| `BossMusic.UnmutesNeverOutnumberMutes` | src/main/java/com/pavithra/mowzieomcompat/ClientEvents.java:169-181 | In such a trace there are never more `Unmute`s than `Mute`s. |
| `BossMusic.ClientEvents.constructor` | src/main/java/com/pavithra/mowzieomcompat/ClientEvents.java:58-65 | The controller starts with no boss, no handle, no override, out of range, a count of 0 and an empty bridge trace. |
| `BossMusic.ClientEvents.IsBossMusicActive` | src/main/java/com/pavithra/mowzieomcompat/ClientEvents.java:163-167 | Boss music counts as active only while a handle is held. A held handle is always active while in range. |
| `BossMusic.ClientEvents.ApplyOverhauledMusicBossOverride` | src/main/java/com/pavithra/mowzieomcompat/ClientEvents.java:169-181 | A mute request appends one `Mute` and sets the override flag. Otherwise one `Unmute` is appended only if the override was active, and the flag ends false. The trace invariant is kept: every `Unmute` directly follows a `Mute`, and the flag is set iff the last call was a `Mute`. |
| `BossMusic.ClientEvents.StartBossTheme` | src/main/java/com/pavithra/mowzieomcompat/ClientEvents.java:183-196 | If the boss's theme is registered, the handle becomes a fresh, freshly started one. Otherwise the handle is left as it was. |
| `BossMusic.ClientEvents.InRangeTick` | src/main/java/com/pavithra/mowzieomcompat/ClientEvents.java:78-110 | The in-range branch of the tick, stated by `InRangeOutcome`. Afterwards `wasInRange` is true, the count is 0, `currentBoss` is the detected boss, the override is active and exactly one new `Mute` was issued. <br>On a boss switch, an old handle that has not stopped gets a hard-stop request and `fadeTo(0, 40)`, then a new handle is attempted. A failed lookup keeps the old handle. <br>With the same boss and a live handle, that handle is kept and gets `fadeTo(1, 40)`. With the same boss and an absent or stopped handle, a new handle is attempted. <br>The class invariant is kept. |
| `BossMusic.ClientEvents.OutOfRangeTick` | src/main/java/com/pavithra/mowzieomcompat/ClientEvents.java:113-142 | The out-of-range branch of the tick, stated by `OutOfRangeOutcome`. The timer moves on as `AwayTick` says and the held handle gets the commands of `AwayCommands`. Afterwards, no handle implies no boss, and a kept handle is the old one. <br>`Mute` is issued iff a handle is still held and its volume is above 0.01. Otherwise one `Unmute` is issued iff the override was active. The class invariant is kept. |
| `BossMusic.ClientEvents.OnClientTick` | src/main/java/com/pavithra/mowzieomcompat/ClientEvents.java:67-143 | A tick outside the END phase, or with no player or level, changes neither the controller nor its handle. Otherwise the detected boss is the one `FindBossInRange` specifies. The tick then has the outcome of the in-range or the out-of-range branch, as above. |
| `MusicBridge.AfterInit` | src/main/java/com/pavithra/mowzieomcompat/OverhauledMusicBridge.java:20-52 | A probe that already ran changes nothing. The first probe sets `initTried` and enables the bridge iff no resolution step fails. Foreign state is untouched. |
| `MusicBridge.MutedMap` | src/main/java/com/pavithra/mowzieomcompat/OverhauledMusicBridge.java:64-76 | Every non-null instance gets `fadeTo(0, 8)` unless that call fails on it, and `inactiveTicks := 0` unless that call fails on it. Other instances' failures have no effect on it. Null entries, keys and the active flag are unchanged. |
| `MusicBridge.MutedPart` | src/main/java/com/pavithra/mowzieomcompat/OverhauledMusicBridge.java:64-76 | Part-way through the loop, the instances under the handled keys are exactly as the full loop (`MutedMap`) leaves them, and every other entry is untouched. |
| `MusicBridge.MuteTickSpec` | src/main/java/com/pavithra/mowzieomcompat/OverhauledMusicBridge.java:55-81 | The bridge stays on iff the probe result is on, the instance-map read succeeds, `isEmpty` does not throw on a non-null map, and iterating a non-empty map does not throw. When iteration throws after the instances under a set of keys were handled, the bridge is disabled and exactly those instances are muted (`MutedPart`). Any other throw disables the bridge and leaves every instance unchanged. When the bridge stays on, the map becomes `MutedMap` of itself. `current` never changes. |
| `MusicBridge.UnmuteInstance` | src/main/java/com/pavithra/mowzieomcompat/OverhauledMusicBridge.java:98-108 | The released instance is activated, faded to 1 over 40 ticks and has its inactivity counter reset. Each of the three steps is skipped only where its own call fails. |
| `MusicBridge.UnmuteNowSpec` | src/main/java/com/pavithra/mowzieomcompat/OverhauledMusicBridge.java:83-113 | A failed read of `current`, a failed read of the map once `current` is set, or a throwing `get` on a non-null map disables the bridge. A null `current`, a null map or no entry for `current` is a no-op. Otherwise only the entry of `current` changes, to `UnmuteInstance` of it. |
| `MusicBridge.DisabledIsFinal` | src/main/java/com/pavithra/mowzieomcompat/OverhauledMusicBridge.java:55-85 | Once the probe has run and the bridge is off, any sequence of mute and unmute calls leaves the whole state unchanged, every instance included. |
| `MusicBridge.NeverReenabled` | src/main/java/com/pavithra/mowzieomcompat/OverhauledMusicBridge.java:47-50 | After the probe has run, no sequence of calls turns the bridge on again. |
| `MusicBridge.AvailableOnlyFromProbe` | src/main/java/com/pavithra/mowzieomcompat/OverhauledMusicBridge.java:20-52 | After any non-empty run the probe has run. The bridge is on only if it was already on, or the run's first call performed the probe and every step of it succeeded. |
| `MusicBridge.MusicDirector.constructor` | src/main/java/com/pavithra/mowzieomcompat/OverhauledMusicBridge.java:11 | The foreign director holds the given instance map and current pointer. |
| `MusicBridge.OverhauledMusicBridge.constructor` | src/main/java/com/pavithra/mowzieomcompat/OverhauledMusicBridge.java:8-9 | The bridge starts untried and off. |
| `MusicBridge.OverhauledMusicBridge.Init` | src/main/java/com/pavithra/mowzieomcompat/OverhauledMusicBridge.java:20-53 | Its state becomes `AfterInit` of the old state. The probe body runs at most once (`probeRuns <= 1`), and a second call leaves the object unchanged. |
| `MusicBridge.OverhauledMusicBridge.MuteTick` | src/main/java/com/pavithra/mowzieomcompat/OverhauledMusicBridge.java:55-81 | Its state and the director's become `MuteTickSpec` of the old state. |
| `MusicBridge.OverhauledMusicBridge.MuteInstances` | src/main/java/com/pavithra/mowzieomcompat/OverhauledMusicBridge.java:64-76 | The loop over the instances under the given keys leaves the map equal to `MutedPart` of the map it started from: those instances muted, the rest untouched. `MuteTick` passes all keys, giving `MutedMap`, or the keys handled before a throwing iteration. `current` is untouched. |
| `MusicBridge.OverhauledMusicBridge.UnmuteNow` | src/main/java/com/pavithra/mowzieomcompat/OverhauledMusicBridge.java:83-113 | Its state and the director's become `UnmuteNowSpec` of the old state. |

## Left out

- Forge and Minecraft event plumbing: `TickEvent`, `PlaySoundEvent`, event priorities and `Minecraft.getInstance()`. The tick becomes parameters: the phase, whether a player and a level exist, and the entity list. The sound event becomes an optional request.
- `SoundManager.play` on a new handle is foreign and not modelled. A new handle is assumed to be submitted to the mixer.
- The world query (`getEntities` over the inflated bounding box) and the entity-type registry lookup are foreign. The search takes a sequence of (type key or null, squared distance) pairs in iteration order.
- The `BossType` enumeration's declaration is not part of this model. Its `values()` order is the `bosses` parameter. `boss.sound.get()` becomes membership of the theme in a registry set, and it fails when the theme is not registered.
- `BossThemeSoundInstance`'s declaration is not part of this model. Its fade arithmetic, and when the mixer sets `stopped` or moves the volume, are not modelled. The initial state of a new handle (not stopped, no hard-stop request, volume 0, fading toward 1 over 40 ticks) is an assumption about that undeclared class.
- Floating point: distances and volumes are `real`. The `float` threshold `0.01f` is the real 0.01. NaN and rounding are not modelled.
- Java reflection (`Class.forName`, `getDeclaredField`, `setAccessible`, `Method.invoke`) is replaced by oracle outcomes. The resolved handles (`director`, the fields and methods) are not stored. The foreign director is a fixed object, and only the two flags record the probe's result. Each per-instance call either happens in full or fails with no effect.
- The instance map's keys are modelled as strings. `instances.values()` is modelled as an iteration over the keys in an unspecified order, which is sound because each instance is handled independently.
- `MusicBridge.MuteTickSpec`: the map holds each instance as a value under its own key, so one instance object stored under two keys is modelled as two independent entries with per-key faults. Muting it twice in the source has the same effect as muting it once, but the model does not capture that the two entries share one object.
- The controller records its bridge calls as a trace instead of calling a bridge object. `MusicBridge.Run` states what a trace does to the bridge.
- Logging (`LOGGER.info/warn/error`) is omitted, along with the `Throwable` detail it prints.

/**
 * The client-side boss-music controller. Once per client tick it finds the
 * nearest boss within range, owns one boss-theme playback handle (start,
 * cross-fade on a boss switch, fade back up on re-entry, silent retention after
 * leaving range and a delayed release), and keeps the ambient-music subsystem
 * muted through the bridge while the boss theme is audible, releasing it once.
 * A second, stateless hook suppresses the boss mod's own theme sounds.
 */
module BossMusic {
  import opened Wrappers
  import opened BossSound
  import opened MusicBridge

  // ----- Configuration -----

  const RangeBlocks: int := 30
  const RangeSq: real := (RangeBlocks * RangeBlocks) as real
  const FadeInTicks: int := 40
  const FadeOutTicks: int := 40
  /** How long the theme keeps running silently after leaving range. */
  const KeepSilentTicks: int := 20 * 60
  /** Out-of-range ticks after which the handle and the boss are dropped. */
  const ReleaseTicks: int := KeepSilentTicks + FadeOutTicks + 20
  /** Volume above which a fading theme still counts as audible. */
  const AudibleThreshold: real := 0.01
  /** `Double.MAX_VALUE`, the initial best distance of the search. */
  const DoubleMax: real := 1.7976931348623157e308

  // ----- Suppression of the boss mod's own music -----

  const BossModNamespace: string := "mowziesmobs"

  /** The three bosses whose theme is a single track. */
  const SingleThemes: set<ResourceLocation> := {
    ResourceLocation(BossModNamespace, "music.frostmaw_theme"),
    ResourceLocation(BossModNamespace, "music.ferrous_wroughtnaut_theme"),
    ResourceLocation(BossModNamespace, "music.umvuthi_theme")
  }

  /** The sculptor's theme, played as separate sections. */
  const SculptorSections: set<ResourceLocation> := {
    ResourceLocation(BossModNamespace, "music.sculptor_theme_intro"),
    ResourceLocation(BossModNamespace, "music.sculptor_theme_level1_1"),
    ResourceLocation(BossModNamespace, "music.sculptor_theme_level1_2"),
    ResourceLocation(BossModNamespace, "music.sculptor_theme_transition"),
    ResourceLocation(BossModNamespace, "music.sculptor_theme_level2_1"),
    ResourceLocation(BossModNamespace, "music.sculptor_theme_level2_2"),
    ResourceLocation(BossModNamespace, "music.sculptor_theme_level3_1"),
    ResourceLocation(BossModNamespace, "music.sculptor_theme_level3_2"),
    ResourceLocation(BossModNamespace, "music.sculptor_theme_outro"),
    ResourceLocation(BossModNamespace, "music.sculptor_theme_ending"),
    ResourceLocation(BossModNamespace, "music.sculptor_theme_combat")
  }

  const MowzieBossMusic: set<ResourceLocation> := SingleThemes + SculptorSections

  lemma SingleThemesCount()
    ensures |SingleThemes| == 3
  {
  }

  lemma SculptorSectionsCount()
    ensures |SculptorSections| == 11
  {
  }

  lemma ThemeGroupsDisjoint()
    ensures SingleThemes !! SculptorSections
  {
  }

  /** The suppressed set: 14 distinct identifiers, 3 single themes and 11 sculptor sections, all of the boss mod. */
  lemma MowzieBossMusicShape()
    ensures |SingleThemes| == 3 && |SculptorSections| == 11
    ensures SingleThemes !! SculptorSections
    ensures |MowzieBossMusic| == 14
    ensures forall id :: id in MowzieBossMusic ==> id.namespace == BossModNamespace
  {
    SingleThemesCount();
    SculptorSectionsCount();
    ThemeGroupsDisjoint();
    assert |SingleThemes + SculptorSections| == |SingleThemes| + |SculptorSections|;
  }

  /** An outgoing sound-start request; only its identifier is inspected. */
  datatype SoundRequest = SoundRequest(location: Option<ResourceLocation>)

  /** The sound-start hook: the request that goes on to play (`None` = replaced by no sound). */
  function OnPlaySound(sound: Option<SoundRequest>): (r: Option<SoundRequest>)
    ensures r.None? <==> sound.None? || (sound.value.location.Some? && sound.value.location.value in MowzieBossMusic)
    ensures r.Some? ==> r == sound
  {
    match sound
    case None => None
    case Some(req) =>
      if req.location.Some? && req.location.value in MowzieBossMusic then None else sound
  }

  /** Sounds of any other namespace, such as the ambient subsystem's own tracks, always pass. */
  lemma OtherNamespacesPass(req: SoundRequest)
    requires req.location.None? || req.location.value.namespace != BossModNamespace
    ensures OnPlaySound(Some(req)) == Some(req)
  {
    MowzieBossMusicShape();
  }

  // ----- Nearest boss in range -----

  /** One entity of the world query: its registry type key (possibly null) and squared distance. */
  datatype Entity = Entity(typeId: Option<ResourceLocation>, distSq: real)

  predicate Matches(e: Entity, bt: BossType)
  {
    e.typeId == Some(bt.entityId) && e.distSq <= RangeSq
  }

  /** Entity-then-boss iteration order: pair (i2, j2) is visited before (i, j). */
  predicate Precedes(i2: int, j2: int, i: int, j: int)
  {
    i2 < i || (i2 == i && j2 < j)
  }

  /**
   * (i, j) is the selected match: of minimal distance among all matches, and
   * visited before every other match of that same distance.
   */
  ghost predicate NearestAt(es: seq<Entity>, bosses: seq<BossType>, i: int, j: int)
  {
    0 <= i < |es| && 0 <= j < |bosses| && Matches(es[i], bosses[j])
    && forall i2, j2 :: 0 <= i2 < |es| && 0 <= j2 < |bosses| && Matches(es[i2], bosses[j2]) ==>
         es[i].distSq <= es[i2].distSq && (Precedes(i2, j2, i, j) ==> es[i].distSq < es[i2].distSq)
  }

  /** `r` is the boss the search must report for the entities `es`. */
  ghost predicate IsNearest(es: seq<Entity>, bosses: seq<BossType>, r: Option<BossType>)
  {
    (r.None? <==> forall i, j :: 0 <= i < |es| && 0 <= j < |bosses| ==> !Matches(es[i], bosses[j]))
    && (r.Some? ==> exists i, j :: NearestAt(es, bosses, i, j) && bosses[j] == r.value)
  }

  /** At most one pair is the selected match, so the search result is determined. */
  lemma NearestAtUnique(es: seq<Entity>, bosses: seq<BossType>, i: int, j: int, i2: int, j2: int)
    requires NearestAt(es, bosses, i, j) && NearestAt(es, bosses, i2, j2)
    ensures i == i2 && j == j2
  {
    assert es[i].distSq == es[i2].distSq;
    assert !Precedes(i2, j2, i, j);
    assert !Precedes(i, j, i2, j2);
  }

  /** The loop state of the search after visiting every pair before (i, j). */
  ghost predicate ScannedBest(es: seq<Entity>, bosses: seq<BossType>, i: int, j: int,
                              best: Option<BossType>, bestD: real, bi: int, bj: int)
  {
    (best.None? ==>
       bestD == DoubleMax
       && forall i2, j2 :: 0 <= i2 < |es| && 0 <= j2 < |bosses| && Precedes(i2, j2, i, j) ==>
            !Matches(es[i2], bosses[j2]))
    && (best.Some? ==>
       0 <= bi < |es| && 0 <= bj < |bosses| && Precedes(bi, bj, i, j)
       && Matches(es[bi], bosses[bj]) && best.value == bosses[bj] && bestD == es[bi].distSq
       && forall i2, j2 ::
            (0 <= i2 < |es| && 0 <= j2 < |bosses| && Precedes(i2, j2, i, j) && Matches(es[i2], bosses[j2])) ==>
              bestD <= es[i2].distSq && (Precedes(i2, j2, bi, bj) ==> bestD < es[i2].distSq))
  }

  /** One inner-loop step: the pair (i, j) is visited; a strictly nearer match replaces the best. */
  lemma ScanPair(es: seq<Entity>, bosses: seq<BossType>, i: int, j: int,
                 best: Option<BossType>, bestD: real, bi: int, bj: int)
    requires 0 <= i < |es| && 0 <= j < |bosses|
    requires ScannedBest(es, bosses, i, j, best, bestD, bi, bj)
    ensures Matches(es[i], bosses[j]) && es[i].distSq < bestD ==>
      ScannedBest(es, bosses, i, j + 1, Some(bosses[j]), es[i].distSq, i, j)
    ensures !(Matches(es[i], bosses[j]) && es[i].distSq < bestD) ==>
      ScannedBest(es, bosses, i, j + 1, best, bestD, bi, bj)
  {
    assert best.None? ==> es[i].distSq <= RangeSq < bestD || !Matches(es[i], bosses[j]);
  }

  /** Finishing the inner loop over the boss types moves on to the next entity. */
  lemma ScanNextEntity(es: seq<Entity>, bosses: seq<BossType>, i: int,
                       best: Option<BossType>, bestD: real, bi: int, bj: int)
    requires 0 <= i < |es|
    requires ScannedBest(es, bosses, i, |bosses|, best, bestD, bi, bj)
    ensures ScannedBest(es, bosses, i + 1, 0, best, bestD, bi, bj)
  {
  }

  /** An entity without a registry key matches nothing and is skipped. */
  lemma ScanSkipEntity(es: seq<Entity>, bosses: seq<BossType>, i: int,
                       best: Option<BossType>, bestD: real, bi: int, bj: int)
    requires 0 <= i < |es| && es[i].typeId.None?
    requires ScannedBest(es, bosses, i, 0, best, bestD, bi, bj)
    ensures ScannedBest(es, bosses, i + 1, 0, best, bestD, bi, bj)
  {
  }

  /** After the last entity, the best so far is the search result. */
  lemma ScanDone(es: seq<Entity>, bosses: seq<BossType>,
                 best: Option<BossType>, bestD: real, bi: int, bj: int)
    requires ScannedBest(es, bosses, |es|, 0, best, bestD, bi, bj)
    ensures IsNearest(es, bosses, best)
  {
    if best.Some? {
      assert NearestAt(es, bosses, bi, bj);
    }
  }

  /**
   * `findBossInRange`: the boss type of the nearest matching entity within
   * range; on equal distances the first match in iteration order wins.
   * `bosses` is the enumeration's `values()` order.
   */
  method FindBossInRange(es: seq<Entity>, bosses: seq<BossType>) returns (bestType: Option<BossType>)
    ensures IsNearest(es, bosses, bestType)
  {
    bestType := None;
    var bestDistSq := DoubleMax;
    ghost var bi, bj := 0, 0;
    var i := 0;
    while i < |es|
      invariant 0 <= i <= |es|
      invariant ScannedBest(es, bosses, i, 0, bestType, bestDistSq, bi, bj)
    {
      var e := es[i];
      if e.typeId.Some? {
        var j := 0;
        while j < |bosses|
          invariant 0 <= j <= |bosses|
          invariant ScannedBest(es, bosses, i, j, bestType, bestDistSq, bi, bj)
        {
          ScanPair(es, bosses, i, j, bestType, bestDistSq, bi, bj);
          var bt := bosses[j];
          if bt.entityId == e.typeId.value {
            var dSq := e.distSq;
            if dSq <= RangeSq && dSq < bestDistSq {
              bestDistSq := dSq;
              bestType := Some(bt);
              bi, bj := i, j;
            }
          }
          j := j + 1;
        }
        ScanNextEntity(es, bosses, i, bestType, bestDistSq, bi, bj);
      } else {
        ScanSkipEntity(es, bosses, i, bestType, bestDistSq, bi, bj);
      }
      i := i + 1;
    }
    ScanDone(es, bosses, bestType, bestDistSq, bi, bj);
  }

  // ----- Out-of-range timing -----

  /** The timing part of the controller: in-range flag, out-of-range counter, whether a handle is held. */
  datatype Timer = Timer(wasInRange: bool, ticks: int, holding: bool)

  /** The invariant the tick keeps: the counter never exceeds the release point. */
  predicate TimerInvariant(t: Timer)
  {
    (t.wasInRange ==> t.ticks == 0) && 0 <= t.ticks <= ReleaseTicks && (t.holding ==> t.ticks < ReleaseTicks)
  }

  /** One out-of-range tick: reset on leaving range, count while a handle is held, drop it at the release point. */
  function AwayTick(t: Timer): (r: Timer)
    ensures !r.wasInRange
    ensures TimerInvariant(t) ==> TimerInvariant(r)
  {
    var n := if t.wasInRange then 0 else t.ticks;
    if t.holding then Timer(false, n + 1, n + 1 < ReleaseTicks) else Timer(false, n, false)
  }

  /** `k` consecutive out-of-range ticks. */
  function AwayTicks(t: Timer, k: nat): (r: Timer)
    decreases k
  {
    if k == 0 then t else AwayTicks(AwayTick(t), k - 1)
  }

  /** Once released, further out-of-range ticks change nothing. */
  lemma {:induction false} ReleasedIsFinal(n: int, k: nat)
    ensures AwayTicks(Timer(false, n, false), k) == Timer(false, n, false)
    decreases k
  {
    if k > 0 {
      ReleasedIsFinal(n, k - 1);
    }
  }

  lemma {:induction false} CountingAway(n: int, k: nat)
    requires 1 <= n < ReleaseTicks
    ensures AwayTicks(Timer(false, n, true), k)
         == Timer(false, if n + k < ReleaseTicks then n + k else ReleaseTicks, n + k < ReleaseTicks)
    decreases k
  {
    if k > 0 {
      if n + 1 < ReleaseTicks {
        CountingAway(n + 1, k - 1);
      } else {
        ReleasedIsFinal(ReleaseTicks, k - 1);
      }
    }
  }

  /**
   * Leaving range with a handle: after `k` ticks away the counter reads `k`
   * (capped at the release point), and the handle is held exactly while `k < 1260`.
   */
  lemma LeaveRangeTimeline(k: nat)
    requires k >= 1
    ensures AwayTicks(Timer(true, 0, true), k)
         == Timer(false, if k < ReleaseTicks then k else ReleaseTicks, k < ReleaseTicks)
  {
    CountingAway(1, k - 1);
  }

  /**
   * The k-th tick away still finds the handle held exactly for k <= 1260, and the
   * commands it sends that handle request the hard stop exactly from k = 1200 on.
   */
  lemma HardStopWindow(k: nat, h: HandleState)
    requires k >= 1
    ensures AwayTicks(Timer(true, 0, true), k - 1).holding <==> k <= ReleaseTicks
    ensures k <= ReleaseTicks ==>
      (AwayCommands(AwayTicks(Timer(true, 0, true), k - 1), h).hardStopRequested
       <==> h.hardStopRequested || KeepSilentTicks <= k)
  {
    if k > 1 {
      LeaveRangeTimeline(k - 1);
    }
  }

  /** The fade and stop commands an out-of-range tick from timer `t` issues to the held handle. */
  function AwayCommands(t: Timer, h: HandleState): (r: HandleState)
    ensures r.stopped == h.stopped && r.volume == h.volume
    ensures r.hardStopRequested <==> h.hardStopRequested || AwayTick(t).ticks >= KeepSilentTicks
    ensures (t.wasInRange || AwayTick(t).ticks >= KeepSilentTicks) ==> r.fadeTarget == 0.0 && r.fadeTicks == FadeOutTicks
    ensures !(t.wasInRange || AwayTick(t).ticks >= KeepSilentTicks) ==> r.fadeTarget == h.fadeTarget && r.fadeTicks == h.fadeTicks
  {
    var n := AwayTick(t).ticks;
    var left := if t.wasInRange then h.(fadeTarget := 0.0, fadeTicks := FadeOutTicks) else h;
    if n >= KeepSilentTicks then left.(hardStopRequested := true, fadeTarget := 0.0, fadeTicks := FadeOutTicks) else left
  }

  // ----- Bridge trace -----

  /** Every release is issued right after a mute: no release without a mute, never two releases in a row. */
  predicate UnmutesFollowMutes(calls: seq<BridgeCall>)
  {
    forall i :: 0 <= i < |calls| && calls[i] == Unmute ==> i > 0 && calls[i - 1] == Mute
  }

  /** The override flag is set exactly when the last bridge call was a mute. */
  predicate OverrideMatchesTrace(active: bool, calls: seq<BridgeCall>)
  {
    UnmutesFollowMutes(calls) && (active <==> |calls| > 0 && calls[|calls| - 1] == Mute)
  }

  /** Between any two releases of the trace there is a mute. */
  lemma MuteBetweenUnmutes(calls: seq<BridgeCall>, i: int, j: int)
    requires UnmutesFollowMutes(calls)
    requires 0 <= i < j < |calls| && calls[i] == Unmute && calls[j] == Unmute
    ensures exists k :: i < k < j && calls[k] == Mute
  {
    assert calls[j - 1] == Mute;
  }

  /** How often `c` occurs in `calls`. */
  function Occurrences(calls: seq<BridgeCall>, c: BridgeCall): (r: nat)
    decreases |calls|
  {
    if calls == [] then 0
    else Occurrences(calls[..|calls| - 1], c) + (if calls[|calls| - 1] == c then 1 else 0)
  }

  /** The ambient subsystem is never released more often than it was muted. */
  lemma {:induction false} UnmutesNeverOutnumberMutes(calls: seq<BridgeCall>)
    requires UnmutesFollowMutes(calls)
    ensures Occurrences(calls, Unmute) <= Occurrences(calls, Mute)
    decreases |calls|
  {
    if calls != [] {
      var n := |calls|;
      var init := calls[..n - 1];
      assert UnmutesFollowMutes(init) by {
        forall i | 0 <= i < |init| && init[i] == Unmute
          ensures i > 0 && init[i - 1] == Mute
        {
          assert calls[i] == Unmute;
        }
      }
      if calls[n - 1] == Unmute {
        var rest := init[..n - 2];
        assert calls[n - 2] == Mute;
        assert UnmutesFollowMutes(rest) by {
          forall i | 0 <= i < |rest| && rest[i] == Unmute
            ensures i > 0 && rest[i - 1] == Mute
          {
            assert calls[i] == Unmute;
          }
        }
        UnmutesNeverOutnumberMutes(rest);
      } else {
        UnmutesNeverOutnumberMutes(init);
      }
    }
  }

  datatype TickPhase = Start | End

  predicate Handled(phase: TickPhase, hasPlayer: bool, hasLevel: bool)
  {
    phase == End && hasPlayer && hasLevel
  }

  // ----- The controller -----

  class ClientEvents {
    var currentBoss: Option<BossType>
    var bossSound: BossThemeSoundInstance?
    var omBossOverrideActive: bool
    var wasInRange: bool
    var ticksSinceOutOfRange: int
    /** The calls made into the bridge, oldest first. */
    var bridgeCalls: seq<BridgeCall>

    function TimerState(): Timer
      reads this
    {
      Timer(wasInRange, ticksSinceOutOfRange, bossSound != null)
    }

    ghost predicate Valid()
      reads this
    {
      TimerInvariant(TimerState()) && OverrideMatchesTrace(omBossOverrideActive, bridgeCalls)
    }

    constructor ()
      ensures Valid()
      ensures currentBoss == None && bossSound == null && !omBossOverrideActive
      ensures !wasInRange && ticksSinceOutOfRange == 0 && bridgeCalls == []
    {
      currentBoss := None;
      bossSound := null;
      omBossOverrideActive := false;
      wasInRange := false;
      ticksSinceOutOfRange := 0;
      bridgeCalls := [];
    }

    /** `isBossMusicActive`: a handle is held and it is in range or still above the audible threshold. */
    predicate IsBossMusicActive()
      reads this, bossSound
      ensures IsBossMusicActive() ==> bossSound != null
      ensures bossSound != null && wasInRange ==> IsBossMusicActive()
    {
      bossSound != null && (wasInRange || bossSound.CurrentVolume() > AudibleThreshold)
    }

    /** Mute on every tick that asks for it; release only once, on the transition. */
    method ApplyOverhauledMusicBossOverride(shouldMute: bool)
      requires Valid()
      modifies this`omBossOverrideActive, this`bridgeCalls
      ensures Valid()
      ensures shouldMute ==> omBossOverrideActive && bridgeCalls == old(bridgeCalls) + [Mute]
      ensures !shouldMute ==>
        !omBossOverrideActive && bridgeCalls == old(bridgeCalls) + (if old(omBossOverrideActive) then [Unmute] else [])
    {
      if shouldMute {
        bridgeCalls := bridgeCalls + [Mute];
        omBossOverrideActive := true;
        return;
      }
      if omBossOverrideActive {
        bridgeCalls := bridgeCalls + [Unmute];
        omBossOverrideActive := false;
      }
    }

    /** Starts the boss's theme if its sound is registered; otherwise the handle stays as it was. */
    method StartBossTheme(boss: BossType, registry: set<ResourceLocation>)
      modifies this`bossSound
      ensures boss.theme in registry ==> bossSound != null && fresh(bossSound) && bossSound.IsFreshStart(boss.theme)
      ensures boss.theme !in registry ==> bossSound == old(bossSound)
    {
      if boss.theme !in registry {
        return;
      }
      bossSound := new BossThemeSoundInstance(boss.theme);
    }

    /** A boss-theme start: a fresh handle if the theme is registered, otherwise the old handle `h` is kept. */
    twostate predicate ThemeStarted(h: BossThemeSoundInstance?, boss: BossType, registry: set<ResourceLocation>)
      reads this, bossSound
    {
      if boss.theme in registry then bossSound != null && fresh(bossSound) && bossSound.IsFreshStart(boss.theme)
      else bossSound == h
    }

    /**
     * What an in-range tick with boss `boss` does, `h` being the handle held
     * before it: marked in range, counter reset, boss recorded, exactly one mute;
     * on a new boss the old, still playing handle fades out and hard-stops and a
     * new theme is attempted; on the same boss a live handle fades back up and
     * an absent or stopped one is replaced by a new attempt.
     */
    twostate predicate InRangeOutcome(h: BossThemeSoundInstance?, boss: BossType, registry: set<ResourceLocation>)
      reads this, bossSound, h
    {
      h == old(bossSound)
      && TimerState() == Timer(true, 0, bossSound != null) && currentBoss == Some(boss)
      && omBossOverrideActive && bridgeCalls == old(bridgeCalls) + [Mute]
      && if old(currentBoss) != Some(boss) then
           (h != null ==>
              h.State() == if old(h.IsStopped()) then old(h.State())
                           else old(h.State()).(hardStopRequested := true, fadeTarget := 0.0, fadeTicks := FadeOutTicks))
           && ThemeStarted(h, boss, registry)
         else if h != null && !old(h.IsStopped()) then
           bossSound == h && h.State() == old(h.State()).(fadeTarget := 1.0, fadeTicks := FadeInTicks)
         else
           (h != null ==> h.State() == old(h.State())) && ThemeStarted(h, boss, registry)
    }

    /**
     * What an out-of-range tick does, `h` being the handle held before it: the
     * timer advances as `AwayTick` says, the held handle gets the commands of
     * `AwayCommands`, no handle means no boss, and the ambient subsystem is muted
     * while the held handle is still audible, otherwise released once.
     */
    twostate predicate OutOfRangeOutcome(h: BossThemeSoundInstance?)
      reads this, bossSound, h
    {
      h == old(bossSound)
      && TimerState() == AwayTick(old(TimerState()))
      && (bossSound == null ==> currentBoss == None)
      && (bossSound != null ==> bossSound == h && currentBoss == old(currentBoss))
      && (h != null ==> h.State() == AwayCommands(old(TimerState()), old(h.State())))
      && var audible := bossSound != null && bossSound.CurrentVolume() > AudibleThreshold;
         (audible ==> omBossOverrideActive && bridgeCalls == old(bridgeCalls) + [Mute])
         && (!audible ==>
               !omBossOverrideActive
               && bridgeCalls == old(bridgeCalls) + (if old(omBossOverrideActive) then [Unmute] else []))
    }

    /** The in-range branch of `onClientTick`. */
    method InRangeTick(boss: BossType, registry: set<ResourceLocation>)
      requires Valid()
      modifies this, bossSound
      ensures Valid() && InRangeOutcome(old(bossSound), boss, registry)
    {
      ticksSinceOutOfRange := 0;
      // marked early, before any playback decision of this tick
      wasInRange := true;

      if currentBoss != Some(boss) {
        currentBoss := Some(boss);
        if bossSound != null && !bossSound.IsStopped() {
          bossSound.RequestHardStopAfterFadeOut();
          bossSound.FadeTo(0.0, FadeOutTicks);
        }
        StartBossTheme(boss, registry);
      } else {
        if bossSound == null || bossSound.IsStopped() {
          StartBossTheme(boss, registry);
        } else {
          bossSound.FadeTo(1.0, FadeInTicks);
        }
      }

      ApplyOverhauledMusicBossOverride(true);
    }

    /** The out-of-range branch of `onClientTick`. */
    method OutOfRangeTick()
      requires Valid()
      modifies this, bossSound
      ensures Valid() && OutOfRangeOutcome(old(bossSound))
    {
      if wasInRange {
        if bossSound != null {
          bossSound.FadeTo(0.0, FadeOutTicks);
        }
        wasInRange := false;
        ticksSinceOutOfRange := 0;
      }

      if bossSound != null {
        ticksSinceOutOfRange := ticksSinceOutOfRange + 1;
        if ticksSinceOutOfRange >= KeepSilentTicks {
          bossSound.RequestHardStopAfterFadeOut();
          bossSound.FadeTo(0.0, FadeOutTicks);
          if ticksSinceOutOfRange >= KeepSilentTicks + FadeOutTicks + 20 {
            bossSound := null;
            currentBoss := None;
          }
        }
      } else {
        currentBoss := None;
      }

      var active := IsBossMusicActive();
      ApplyOverhauledMusicBossOverride(active);
    }

    /**
     * `onClientTick`. `entities` is the world query around the player, `bosses`
     * the enumeration's values and `registry` the registered theme sounds;
     * `detected` is the boss the search found this tick.
     */
    method OnClientTick(phase: TickPhase, hasPlayer: bool, hasLevel: bool, entities: seq<Entity>,
                        bosses: seq<BossType>, registry: set<ResourceLocation>)
      returns (ghost detected: Option<BossType>)
      requires Valid()
      modifies this, bossSound
      ensures Valid()
      ensures !Handled(phase, hasPlayer, hasLevel) ==>
        unchanged(this) && (old(bossSound) != null ==> unchanged(old(bossSound)))
      ensures Handled(phase, hasPlayer, hasLevel) ==> IsNearest(entities, bosses, detected)
      ensures Handled(phase, hasPlayer, hasLevel) && detected.Some? ==>
        InRangeOutcome(old(bossSound), detected.value, registry)
      ensures Handled(phase, hasPlayer, hasLevel) && detected.None? ==>
        OutOfRangeOutcome(old(bossSound))
    {
      detected := None;
      if phase != End {
        return;
      }
      if !hasPlayer || !hasLevel {
        return;
      }

      var bossInRange := FindBossInRange(entities, bosses);
      detected := bossInRange;
      if bossInRange.Some? {
        InRangeTick(bossInRange.value, registry);
        return;
      }
      OutOfRangeTick();
    }
  }
}

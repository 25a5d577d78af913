/**
 * The bridge into the foreign ambient-music subsystem (OverhauledMusic): a
 * capability that is probed once, lazily, and then either works or stays off for
 * the rest of the process. The subsystem's director holds a map of live fading
 * instances and a pointer to the current one; the bridge mutes every instance on
 * each boss tick and releases the current one once.
 *
 * Every reflective access is an oracle outcome (`Faults`), so the model covers
 * every combination of failures rather than one runtime.
 */
module MusicBridge {
  import opened Wrappers

  /** The two entry points the boss-music controller calls. */
  datatype BridgeCall = Mute | Unmute

  /** The resolution steps of the one-time probe, in the order they run. */
  datatype Step =
    | ClientEventsClass      // Class.forName of the subsystem's event class
    | DirectorField          // its DIRECTOR field, made accessible
    | DirectorValue          // reading that static field
    | MusicDirectorClass
    | InstancesField
    | CurrentField
    | FadingInstanceClass
    | FadeToMethod
    | SetActiveMethod
    | InactiveTicksField

  /** Keys of the director's instance map (the subsystem's track identities). */
  type TrackId = string

  /** What the bridge can see of, and do to, one foreign fading instance. */
  datatype FadingInstance = FadingInstance(fadeTarget: real, fadeTicks: int, active: bool, inactiveTicks: int)

  /** The director's `instances` map; a `None` value is a null entry. */
  type InstanceMap = map<TrackId, Option<FadingInstance>>

  const MuteFadeTicks: int := 8
  const UnmuteFadeTicks: int := 40

  /**
   * The outcome of every reflective access during one bridge call:
   * the failing probe steps (consulted only by the first call), whether reading
   * `current` or `instances` throws, whether the foreign map's own `isEmpty` or
   * `get` throws, whether iterating its values throws once the instances under
   * the given keys have been handled, and the instances on which each
   * per-instance call throws.
   */
  datatype Faults = Faults(
    failingSteps: set<Step>,
    currentReadFails: bool,
    instancesReadFails: bool,
    mapCallFails: bool,
    iterationAbort: Option<set<TrackId>>,
    fadeFails: set<TrackId>,
    activateFails: set<TrackId>,
    resetFails: set<TrackId>)

  /** The bridge's two flags together with the foreign state it can change. */
  datatype BridgeState = BridgeState(
    initTried: bool,
    available: bool,
    instances: Option<InstanceMap>,
    current: Option<TrackId>)

  /** `init`: the probe runs only if it never ran; it enables the bridge iff no step fails. */
  function AfterInit(s: BridgeState, failingSteps: set<Step>): (r: BridgeState)
    ensures r.initTried && r.instances == s.instances && r.current == s.current
    ensures s.initTried ==> r == s
    ensures !s.initTried ==> (r.available <==> failingSteps == {})
  {
    if s.initTried then s else s.(initTried := true, available := failingSteps == {})
  }

  /** The two best-effort calls of `muteTick` on one instance. */
  function MuteInstance(i: FadingInstance, k: TrackId, f: Faults): (r: FadingInstance)
  {
    var faded := if k in f.fadeFails then i else i.(fadeTarget := 0.0, fadeTicks := MuteFadeTicks);
    if k in f.resetFails then faded else faded.(inactiveTicks := 0)
  }

  function MuteSlot(slot: Option<FadingInstance>, k: TrackId, f: Faults): (r: Option<FadingInstance>)
  {
    match slot
    case None => None
    case Some(i) => Some(MuteInstance(i, k, f))
  }

  /**
   * The instance map after one full `muteTick` loop: every non-null instance got
   * its own fade and reset attempt, and what happens to it depends only on its
   * own faults, never on another instance's.
   */
  function MutedMap(m: InstanceMap, f: Faults): (r: InstanceMap)
    ensures r.Keys == m.Keys
    ensures forall k :: k in m ==> (r[k].None? <==> m[k].None?)
    ensures forall k :: k in m && m[k].Some? ==> r[k].value.active == m[k].value.active
    ensures forall k :: k in m && m[k].Some? && k !in f.fadeFails ==>
      r[k].value.fadeTarget == 0.0 && r[k].value.fadeTicks == MuteFadeTicks
    ensures forall k :: k in m && m[k].Some? && k in f.fadeFails ==>
      r[k].value.fadeTarget == m[k].value.fadeTarget && r[k].value.fadeTicks == m[k].value.fadeTicks
    ensures forall k :: k in m && m[k].Some? && k !in f.resetFails ==> r[k].value.inactiveTicks == 0
    ensures forall k :: k in m && m[k].Some? && k in f.resetFails ==>
      r[k].value.inactiveTicks == m[k].value.inactiveTicks
  {
    map k | k in m :: MuteSlot(m[k], k, f)
  }

  /**
   * The map part-way through the `muteTick` loop: the instances under the keys in
   * `done` are as a full loop leaves them, all others are untouched.
   */
  function MutedPart(m: InstanceMap, done: set<TrackId>, f: Faults): (r: InstanceMap)
    ensures r.Keys == m.Keys
    ensures forall k :: k in m && k in done ==> r[k] == MutedMap(m, f)[k]
    ensures forall k :: k in m && k !in done ==> r[k] == m[k]
  {
    map k | k in m :: if k in done then MuteSlot(m[k], k, f) else m[k]
  }

  lemma MutedPartNone(m: InstanceMap, f: Faults)
    ensures MutedPart(m, {}, f) == m
  {
  }

  lemma MutedPartAll(m: InstanceMap, f: Faults)
    ensures MutedPart(m, m.Keys, f) == MutedMap(m, f)
  {
  }

  lemma MutedPartStep(m: InstanceMap, done: set<TrackId>, k: TrackId, f: Faults)
    requires k in m && k !in done
    ensures MutedPart(m, done + {k}, f) == MutedPart(m, done, f)[k := MuteSlot(m[k], k, f)]
  {
  }

  /** Whether `muteTick` gets as far as iterating a non-empty instance map. */
  predicate ReachesLoop(s: BridgeState, f: Faults)
  {
    AfterInit(s, f.failingSteps).available && !f.instancesReadFails
    && s.instances.Some? && !f.mapCallFails && |s.instances.value| > 0
  }

  /**
   * `muteTick` as a state transition. Any throw outside the per-instance calls
   * disables the bridge; an iteration that throws midway leaves the instances it
   * already handled muted.
   */
  function MuteTickSpec(s: BridgeState, f: Faults): (r: BridgeState)
    ensures r.initTried && r.current == s.current
    ensures r.available <==>
      (AfterInit(s, f.failingSteps).available && !f.instancesReadFails
       && (s.instances.Some? ==> !f.mapCallFails)
       && !(ReachesLoop(s, f) && f.iterationAbort.Some?))
    ensures r.available ==> r.instances == (if s.instances.None? then None else Some(MutedMap(s.instances.value, f)))
    ensures !r.available && !(ReachesLoop(s, f) && f.iterationAbort.Some?) ==> r.instances == s.instances
    ensures ReachesLoop(s, f) && f.iterationAbort.Some? ==>
      r.instances == Some(MutedPart(s.instances.value, f.iterationAbort.value, f))
  {
    var t := AfterInit(s, f.failingSteps);
    if !t.available then t
    else if f.instancesReadFails then t.(available := false)
    else match t.instances
      case None => t
      case Some(m) =>
        if f.mapCallFails then t.(available := false)
        else if |m| == 0 then
          assert MutedMap(m, f) == m;
          t
        else match f.iterationAbort
          case Some(done) => t.(available := false, instances := Some(MutedPart(m, done, f)))
          case None => t.(instances := Some(MutedMap(m, f)))
  }

  /** The three best-effort calls of `unmuteNow` on the current instance. */
  function UnmuteInstance(i: FadingInstance, k: TrackId, f: Faults): (r: FadingInstance)
    ensures r.active == (k !in f.activateFails || i.active)
    ensures k !in f.fadeFails ==> r.fadeTarget == 1.0 && r.fadeTicks == UnmuteFadeTicks
    ensures k in f.fadeFails ==> r.fadeTarget == i.fadeTarget && r.fadeTicks == i.fadeTicks
    ensures r.inactiveTicks == if k in f.resetFails then i.inactiveTicks else 0
  {
    var activated := if k in f.activateFails then i else i.(active := true);
    var faded := if k in f.fadeFails then activated else activated.(fadeTarget := 1.0, fadeTicks := UnmuteFadeTicks);
    if k in f.resetFails then faded else faded.(inactiveTicks := 0)
  }

  /** Whether `unmuteNow` finds an instance to release: a current track with a non-null entry. */
  predicate HasCurrentInstance(s: BridgeState)
  {
    s.current.Some? && s.instances.Some? && s.current.value in s.instances.value
    && s.instances.value[s.current.value].Some?
  }

  /** `unmuteNow` as a state transition. */
  function UnmuteNowSpec(s: BridgeState, f: Faults): (r: BridgeState)
    ensures r.initTried && r.current == s.current
    ensures r.available <==>
      (AfterInit(s, f.failingSteps).available && !f.currentReadFails
       && (s.current.None? || (!f.instancesReadFails && (s.instances.None? || !f.mapCallFails))))
    // a released instance is the only one that changes
    ensures !(r.available && HasCurrentInstance(s)) ==> r.instances == s.instances
    ensures r.available && HasCurrentInstance(s) ==>
      var c := s.current.value;
      var m := s.instances.value;
      r.instances == Some(m[c := Some(UnmuteInstance(m[c].value, c, f))])
  {
    var t := AfterInit(s, f.failingSteps);
    if !t.available then t
    else if f.currentReadFails then t.(available := false)
    else match t.current
      case None => t
      case Some(c) =>
        if f.instancesReadFails then t.(available := false)
        else match t.instances
          case None => t
          case Some(m) =>
            if f.mapCallFails then t.(available := false)
            else if c !in m || m[c].None? then t
            else t.(instances := Some(m[c := Some(UnmuteInstance(m[c].value, c, f))]))
  }

  function Apply(s: BridgeState, call: BridgeCall, f: Faults): (r: BridgeState)
  {
    match call
    case Mute => MuteTickSpec(s, f)
    case Unmute => UnmuteNowSpec(s, f)
  }

  /** A run of bridge calls, each with the faults its reflective accesses meet. */
  function Run(s: BridgeState, calls: seq<(BridgeCall, Faults)>): (r: BridgeState)
    decreases |calls|
  {
    if calls == [] then s else Run(Apply(s, calls[0].0, calls[0].1), calls[1..])
  }

  /** Once the probe has run and the bridge is off, every later call is a no-op: nothing changes, ever. */
  lemma {:induction false} DisabledIsFinal(s: BridgeState, calls: seq<(BridgeCall, Faults)>)
    requires s.initTried && !s.available
    ensures Run(s, calls) == s
    decreases |calls|
  {
    if calls != [] {
      assert Apply(s, calls[0].0, calls[0].1) == s;
      DisabledIsFinal(s, calls[1..]);
    }
  }

  /** After the probe has run, no sequence of calls ever turns the bridge back on. */
  lemma {:induction false} NeverReenabled(s: BridgeState, calls: seq<(BridgeCall, Faults)>)
    requires s.initTried
    ensures Run(s, calls).initTried
    ensures Run(s, calls).available ==> s.available
    decreases |calls|
  {
    if calls != [] {
      var t := Apply(s, calls[0].0, calls[0].1);
      NeverReenabled(t, calls[1..]);
    }
  }

  /**
   * The bridge is on after a run only if it was on already, or the run's first
   * call performed the probe and every resolution step of it succeeded.
   */
  lemma AvailableOnlyFromProbe(s: BridgeState, calls: seq<(BridgeCall, Faults)>)
    requires calls != []
    ensures Run(s, calls).initTried
    ensures Run(s, calls).available ==>
      (s.initTried && s.available) || (!s.initTried && calls[0].1.failingSteps == {})
  {
    var t := Apply(s, calls[0].0, calls[0].1);
    NeverReenabled(t, calls[1..]);
  }

  /** The ambient subsystem's director, whose state the bridge reaches by reflection. */
  class MusicDirector {
    var instances: Option<InstanceMap>
    var current: Option<TrackId>

    constructor (instances: Option<InstanceMap>, current: Option<TrackId>)
      ensures this.instances == instances && this.current == current
    {
      this.instances := instances;
      this.current := current;
    }
  }

  /**
   * The process-wide bridge. `initTried` and `available` are Java statics; one
   * object stands for them here. `probeRuns` counts executions of the probe body.
   */
  class OverhauledMusicBridge {
    var initTried: bool
    var available: bool
    ghost var probeRuns: nat
    const director: MusicDirector

    ghost predicate Valid()
      reads this
    {
      probeRuns == (if initTried then 1 else 0) && (available ==> initTried)
    }

    function State(): BridgeState
      reads this, director
    {
      BridgeState(initTried, available, director.instances, director.current)
    }

    constructor (director: MusicDirector)
      ensures Valid() && this.director == director
      ensures !initTried && !available && probeRuns == 0
    {
      this.director := director;
      initTried := false;
      available := false;
      probeRuns := 0;
    }

    /** The lazy probe: its body runs at most once (`probeRuns` never exceeds 1). */
    method Init(failingSteps: set<Step>)
      requires Valid()
      modifies this
      ensures Valid() && probeRuns <= 1
      ensures State() == AfterInit(old(State()), failingSteps)
      ensures old(initTried) ==> unchanged(this)
    {
      if initTried {
        return;
      }
      initTried := true;
      probeRuns := probeRuns + 1;
      if failingSteps == {} {
        available := true;
      } else {
        // the first failing step throws; the catch disables the bridge
        available := false;
      }
    }

    method MuteTick(f: Faults)
      requires Valid()
      modifies this, director
      ensures Valid()
      ensures State() == MuteTickSpec(old(State()), f)
    {
      Init(f.failingSteps);
      if !available {
        return;
      }
      if f.instancesReadFails {
        available := false;
        return;
      }
      var read := director.instances;
      if read.None? {
        return;
      }
      if f.mapCallFails {
        available := false;
        return;
      }
      if |read.value| == 0 {
        return;
      }
      match f.iterationAbort
      case Some(done) =>
        MuteInstances(read.value, done * read.value.Keys, f);
        assert MutedPart(read.value, done * read.value.Keys, f) == MutedPart(read.value, done, f);
        available := false;
      case None =>
        MuteInstances(read.value, read.value.Keys, f);
        MutedPartAll(read.value, f);
    }

    /**
     * The loop of `muteTick` over the instances under `keys`: each gets its own
     * best-effort fade and reset.
     */
    method MuteInstances(m: InstanceMap, keys: set<TrackId>, f: Faults)
      requires director.instances == Some(m) && keys <= m.Keys
      modifies director
      ensures director.instances == Some(MutedPart(m, keys, f))
      ensures director.current == old(director.current)
    {
      var todo := keys;
      MutedPartNone(m, f);
      assert keys - todo == {};
      while todo != {}
        invariant todo <= keys
        invariant director.instances == Some(MutedPart(m, keys - todo, f))
        invariant director.current == old(director.current)
        decreases todo
      {
        var k :| k in todo;
        ghost var done := keys - todo;
        MutedPartStep(m, done, k, f);
        var slot := director.instances.value[k];
        if slot.Some? {
          var inst := slot.value;
          if k !in f.fadeFails {
            inst := inst.(fadeTarget := 0.0, fadeTicks := MuteFadeTicks);
          }
          if k !in f.resetFails {
            inst := inst.(inactiveTicks := 0);
          }
          director.instances := Some(director.instances.value[k := Some(inst)]);
        } else {
          assert MutedPart(m, done, f)[k := MuteSlot(m[k], k, f)] == MutedPart(m, done, f);
        }
        assert keys - (todo - {k}) == done + {k};
        todo := todo - {k};
      }
      assert keys - todo == keys;
    }

    method UnmuteNow(f: Faults)
      requires Valid()
      modifies this, director
      ensures Valid()
      ensures State() == UnmuteNowSpec(old(State()), f)
    {
      Init(f.failingSteps);
      if !available {
        return;
      }
      if f.currentReadFails {
        available := false;
        return;
      }
      var current := director.current;
      if current.None? {
        return;
      }
      if f.instancesReadFails {
        available := false;
        return;
      }
      var instances := director.instances;
      if instances.None? {
        return;
      }
      if f.mapCallFails {
        available := false;
        return;
      }
      var c := current.value;
      if c !in instances.value || instances.value[c].None? {
        return;
      }
      var inst := instances.value[c].value;
      if c !in f.activateFails {
        inst := inst.(active := true);
      }
      if c !in f.fadeFails {
        inst := inst.(fadeTarget := 1.0, fadeTicks := UnmuteFadeTicks);
      }
      if c !in f.resetFails {
        inst := inst.(inactiveTicks := 0);
      }
      director.instances := Some(instances.value[c := Some(inst)]);
    }
  }
}

/**
 * The game-data classes of Interstellar Armada that hold computable logic:
 * the timing of explosions, the defaults of particle emitters, the
 * schedules of blinking lights, the slots, views and inherited fields of
 * spacecraft classes, and the force of a weapon barrel.
 *
 * JSON input is given as records whose optional members are `Option`s; a
 * JavaScript number member that is absent or 0 (both falsy) is `None` or
 * `Some(0.0)`. A required property that is missing makes the source report
 * an error and store `undefined`, which is `None` here.
 */
module ArmadaClasses {
  import opened Common
  import opened EgomGeometry

  /** JavaScript truthiness of an optional number: absent and 0 are false. */
  predicate TruthyNum(x: Option<real>) {
    x.Some? && x.value != 0.0
  }

  /** The value of `x || fallback` for a number. */
  function NumOr(x: Option<real>, fallback: Option<real>): (r: Option<real>)
    ensures TruthyNum(x) ==> r == x
    ensures !TruthyNum(x) ==> r == fallback
  {
    if TruthyNum(x) then x else fallback
  }

  /** The value of `s || fallback` for a string. */
  function StrOr(s: Option<string>, fallback: Option<string>): (r: Option<string>)
    ensures Truthy(s) ==> r == s
    ensures !Truthy(s) ==> r == fallback
  {
    if Truthy(s) then s else fallback
  }

  /** JavaScript truthiness of an optional boolean. */
  predicate IsTrue(b: Option<bool>) {
    b == Some(true)
  }

  // ---------------------------------------------------------------------
  // Particle emitters and explosions

  /** A state a particle passes through, reached `timeToReach` milliseconds after the previous one. */
  datatype ParticleState = ParticleState(color: RGBA, size: real, timeToReach: real)

  datatype EmitterType = Omnidirectional | Unidirectional | Planar

  /** The enum lookup: a known type name, else omnidirectional. */
  function EmitterTypeOf(name: Option<string>): EmitterType {
    if name == Some("unidirectional") then Unidirectional
    else if name == Some("planar") then Planar
    else Omnidirectional
  }

  /** The members of an emitter's JSON that its descriptor reads. */
  datatype EmitterJson = EmitterJson(
    emitterType: Option<string>, dimensions: Option<Vec3>, directionSpread: Option<real>,
    velocity: Option<real>, velocitySpread: Option<real>, initialNumber: Option<real>,
    spawnNumber: Option<real>, spawnTime: Option<real>, duration: Option<real>,
    particleStates: Option<seq<ParticleState>>)

  /** A particle emitter descriptor; the members without data are `None` (null in the source). */
  datatype Emitter = Emitter(
    emitterType: Option<EmitterType>, dimensions: Option<Vec3>, directionSpread: real,
    velocity: real, velocitySpread: real, initialNumber: real, spawnNumber: real,
    spawnTime: real, duration: real, particleStates: Option<seq<ParticleState>>)

  /**
   * The descriptor `_loadData` builds, with or without JSON. Only a
   * unidirectional or planar emitter keeps a direction spread; the spawn
   * time of a loaded emitter is never 0; the duration is 1 only when it is
   * not given, so an explicit 0 (continuous emission) is kept.
   */
  function LoadEmitter(data: Option<EmitterJson>): (e: Emitter)
    ensures e.directionSpread != 0.0 ==> e.emitterType == Some(Unidirectional) || e.emitterType == Some(Planar)
    ensures data.Some? ==> e.spawnTime != 0.0 && e.emitterType.Some? && e.dimensions.Some? && e.particleStates.Some?
    ensures data.Some? && data.value.duration.Some? ==> e.duration == data.value.duration.value
    ensures data.Some? && data.value.duration.None? ==> e.duration == 1.0
    ensures data.None? ==> e.duration == 0.0 && e.spawnTime == 0.0 && e.emitterType.None? && e.particleStates.None?
  {
    match data
    case None => Emitter(None, None, 0.0, 0.0, 0.0, 0.0, 0.0, 0.0, 0.0, None)
    case Some(d) =>
      var t := EmitterTypeOf(d.emitterType);
      Emitter(
        Some(t),
        Some(d.dimensions.GetOr(Vec3(0.0, 0.0, 0.0))),
        if t == Unidirectional || t == Planar then NumOr(d.directionSpread, Some(0.0)).value else 0.0,
        NumOr(d.velocity, Some(0.0)).value,
        NumOr(d.velocitySpread, Some(0.0)).value,
        NumOr(d.initialNumber, Some(0.0)).value,
        NumOr(d.spawnNumber, Some(0.0)).value,
        NumOr(d.spawnTime, Some(1.0)).value,
        d.duration.GetOr(1.0),
        Some(d.particleStates.GetOr([])))
  }

  /** The times to reach of `states`, added up. */
  function TimeSum(states: seq<ParticleState>): real
    decreases |states|
  {
    if states == [] then 0.0 else TimeSum(states[..|states| - 1]) + states[|states| - 1].timeToReach
  }

  /** The time sum of a prefix grows by the time of the next state. */
  lemma TimeSumStep(s: seq<ParticleState>, n: nat)
    requires n < |s|
    ensures TimeSum(s[..n + 1]) == TimeSum(s[..n]) + s[n].timeToReach
  {
    assert s[..n + 1][..n] == s[..n];
  }

  /** How long one emitter shows particles: its emission, then its particles' whole life. */
  function EmitterTotal(e: Emitter): real
    requires e.particleStates.Some?
  {
    e.duration + TimeSum(e.particleStates.value)
  }

  /** Every emitter of a loaded explosion has its particle states. */
  predicate Loaded(emitters: seq<Emitter>) {
    forall i :: 0 <= i < |emitters| ==> emitters[i].particleStates.Some?
  }

  /**
   * getTotalDuration: the longest emitter total, and 0 when there is no
   * emitter or every total is negative.
   */
  method TotalDuration(emitters: seq<Emitter>) returns (result: real)
    requires Loaded(emitters)
    ensures result >= 0.0
    ensures forall i :: 0 <= i < |emitters| ==> EmitterTotal(emitters[i]) <= result
    ensures result == 0.0 || exists i :: 0 <= i < |emitters| && result == EmitterTotal(emitters[i])
  {
    result := 0.0;
    for i := 0 to |emitters|
      invariant result >= 0.0
      invariant forall k :: 0 <= k < i ==> EmitterTotal(emitters[k]) <= result
      invariant result == 0.0 || exists k :: 0 <= k < i && result == EmitterTotal(emitters[k])
    {
      var emitterDuration := emitters[i].duration;
      var states := emitters[i].particleStates.value;
      for j := 0 to |states|
        invariant emitterDuration == emitters[i].duration + TimeSum(states[..j])
      {
        assert states[..j + 1][..j] == states[..j];
        emitterDuration := emitterDuration + states[j].timeToReach;
      }
      assert states[..|states|] == states;
      if emitterDuration > result {
        result := emitterDuration;
      }
    }
  }

  /** isContinuous: some emitter emits forever, which a duration of exactly 0 means. */
  method IsContinuous(emitters: seq<Emitter>) returns (continuous: bool)
    ensures continuous <==> exists i :: 0 <= i < |emitters| && emitters[i].duration == 0.0
  {
    for i := 0 to |emitters|
      invariant forall k :: 0 <= k < i ==> emitters[k].duration != 0.0
    {
      if emitters[i].duration == 0.0 {
        return true;
      }
    }
    return false;
  }

  // ---------------------------------------------------------------------
  // Blinking lights

  /** The particle of a blinker: its colour, its full size and how long a blink fades. */
  datatype Particle = Particle(color: RGBA, size: real, duration: real)

  /** A blinker: `blinks` are the start times of the blinks within one cycle of `period` milliseconds. */
  datatype Blinker = Blinker(particle: Particle, period: real, blinks: seq<real>, intensity: real)

  /** A state of the blinker's point light. */
  datatype LightState = LightState(color: RGB, intensity: real, timeToReach: real)

  /** getLightColor: the particle colour without its alpha. */
  function LightColor(b: Blinker): (c: RGB)
    ensures c.r == b.particle.color.r && c.g == b.particle.color.g && c.b == b.particle.color.b
  {
    RGB(b.particle.color.r, b.particle.color.g, b.particle.color.b)
  }

  /** Two dark states that wait for the first blink, when it does not start at time 0. */
  function Lead(b: Blinker): nat {
    if |b.blinks| > 0 && b.blinks[0] > 0.0 then 2 else 0
  }

  /** The dark time after blink i fades: until the next blink, or until the cycle ends after the last. */
  function Gap(b: Blinker, i: nat): real
    requires i < |b.blinks|
  {
    (if i < |b.blinks| - 1 then b.blinks[i + 1] else b.period) - (b.blinks[i] + b.particle.duration)
  }

  /** The time to reach of state k of a blink's triple: flash at once, fade, stay dark. */
  function BlinkTime(b: Blinker, i: nat, k: nat): real
    requires i < |b.blinks| && k < 3
  {
    if k == 0 then 0.0 else if k == 1 then b.particle.duration else Gap(b, i)
  }

  /** The time to reach of state n of the schedule. */
  function ScheduleTime(b: Blinker, n: nat): real
    requires n < Lead(b) + 3 * |b.blinks|
  {
    if n < Lead(b) then (if n == 0 then 0.0 else b.blinks[0])
    else BlinkTime(b, (n - Lead(b)) / 3, (n - Lead(b)) % 3)
  }

  /** The particle schedule: the lead, then per blink full size at once, fading to 0, and dark until the next. */
  function ParticleSchedule(b: Blinker): (r: seq<ParticleState>)
    ensures |r| == Lead(b) + 3 * |b.blinks|
  {
    var c := b.particle.color;
    seq(Lead(b) + 3 * |b.blinks|, n requires 0 <= n < Lead(b) + 3 * |b.blinks| =>
      ParticleState(c, if n >= Lead(b) && (n - Lead(b)) % 3 == 0 then b.particle.size else 0.0, ScheduleTime(b, n)))
  }

  /** The light schedule: the same times, with the light's intensity exactly when a particle flashes. */
  function LightSchedule(b: Blinker): (r: seq<LightState>)
    ensures |r| == Lead(b) + 3 * |b.blinks|
  {
    seq(Lead(b) + 3 * |b.blinks|, n requires 0 <= n < Lead(b) + 3 * |b.blinks| =>
      LightState(LightColor(b), if n >= Lead(b) && (n - Lead(b)) % 3 == 0 then b.intensity else 0.0, ScheduleTime(b, n)))
  }

  /** getParticleStates: pushes the lead states, then three states per blink. */
  method ParticleStates(b: Blinker) returns (result: seq<ParticleState>)
    ensures result == ParticleSchedule(b)
  {
    result := [];
    var c := b.particle.color;
    if |b.blinks| > 0 {
      if b.blinks[0] > 0.0 {
        result := result + [ParticleState(c, 0.0, 0.0)];
        result := result + [ParticleState(c, 0.0, b.blinks[0])];
      }
      assert result == ParticleSchedule(b)[..Lead(b)];
      for i := 0 to |b.blinks|
        invariant result == ParticleSchedule(b)[..Lead(b) + 3 * i]
      {
        var time := b.blinks[i] + b.particle.duration;
        result := result + [ParticleState(c, b.particle.size, 0.0)];
        result := result + [ParticleState(c, 0.0, b.particle.duration)];
        result := result + [ParticleState(c, 0.0, (if i < |b.blinks| - 1 then b.blinks[i + 1] else b.period) - time)];
        ParticleTriple(b, i);
      }
    }
  }

  /** The schedule entries of blink i start at Lead + 3i. */
  lemma TripleAt(b: Blinker, i: nat, n0: nat)
    requires i < |b.blinks| && n0 == Lead(b) + 3 * i
    ensures ScheduleTime(b, n0) == 0.0 && ScheduleTime(b, n0 + 1) == b.particle.duration && ScheduleTime(b, n0 + 2) == Gap(b, i)
    ensures (n0 - Lead(b)) % 3 == 0 && (n0 + 1 - Lead(b)) % 3 == 1 && (n0 + 2 - Lead(b)) % 3 == 2
  {
    assert (n0 - Lead(b)) / 3 == i && (n0 + 1 - Lead(b)) / 3 == i && (n0 + 2 - Lead(b)) / 3 == i;
  }

  /** The particle schedule up to blink i, extended by blink i's triple. */
  lemma ParticleTriple(b: Blinker, i: nat)
    requires i < |b.blinks|
    ensures var n0 := Lead(b) + 3 * i; var c := b.particle.color;
      ParticleSchedule(b)[..n0 + 3] == ParticleSchedule(b)[..n0]
        + [ParticleState(c, b.particle.size, 0.0), ParticleState(c, 0.0, b.particle.duration), ParticleState(c, 0.0, Gap(b, i))]
  {
    TripleAt(b, i, Lead(b) + 3 * i);
  }

  /** The light schedule up to blink i, extended by blink i's triple. */
  lemma LightTriple(b: Blinker, i: nat)
    requires i < |b.blinks|
    ensures var n0 := Lead(b) + 3 * i; var c := LightColor(b);
      LightSchedule(b)[..n0 + 3] == LightSchedule(b)[..n0]
        + [LightState(c, b.intensity, 0.0), LightState(c, 0.0, b.particle.duration), LightState(c, 0.0, Gap(b, i))]
  {
    TripleAt(b, i, Lead(b) + 3 * i);
  }

  /** getLightStates: the same pushes as getParticleStates, for the light. */
  method LightStates(b: Blinker) returns (result: seq<LightState>)
    ensures result == LightSchedule(b)
  {
    result := [];
    if |b.blinks| > 0 {
      if b.blinks[0] > 0.0 {
        result := result + [LightState(LightColor(b), 0.0, 0.0)];
        result := result + [LightState(LightColor(b), 0.0, b.blinks[0])];
      }
      assert result == LightSchedule(b)[..Lead(b)];
      for i := 0 to |b.blinks|
        invariant result == LightSchedule(b)[..Lead(b) + 3 * i]
      {
        var time := b.blinks[i] + b.particle.duration;
        result := result + [LightState(LightColor(b), b.intensity, 0.0)];
        result := result + [LightState(LightColor(b), 0.0, b.particle.duration)];
        result := result + [LightState(LightColor(b), 0.0, (if i < |b.blinks| - 1 then b.blinks[i + 1] else b.period) - time)];
        LightTriple(b, i);
      }
    }
  }

  /**
   * The shape of the schedule: nothing without blinks; otherwise the two
   * lead states when the first blink starts later than 0, then per blink a
   * triple that reaches full size at once, fades over the particle's
   * duration and stays dark until the next blink or the end of the cycle.
   */
  lemma ScheduleShape(b: Blinker)
    ensures b.blinks == [] ==> ParticleSchedule(b) == []
    ensures |b.blinks| > 0 && b.blinks[0] > 0.0 ==>
      ParticleSchedule(b)[0] == ParticleState(b.particle.color, 0.0, 0.0) && ParticleSchedule(b)[1] == ParticleState(b.particle.color, 0.0, b.blinks[0])
    ensures forall i :: 0 <= i < |b.blinks| ==>
      && ParticleSchedule(b)[Lead(b) + 3 * i] == ParticleState(b.particle.color, b.particle.size, 0.0)
      && ParticleSchedule(b)[Lead(b) + 3 * i + 1] == ParticleState(b.particle.color, 0.0, b.particle.duration)
      && ParticleSchedule(b)[Lead(b) + 3 * i + 2] == ParticleState(b.particle.color, 0.0, Gap(b, i))
  {
    forall i | 0 <= i < |b.blinks|
      ensures ParticleSchedule(b)[Lead(b) + 3 * i] == ParticleState(b.particle.color, b.particle.size, 0.0)
      ensures ParticleSchedule(b)[Lead(b) + 3 * i + 1] == ParticleState(b.particle.color, 0.0, b.particle.duration)
      ensures ParticleSchedule(b)[Lead(b) + 3 * i + 2] == ParticleState(b.particle.color, 0.0, Gap(b, i))
    {
      TripleAt(b, i, Lead(b) + 3 * i);
    }
  }

  /**
   * The light follows the particle: the same number of states with the
   * same times, the particle's colour without alpha, and the blinker's
   * intensity exactly on the states where the particle flashes to full size
   * (when that size is not 0).
   */
  lemma LightFollowsParticle(b: Blinker)
    ensures |LightSchedule(b)| == |ParticleSchedule(b)|
    ensures forall n :: 0 <= n < |LightSchedule(b)| ==>
      && LightSchedule(b)[n].timeToReach == ParticleSchedule(b)[n].timeToReach
      && LightSchedule(b)[n].color == LightColor(b)
      && (b.particle.size != 0.0 ==>
            (LightSchedule(b)[n].intensity == (if ParticleSchedule(b)[n].size != 0.0 then b.intensity else 0.0)))
  {
  }

  /** The time sum of a prefix grows by the times of the next three states. */
  lemma TimeSumThree(s: seq<ParticleState>, n: nat)
    requires n + 3 <= |s|
    ensures TimeSum(s[..n + 3]) == TimeSum(s[..n]) + s[n].timeToReach + s[n + 1].timeToReach + s[n + 2].timeToReach
  {
    TimeSumStep(s, n);
    TimeSumStep(s, n + 1);
    TimeSumStep(s, n + 2);
  }

  /**
   * After l lead states and m blink triples, a sequence of states with the
   * schedule's triple times has reached blink m (or the end of the cycle).
   */
  lemma {:induction false} TriplesSum(b: Blinker, s: seq<ParticleState>, l: nat, m: nat)
    requires 0 < |b.blinks| && m <= |b.blinks| && l + 3 * |b.blinks| <= |s|
    requires forall i :: 0 <= i < |b.blinks| ==>
      s[l + 3 * i].timeToReach == 0.0 && s[l + 3 * i + 1].timeToReach == b.particle.duration && s[l + 3 * i + 2].timeToReach == Gap(b, i)
    ensures TimeSum(s[..l + 3 * m]) == TimeSum(s[..l]) + (if m < |b.blinks| then b.blinks[m] else b.period) - b.blinks[0]
    decreases m
  {
    if m > 0 {
      TriplesSum(b, s, l, m - 1);
      TimeSumThree(s, l + 3 * (m - 1));
    }
  }

  /**
   * One cycle of a schedule lasts the blinker's period: the times of its
   * states add up to `period` when the first blink does not start before
   * time 0, and a first blink at a negative time lengthens the cycle by as
   * much.
   */
  lemma CycleLength(b: Blinker)
    requires |b.blinks| > 0
    ensures TimeSum(ParticleSchedule(b)) == b.period - (if b.blinks[0] < 0.0 then b.blinks[0] else 0.0)
  {
    ScheduleShape(b);
    ScheduleSum(b, ParticleSchedule(b), Lead(b));
  }

  /** The time sum of any sequence of states laid out as a blinker schedule with l lead states. */
  lemma ScheduleSum(b: Blinker, s: seq<ParticleState>, l: nat)
    requires 0 < |b.blinks| && |s| == l + 3 * |b.blinks|
    requires l == (if b.blinks[0] > 0.0 then 2 else 0)
    requires l == 2 ==> s[0].timeToReach == 0.0 && s[1].timeToReach == b.blinks[0]
    requires forall i :: 0 <= i < |b.blinks| ==>
      s[l + 3 * i].timeToReach == 0.0 && s[l + 3 * i + 1].timeToReach == b.particle.duration && s[l + 3 * i + 2].timeToReach == Gap(b, i)
    ensures TimeSum(s) == b.period - (if b.blinks[0] < 0.0 then b.blinks[0] else 0.0)
  {
    TriplesSum(b, s, l, |b.blinks|);
    assert s[..|s|] == s;
    assert s[..0] == [];
    if l == 2 {
      TimeSumStep(s, 0);
      TimeSumStep(s, 1);
    }
  }

  // ---------------------------------------------------------------------
  // Slots

  /** A rotation of a weapon slot about one axis. */
  datatype Rotation = Rotation(axis: string, degrees: real)

  /** A slot a weapon is equipped in: where, turned how, and the largest weapon grade it takes; `None` is null. */
  datatype WeaponSlot = WeaponSlot(position: Option<Vec3>, rotations: Option<seq<Rotation>>, maxGrade: Option<real>)

  /** The members of a weapon slot's JSON. */
  datatype WeaponSlotJson = WeaponSlotJson(position: Option<Vec3>, rotations: Option<seq<Rotation>>, maxGrade: Option<real>)

  /**
   * The WeaponSlot constructor: the position and grade as given (a missing
   * or zero grade is undefined), no rotations when none are given; without
   * JSON no position, no orientation and grade 0.
   */
  function WeaponSlotOf(data: Option<WeaponSlotJson>): (s: WeaponSlot)
    ensures data.Some? ==> s.position == data.value.position && s.rotations == Some(data.value.rotations.GetOr([]))
    ensures data.Some? ==> s.maxGrade == NumOr(data.value.maxGrade, None) && (s.maxGrade.Some? ==> s.maxGrade.value != 0.0)
    ensures data.None? ==> s == WeaponSlot(None, None, Some(0.0))
  {
    match data
    case None => WeaponSlot(None, None, Some(0.0))
    case Some(d) => WeaponSlot(d.position, Some(d.rotations.GetOr([])), NumOr(d.maxGrade, None))
  }

  /** A slot of a thruster: its position with a trailing 1, its particle size, its uses and its group. */
  datatype ThrusterSlot = ThrusterSlot(position: Option<seq<real>>, size: real, uses: Option<seq<string>>, group: Option<int>)

  /** The members of a thruster slot's JSON. */
  datatype ThrusterSlotJson = ThrusterSlotJson(position: Option<Vec3>, size: Option<real>, uses: Option<seq<string>>, groupIndex: Option<int>)

  /**
   * The ThrusterSlot constructor: the position gains a trailing 1.0, the
   * size defaults to 1, and the uses and group are taken as given. Without
   * JSON the slot is empty with group 0.
   */
  function ThrusterSlotOf(data: Option<ThrusterSlotJson>): (s: ThrusterSlot)
    ensures data.Some? && data.value.position.Some? ==>
      var p := data.value.position.value; s.position == Some([p.x, p.y, p.z, 1.0])
    ensures data.Some? ==> s.size != 0.0 && s.uses == data.value.uses && s.group == data.value.groupIndex
    ensures data.None? ==> s == ThrusterSlot(None, 0.0, None, Some(0))
  {
    match data
    case None => ThrusterSlot(None, 0.0, None, Some(0))
    case Some(d) =>
      var position := if d.position.Some? then Some([d.position.value.x, d.position.value.y, d.position.value.z, 1.0]) else None;
      ThrusterSlot(position, NumOr(d.size, Some(1.0)).value, d.uses, d.groupIndex)
  }

  /** An entry of a spacecraft's weapon slot list: a single slot, or an array of `count` evenly spaced ones. */
  datatype WeaponEntry = WeaponEntry(
    isArray: bool, slot: WeaponSlotJson,
    startPosition: Option<Vec3>, translationVector: Option<Vec3>, rotations: Option<seq<Rotation>>,
    maxGrade: Option<real>, count: int)

  /** An array entry needs its start and step to place any slot. */
  predicate WeaponEntryPlaceable(e: WeaponEntry) {
    e.isArray && e.count > 0 ==> e.startPosition.Some? && e.translationVector.Some?
  }

  /** The number of slots an array with `count` makes: the loop runs while j < count. */
  function Times(count: int): nat {
    if count > 0 then count else 0
  }

  /** Slot j of an array: at start + j * step, with the array's rotations and grade. */
  function ArrayWeaponSlot(e: WeaponEntry, j: nat): WeaponSlot
    requires WeaponEntryPlaceable(e) && e.isArray && j < Times(e.count)
  {
    WeaponSlotOf(Some(WeaponSlotJson(Some(Add(e.startPosition.value, Scale(e.translationVector.value, j as real))), e.rotations, NumOr(e.maxGrade, None))))
  }

  /** The weapon slots one entry adds. */
  function WeaponEntrySlots(e: WeaponEntry): (r: seq<WeaponSlot>)
    requires WeaponEntryPlaceable(e)
    ensures e.isArray ==> |r| == Times(e.count)
    ensures !e.isArray ==> |r| == 1
  {
    if e.isArray then seq(Times(e.count), j requires 0 <= j < Times(e.count) => ArrayWeaponSlot(e, j))
    else [WeaponSlotOf(Some(e.slot))]
  }

  /** The weapon slots a list of entries adds, entry by entry. */
  function WeaponSlotsOf(es: seq<WeaponEntry>): seq<WeaponSlot>
    requires forall i :: 0 <= i < |es| ==> WeaponEntryPlaceable(es[i])
    decreases |es|
  {
    if es == [] then [] else WeaponSlotsOf(es[..|es| - 1]) + WeaponEntrySlots(es[|es| - 1])
  }

  /**
   * An array entry expands to exactly `count` slots, slot j at
   * startPosition + j * translationVector, in order.
   */
  lemma WeaponArrayExpansion(e: WeaponEntry)
    requires WeaponEntryPlaceable(e) && e.isArray
    ensures |WeaponEntrySlots(e)| == Times(e.count)
    ensures forall j :: 0 <= j < Times(e.count) ==>
      && WeaponEntrySlots(e)[j].position == Some(Add(e.startPosition.value, Scale(e.translationVector.value, j as real)))
      && WeaponEntrySlots(e)[j].rotations == Some(e.rotations.GetOr([]))
      && WeaponEntrySlots(e)[j].maxGrade == NumOr(e.maxGrade, None)
  {
  }

  /** An entry of a spacecraft's thruster slot list: an array of slots, explicit thrusters, or both, all in one group. */
  datatype ThrusterEntry = ThrusterEntry(
    group: Option<int>, uses: Option<seq<string>>,
    isArray: bool, startPosition: Option<Vec3>, translationVector: Option<Vec3>, size: Option<real>, count: int,
    thrusters: Option<seq<ThrusterSlotJson>>)

  predicate ThrusterEntryPlaceable(e: ThrusterEntry) {
    e.isArray && e.count > 0 ==> e.startPosition.Some? && e.translationVector.Some?
  }

  /** Thruster j of an array entry. */
  function ArrayThruster(e: ThrusterEntry, j: nat): ThrusterSlot
    requires ThrusterEntryPlaceable(e) && e.isArray && j < Times(e.count)
  {
    ThrusterSlotOf(Some(ThrusterSlotJson(Some(Add(e.startPosition.value, Scale(e.translationVector.value, j as real))), NumOr(e.size, None), e.uses, e.group)))
  }

  /** An explicit thruster of an entry, which takes the entry's group and uses. */
  function ExplicitThruster(e: ThrusterEntry, t: ThrusterSlotJson): ThrusterSlot {
    ThrusterSlotOf(Some(t.(groupIndex := e.group, uses := e.uses)))
  }

  /** The thruster slots one entry adds: its array first, then its explicit thrusters. */
  function ThrusterEntrySlots(e: ThrusterEntry): seq<ThrusterSlot>
    requires ThrusterEntryPlaceable(e)
  {
    (if e.isArray then seq(Times(e.count), j requires 0 <= j < Times(e.count) => ArrayThruster(e, j)) else [])
    + (if e.thrusters.Some? then seq(|e.thrusters.value|, k requires 0 <= k < |e.thrusters.value| => ExplicitThruster(e, e.thrusters.value[k])) else [])
  }

  function ThrusterSlotsOf(es: seq<ThrusterEntry>): seq<ThrusterSlot>
    requires forall i :: 0 <= i < |es| ==> ThrusterEntryPlaceable(es[i])
    decreases |es|
  {
    if es == [] then [] else ThrusterSlotsOf(es[..|es| - 1]) + ThrusterEntrySlots(es[|es| - 1])
  }

  /**
   * A thruster entry adds `count` array slots, slot j at start + j * step
   * with a trailing 1.0, then its explicit thrusters; every one of them
   * carries the entry's group and uses (an array slot's size defaults to 1).
   */
  lemma ThrusterEntryExpansion(e: ThrusterEntry)
    requires ThrusterEntryPlaceable(e)
    ensures var n := if e.isArray then Times(e.count) else 0;
      && |ThrusterEntrySlots(e)| == n + (if e.thrusters.Some? then |e.thrusters.value| else 0)
      && (forall j :: 0 <= j < n ==>
            var p := Add(e.startPosition.value, Scale(e.translationVector.value, j as real));
            ThrusterEntrySlots(e)[j].position == Some([p.x, p.y, p.z, 1.0]))
      && (forall k :: 0 <= k < |ThrusterEntrySlots(e)| ==>
            ThrusterEntrySlots(e)[k].group == e.group && ThrusterEntrySlots(e)[k].uses == e.uses && ThrusterEntrySlots(e)[k].size != 0.0)
  {
    var n := if e.isArray then Times(e.count) else 0;
    var s := ThrusterEntrySlots(e);
    forall k | 0 <= k < |s|
      ensures s[k].group == e.group && s[k].uses == e.uses && s[k].size != 0.0
    {
      if k >= n {
        var t := e.thrusters.value[k - n];
        assert s[k] == ExplicitThruster(e, t);
      }
    }
  }

  // ---------------------------------------------------------------------
  // Object views

  datatype LookAtMode = LookNone | LookSelf | LookTarget

  /** The enum lookup for lookAt: a known mode name, else none. */
  function LookAtOf(name: Option<string>): LookAtMode {
    if name == Some("self") then LookSelf else if name == Some("target") then LookTarget else LookNone
  }

  /** The members of a view's JSON that the view rules read; a boolean member that is not a boolean is `None`. */
  datatype ViewJson = ViewJson(
    followsPosition: Option<bool>, followsOrientation: Option<bool>, turnable: Option<bool>, lookAt: Option<string>,
    rotationCenterIsObject: Option<bool>, startsWithRelativePosition: Option<bool>, movesRelativeToObject: Option<bool>,
    resetsOnFocusChange: Option<bool>)

  /** A view of an object; a flag whose setting is invalid is `None` (the source reports an error and leaves it undefined). */
  datatype ObjectView = ObjectView(
    followsPosition: Option<bool>, followsOrientation: bool, turnable: Option<bool>, lookAt: LookAtMode,
    lookAtSelf: Option<bool>, lookAtTarget: Option<bool>, rotationCenterIsObject: Option<bool>,
    startsWithRelativePosition: Option<bool>, movesRelativeToObject: Option<bool>, resetsOnFocusChange: bool)

  /**
   * The ObjectView constructor's rules, in the order the source applies
   * them: the position and turning flags and the lookAt mode are kept as
   * given, the orientation is followed by default exactly when nothing is
   * looked at, a look or relative placement not asked for is off, and the
   * view resets on a focus change only when asked to.
   */
  function ObjectViewOf(data: ViewJson): (v: ObjectView)
    ensures v.followsPosition == data.followsPosition && v.turnable == data.turnable && v.lookAt == LookAtOf(data.lookAt)
    ensures data.followsOrientation.Some? ==> v.followsOrientation == data.followsOrientation.value
    ensures data.followsOrientation.None? ==> (v.followsOrientation <==> v.lookAt == LookNone)
    ensures v.lookAt != LookSelf ==> v.lookAtSelf == Some(false)
    ensures v.lookAt != LookTarget ==> v.lookAtTarget == Some(false)
    ensures data.startsWithRelativePosition != Some(true) ==> v.startsWithRelativePosition == Some(false)
    ensures data.movesRelativeToObject != Some(true) ==> v.movesRelativeToObject == Some(false)
    ensures v.resetsOnFocusChange <==> IsTrue(data.resetsOnFocusChange)
  {
    var fp := data.followsPosition;
    var turnable := data.turnable;
    var lookAt := LookAtOf(data.lookAt);
    var fo := if data.followsOrientation.Some? then data.followsOrientation.value else lookAt == LookNone;
    var lookAtSelf := if lookAt == LookSelf then (if IsTrue(fp) || fo || IsTrue(turnable) then None else Some(true)) else Some(false);
    var lookAtTarget := if lookAt == LookTarget then (if fo || IsTrue(turnable) then None else Some(true)) else Some(false);
    var conflict := IsTrue(lookAtSelf) || !IsTrue(fp);
    var center :=
      if data.rotationCenterIsObject.Some? then
        (if data.rotationCenterIsObject.value then (if conflict then None else Some(true)) else Some(false))
      else (if conflict then Some(false) else None);
    var relativeStart :=
      if data.startsWithRelativePosition == Some(true) then (if IsTrue(fp) || IsTrue(center) then None else Some(true)) else Some(false);
    var movesRelative :=
      if data.movesRelativeToObject == Some(true) then (if IsTrue(center) || !IsTrue(fp) || !fo then None else Some(true)) else Some(false);
    ObjectView(fp, fo, turnable, lookAt, lookAtSelf, lookAtTarget, center, relativeStart, movesRelative, data.resetsOnFocusChange.GetOr(false))
  }

  /**
   * The consistency a built view has: looking at itself excludes following
   * its position or orientation and turning; looking at the target excludes
   * following the orientation and turning; rotating around the object
   * needs the position followed and no self look; a relative start excludes
   * following the position and rotating around the object; moving relative
   * to the object needs both followed and no rotation around it. The
   * orientation is followed by default exactly when there is no lookAt mode.
   */
  lemma ViewConsistency(data: ViewJson)
    ensures var v := ObjectViewOf(data);
      && (IsTrue(v.lookAtSelf) ==> !IsTrue(v.followsPosition) && !v.followsOrientation && !IsTrue(v.turnable))
      && (IsTrue(v.lookAtTarget) ==> !v.followsOrientation && !IsTrue(v.turnable))
      && (IsTrue(v.rotationCenterIsObject) ==> IsTrue(v.followsPosition) && !IsTrue(v.lookAtSelf))
      && (IsTrue(v.startsWithRelativePosition) ==> !IsTrue(v.followsPosition) && !IsTrue(v.rotationCenterIsObject))
      && (IsTrue(v.movesRelativeToObject) ==> IsTrue(v.followsPosition) && v.followsOrientation && !IsTrue(v.rotationCenterIsObject))
      && (data.followsOrientation.None? ==> (v.followsOrientation <==> v.lookAt == LookNone))
  {
  }

  /**
   * When a view reports an invalid configuration, and the flag it leaves
   * undefined: self looking with position, orientation or turning followed;
   * target looking with orientation or turning followed; a rotation center
   * asked for with self looking or without the position followed, or left
   * unset when neither conflicts; a relative start with the position
   * followed or around the object; relative movement around the object or
   * without both position and orientation followed.
   */
  lemma ViewErrors(data: ViewJson)
    ensures var v := ObjectViewOf(data);
      && (v.lookAtSelf.None? <==> v.lookAt == LookSelf && (IsTrue(v.followsPosition) || v.followsOrientation || IsTrue(v.turnable)))
      && (v.lookAtTarget.None? <==> v.lookAt == LookTarget && (v.followsOrientation || IsTrue(v.turnable)))
      && (v.rotationCenterIsObject.None? <==>
            var conflict := IsTrue(v.lookAtSelf) || !IsTrue(v.followsPosition);
            (data.rotationCenterIsObject == Some(true) && conflict) || (data.rotationCenterIsObject.None? && !conflict))
      && (v.startsWithRelativePosition.None? <==>
            data.startsWithRelativePosition == Some(true) && (IsTrue(v.followsPosition) || IsTrue(v.rotationCenterIsObject)))
      && (v.movesRelativeToObject.None? <==>
            data.movesRelativeToObject == Some(true) && (IsTrue(v.rotationCenterIsObject) || !IsTrue(v.followsPosition) || !v.followsOrientation))
  {
  }

  // ---------------------------------------------------------------------
  // Spacecraft classes

  /** The members of a spacecraft class's JSON that `_overrideData` reads here. */
  datatype SpacecraftJson = SpacecraftJson(
    spacecraftType: Option<string>, fullName: Option<string>, description: Option<string>,
    showInDatabase: Option<bool>, hitpoints: Option<real>, mass: Option<real>, groupZeroLuminosity: Option<real>,
    weaponSlots: Option<seq<WeaponEntry>>, maxPropulsionGrade: Option<real>, thrusterSlots: Option<seq<ThrusterEntry>>,
    views: Option<seq<ViewJson>>, explosion: Option<string>, showTimeRatioDuringExplosion: Option<real>)

  /** The slot entries of a spacecraft's JSON can all be placed. */
  predicate SpacecraftPlaceable(data: SpacecraftJson) {
    && (data.weaponSlots.Some? ==> forall i :: 0 <= i < |data.weaponSlots.value| ==> WeaponEntryPlaceable(data.weaponSlots.value[i]))
    && (data.thrusterSlots.Some? ==> forall i :: 0 <= i < |data.thrusterSlots.value| ==> ThrusterEntryPlaceable(data.thrusterSlots.value[i]))
  }

  /** The views a list of view JSON makes, in order. */
  function ViewsOf(vs: seq<ViewJson>): (r: seq<ObjectView>)
    ensures |r| == |vs| && forall i :: 0 <= i < |vs| ==> r[i] == ObjectViewOf(vs[i])
  {
    seq(|vs|, i requires 0 <= i < |vs| => ObjectViewOf(vs[i]))
  }

  /**
   * The single-valued properties of a spacecraft class. The type and the
   * explosion are kept by name: their lookup is not part of this model.
   */
  datatype Scalars = Scalars(
    spacecraftType: Option<string>, fullName: Option<string>, description: Option<string>,
    showInDatabase: Option<bool>, hitpoints: Option<real>, mass: Option<real>, groupZeroLuminosity: real,
    maxPropulsionGrade: Option<real>, explosion: Option<string>, showTimeRatioDuringExplosion: Option<real>)

  /**
   * The scalar rules of `_overrideData`: with a base class, a truthy JSON
   * value wins and the base's value is kept otherwise (showInDatabase: any
   * boolean wins); without one, the truthy JSON value or undefined. The
   * group zero luminosity is never inherited.
   */
  function OverriddenScalars(base: Option<Scalars>, data: SpacecraftJson): (r: Scalars)
    ensures var from := base.GetOr(NO_SCALARS);
      && Overrides(r.spacecraftType, data.spacecraftType, Truthy(data.spacecraftType), from.spacecraftType)
      && Overrides(r.fullName, data.fullName, Truthy(data.fullName), from.fullName)
      && Overrides(r.description, data.description, Truthy(data.description), from.description)
      && Overrides(r.hitpoints, data.hitpoints, TruthyNum(data.hitpoints), from.hitpoints)
      && Overrides(r.mass, data.mass, TruthyNum(data.mass), from.mass)
      && Overrides(r.maxPropulsionGrade, data.maxPropulsionGrade, TruthyNum(data.maxPropulsionGrade), from.maxPropulsionGrade)
      && Overrides(r.explosion, data.explosion, Truthy(data.explosion), from.explosion)
      && Overrides(r.showTimeRatioDuringExplosion, data.showTimeRatioDuringExplosion,
                   TruthyNum(data.showTimeRatioDuringExplosion), from.showTimeRatioDuringExplosion)
    ensures base.Some? ==> Overrides(r.showInDatabase, data.showInDatabase, data.showInDatabase.Some?, base.value.showInDatabase)
    ensures base.None? ==> r.showInDatabase != Some(false) && (IsTrue(r.showInDatabase) <==> IsTrue(data.showInDatabase))
    ensures r.groupZeroLuminosity == data.groupZeroLuminosity.GetOr(0.0)
  {
    Scalars(
      StrOr(data.spacecraftType, if base.Some? then base.value.spacecraftType else None),
      StrOr(data.fullName, if base.Some? then base.value.fullName else None),
      StrOr(data.description, if base.Some? then base.value.description else None),
      if base.Some? then (if data.showInDatabase.Some? then data.showInDatabase else base.value.showInDatabase)
      else (if IsTrue(data.showInDatabase) then data.showInDatabase else None),
      NumOr(data.hitpoints, if base.Some? then base.value.hitpoints else None),
      NumOr(data.mass, if base.Some? then base.value.mass else None),
      NumOr(data.groupZeroLuminosity, Some(0.0)).value,
      NumOr(data.maxPropulsionGrade, if base.Some? then base.value.maxPropulsionGrade else None),
      StrOr(data.explosion, if base.Some? then base.value.explosion else None),
      NumOr(data.showTimeRatioDuringExplosion, if base.Some? then base.value.showTimeRatioDuringExplosion else None))
  }

  /**
   * A property after `_overrideData`: the JSON's value when the source's
   * test on it (`given`) passes, the inherited value otherwise.
   */
  predicate Overrides<T(==)>(r: Option<T>, value: Option<T>, given: bool, inherited: Option<T>) {
    (given ==> r == value) && (!given ==> r == inherited)
  }

  /** What a class without a base inherits: every property undefined. */
  const NO_SCALARS := Scalars(None, None, None, None, None, None, 0.0, None, None, None)

  /** JSON that gives no property at all. */
  const NO_DATA := SpacecraftJson(None, None, None, None, None, None, None, None, None, None, None, None, None)

  /** A class that gives no data of its own is its base, except that its group zero luminosity is 0. */
  lemma EmptyOverrideInherits(base: Scalars)
    ensures OverriddenScalars(Some(base), NO_DATA) == base.(groupZeroLuminosity := 0.0)
  {
  }

  /** A class whose JSON gives every property does not depend on its base. */
  lemma FullOverrideIgnoresBase(b1: Scalars, b2: Scalars, data: SpacecraftJson)
    requires Truthy(data.spacecraftType) && Truthy(data.fullName) && Truthy(data.description) && data.showInDatabase.Some?
    requires TruthyNum(data.hitpoints) && TruthyNum(data.mass) && TruthyNum(data.maxPropulsionGrade)
    requires Truthy(data.explosion) && TruthyNum(data.showTimeRatioDuringExplosion)
    ensures OverriddenScalars(Some(b1), data) == OverriddenScalars(Some(b2), data)
    ensures OverriddenScalars(None, data).(showInDatabase := data.showInDatabase) == OverriddenScalars(Some(b1), data)
  {
  }

  /** Deriving again with the same JSON from a derived class changes nothing. */
  lemma OverrideIdempotent(base: Scalars, data: SpacecraftJson)
    ensures OverriddenScalars(Some(OverriddenScalars(Some(base), data)), data) == OverriddenScalars(Some(base), data)
  {
  }

  /** A spacecraft class, with the properties `_overrideData` sets. */
  class SpacecraftClass {
    var spacecraftType: Option<string>
    var fullName: Option<string>
    var description: Option<string>
    var showInDatabase: Option<bool>
    var hitpoints: Option<real>
    var mass: Option<real>
    var groupZeroLuminosity: real
    var weaponSlots: seq<WeaponSlot>
    var maxPropulsionGrade: Option<real>
    var thrusterSlots: seq<ThrusterSlot>
    var views: seq<ObjectView>
    var explosion: Option<string>
    var showTimeRatioDuringExplosion: Option<real>

    /** A class before any data is loaded into it. */
    constructor ()
      ensures ScalarsOf() == Scalars(None, None, None, None, None, None, 0.0, None, None, None)
      ensures weaponSlots == [] && thrusterSlots == [] && views == []
    {
      spacecraftType, fullName, description, showInDatabase := None, None, None, None;
      hitpoints, mass, groupZeroLuminosity, maxPropulsionGrade := None, None, 0.0, None;
      weaponSlots, thrusterSlots, views := [], [], [];
      explosion, showTimeRatioDuringExplosion := None, None;
    }

    /** The single-valued properties, together. */
    function ScalarsOf(): Scalars
      reads this`spacecraftType, this`fullName, this`description, this`showInDatabase, this`hitpoints, this`mass
      reads this`groupZeroLuminosity, this`maxPropulsionGrade, this`explosion, this`showTimeRatioDuringExplosion
    {
      Scalars(spacecraftType, fullName, description, showInDatabase, hitpoints, mass, groupZeroLuminosity,
        maxPropulsionGrade, explosion, showTimeRatioDuringExplosion)
    }

    /**
     * `_overrideData`: the scalars follow OverriddenScalars. A list starts
     * from the base's list only when the JSON omits it, and from a fresh
     * list otherwise, and then gains the slots or views of every JSON entry
     * in order.
     */
    method OverrideData(base: SpacecraftClass?, data: SpacecraftJson)
      modifies this
      requires base != this && SpacecraftPlaceable(data)
      ensures ScalarsOf() == OverriddenScalars(if base == null then None else Some(old(base.ScalarsOf())), data)
      ensures weaponSlots == (if base != null && data.weaponSlots.None? then old(base.weaponSlots) else [])
        + (if data.weaponSlots.Some? then WeaponSlotsOf(data.weaponSlots.value) else [])
      ensures thrusterSlots == (if base != null && data.thrusterSlots.None? then old(base.thrusterSlots) else [])
        + (if data.thrusterSlots.Some? then ThrusterSlotsOf(data.thrusterSlots.value) else [])
      ensures views == (if base != null && data.views.None? then old(base.views) else [])
        + (if data.views.Some? then ViewsOf(data.views.value) else [])
    {
      var scalars := OverriddenScalars(if base == null then None else Some(base.ScalarsOf()), data);
      weaponSlots := if base != null && data.weaponSlots.None? then base.weaponSlots else [];
      thrusterSlots := if base != null && data.thrusterSlots.None? then base.thrusterSlots else [];
      views := if base != null && data.views.None? then base.views else [];
      SetScalars(scalars);
      if data.weaponSlots.Some? {
        AddWeaponSlots(data.weaponSlots.value);
      }
      if data.thrusterSlots.Some? {
        AddThrusterSlots(data.thrusterSlots.value);
      }
      if data.views.Some? {
        AddViews(data.views.value);
      }
    }

    /** Sets the single-valued properties. */
    method SetScalars(s: Scalars)
      modifies this`spacecraftType, this`fullName, this`description, this`showInDatabase, this`hitpoints, this`mass
      modifies this`groupZeroLuminosity, this`maxPropulsionGrade, this`explosion, this`showTimeRatioDuringExplosion
      ensures ScalarsOf() == s
    {
      spacecraftType, fullName, description, showInDatabase := s.spacecraftType, s.fullName, s.description, s.showInDatabase;
      hitpoints, mass, groupZeroLuminosity := s.hitpoints, s.mass, s.groupZeroLuminosity;
      maxPropulsionGrade, explosion, showTimeRatioDuringExplosion := s.maxPropulsionGrade, s.explosion, s.showTimeRatioDuringExplosion;
    }

    /** The weapon slot loop: pushes the slots of every entry in order. */
    method AddWeaponSlots(es: seq<WeaponEntry>)
      modifies this`weaponSlots
      requires forall i :: 0 <= i < |es| ==> WeaponEntryPlaceable(es[i])
      ensures weaponSlots == old(weaponSlots) + WeaponSlotsOf(es)
    {
      ghost var w0 := weaponSlots;
      for i := 0 to |es|
        invariant weaponSlots == w0 + WeaponSlotsOf(es[..i])
      {
        assert es[..i + 1][..i] == es[..i];
        AddWeaponEntry(es[i]);
        AppendAssoc(w0, WeaponSlotsOf(es[..i]), WeaponEntrySlots(es[i]));
      }
      assert es[..|es|] == es;
    }

    /** One weapon slot entry: `count` evenly spaced slots for an array, else the slot itself. */
    method AddWeaponEntry(e: WeaponEntry)
      modifies this`weaponSlots
      requires WeaponEntryPlaceable(e)
      ensures weaponSlots == old(weaponSlots) + WeaponEntrySlots(e)
    {
      if e.isArray {
        ghost var w0 := weaponSlots;
        var j := 0;
        while j < e.count
          invariant 0 <= j <= Times(e.count)
          invariant weaponSlots == w0 + WeaponEntrySlots(e)[..j]
        {
          weaponSlots := weaponSlots + [ArrayWeaponSlot(e, j)];
          assert WeaponEntrySlots(e)[..j + 1] == WeaponEntrySlots(e)[..j] + [ArrayWeaponSlot(e, j)];
          j := j + 1;
        }
        assert WeaponEntrySlots(e)[..Times(e.count)] == WeaponEntrySlots(e);
      } else {
        weaponSlots := weaponSlots + [WeaponSlotOf(Some(e.slot))];
      }
    }

    /** The thruster slot loop: pushes the slots of every entry in order. */
    method AddThrusterSlots(es: seq<ThrusterEntry>)
      modifies this`thrusterSlots
      requires forall i :: 0 <= i < |es| ==> ThrusterEntryPlaceable(es[i])
      ensures thrusterSlots == old(thrusterSlots) + ThrusterSlotsOf(es)
    {
      ghost var t0 := thrusterSlots;
      for i := 0 to |es|
        invariant thrusterSlots == t0 + ThrusterSlotsOf(es[..i])
      {
        assert es[..i + 1][..i] == es[..i];
        AddThrusterEntry(es[i]);
        AppendAssoc(t0, ThrusterSlotsOf(es[..i]), ThrusterEntrySlots(es[i]));
      }
      assert es[..|es|] == es;
    }

    /** One thruster slot entry: its array slots, then its explicit thrusters with the entry's group and uses. */
    method AddThrusterEntry(e: ThrusterEntry)
      modifies this`thrusterSlots
      requires ThrusterEntryPlaceable(e)
      ensures thrusterSlots == old(thrusterSlots) + ThrusterEntrySlots(e)
    {
      ghost var t0 := thrusterSlots;
      ghost var arr: seq<ThrusterSlot> := if e.isArray then seq(Times(e.count), j requires 0 <= j < Times(e.count) => ArrayThruster(e, j)) else [];
      if e.isArray {
        var j := 0;
        while j < e.count
          invariant 0 <= j <= Times(e.count)
          invariant thrusterSlots == t0 + arr[..j]
        {
          thrusterSlots := thrusterSlots + [ArrayThruster(e, j)];
          assert arr[..j + 1] == arr[..j] + [ArrayThruster(e, j)];
          j := j + 1;
        }
        assert arr[..Times(e.count)] == arr;
      }
      if e.thrusters.Some? {
        var ts := e.thrusters.value;
        ghost var t1 := thrusterSlots;
        for k := 0 to |ts|
          invariant thrusterSlots == t1 + seq(k, m requires 0 <= m < k => ExplicitThruster(e, ts[m]))
        {
          thrusterSlots := thrusterSlots + [ExplicitThruster(e, ts[k])];
        }
      }
    }

    /** The view loop: pushes an ObjectView per view JSON. */
    method AddViews(vs: seq<ViewJson>)
      modifies this`views
      ensures views == old(views) + ViewsOf(vs)
    {
      ghost var v0 := views;
      for i := 0 to |vs|
        invariant views == v0 + ViewsOf(vs[..i])
      {
        views := views + [ObjectViewOf(vs[i])];
      }
      assert vs[..|vs|] == vs;
    }
  }

  /** The weapon slots of entries, split at any point, are those of each part. */
  lemma {:induction false} WeaponSlotsConcat(a: seq<WeaponEntry>, b: seq<WeaponEntry>)
    requires forall i :: 0 <= i < |a| ==> WeaponEntryPlaceable(a[i])
    requires forall i :: 0 <= i < |b| ==> WeaponEntryPlaceable(b[i])
    ensures forall i :: 0 <= i < |a + b| ==> WeaponEntryPlaceable((a + b)[i])
    ensures WeaponSlotsOf(a + b) == WeaponSlotsOf(a) + WeaponSlotsOf(b)
    decreases |b|
  {
    assert forall i :: 0 <= i < |a + b| ==> WeaponEntryPlaceable((a + b)[i]) by {
      forall i | 0 <= i < |a + b| ensures WeaponEntryPlaceable((a + b)[i]) {
        if i < |a| { assert (a + b)[i] == a[i]; } else { assert (a + b)[i] == b[i - |a|]; }
      }
    }
    if b == [] {
      assert a + b == a;
    } else {
      var init := b[..|b| - 1];
      assert (a + b)[..|a + b| - 1] == a + init;
      WeaponSlotsConcat(a, init);
      AppendAssoc(WeaponSlotsOf(a), WeaponSlotsOf(init), WeaponEntrySlots(b[|b| - 1]));
    }
  }

  /** The number of weapon slots entries make: one per single slot, `count` per array. */
  function WeaponSlotCount(es: seq<WeaponEntry>): nat
    decreases |es|
  {
    if es == [] then 0
    else WeaponSlotCount(es[..|es| - 1]) + (if es[|es| - 1].isArray then Times(es[|es| - 1].count) else 1)
  }

  lemma {:induction false} WeaponSlotsCounted(es: seq<WeaponEntry>)
    requires forall i :: 0 <= i < |es| ==> WeaponEntryPlaceable(es[i])
    ensures |WeaponSlotsOf(es)| == WeaponSlotCount(es)
    decreases |es|
  {
    if es != [] {
      WeaponSlotsCounted(es[..|es| - 1]);
    }
  }

  // ---------------------------------------------------------------------
  // Barrels

  /** A weapon barrel: the velocity its projectile gains and that projectile's mass. */
  datatype Barrel = Barrel(projectileVelocity: real, projectileMass: real)

  /**
   * getForceForDuration: the force that gives the projectile its velocity
   * over `duration` milliseconds, so applied for that long it gives exactly
   * the projectile's momentum.
   */
  function ForceForDuration(b: Barrel, duration: real): (r: real)
    requires duration != 0.0
    ensures r * (duration / 1000.0) == b.projectileVelocity * b.projectileMass
  {
    var t := duration / 1000.0;
    var p := b.projectileVelocity * b.projectileMass;
    assert p / t * t == p;
    p / t
  }
}

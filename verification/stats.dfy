/**
 * The telemetry snapshot a node keeps (its `Stats` object) and the rule by
 * which a `stats` frame overwrites it.
 */
module Telemetry {
  import opened Py

  /** The thirteen figures of a snapshot. */
  datatype Field =
    | ActivePlayers | Players
    | UsedMemory | FreeMemory | ReservableMemory | AllocatedMemory
    | Cores | SystemLoad | LavalinkLoad
    | Uptime
    | FramesSent | FramesNulled | FramesDeficit

  /** A snapshot: the current value of each figure, copied verbatim from telemetry. */
  datatype Snapshot = Snapshot(
    activePlayers: Json,
    players: Json,
    usedMemory: Json,
    freeMemory: Json,
    reservableMemory: Json,
    allocatedMemory: Json,
    cores: Json,
    systemLoad: Json,
    lavalinkLoad: Json,
    uptime: Json,
    framesSent: Json,
    framesNulled: Json,
    framesDeficit: Json)

  /** The value of one figure. */
  function At(s: Snapshot, f: Field): Json {
    match f
    case ActivePlayers => s.activePlayers
    case Players => s.players
    case UsedMemory => s.usedMemory
    case FreeMemory => s.freeMemory
    case ReservableMemory => s.reservableMemory
    case AllocatedMemory => s.allocatedMemory
    case Cores => s.cores
    case SystemLoad => s.systemLoad
    case LavalinkLoad => s.lavalinkLoad
    case Uptime => s.uptime
    case FramesSent => s.framesSent
    case FramesNulled => s.framesNulled
    case FramesDeficit => s.framesDeficit
  }

  /** The snapshot with one figure replaced. */
  function Set(s: Snapshot, f: Field, v: Json): (r: Snapshot)
    ensures At(r, f) == v
  {
    match f
    case ActivePlayers => s.(activePlayers := v)
    case Players => s.(players := v)
    case UsedMemory => s.(usedMemory := v)
    case FreeMemory => s.(freeMemory := v)
    case ReservableMemory => s.(reservableMemory := v)
    case AllocatedMemory => s.(allocatedMemory := v)
    case Cores => s.(cores := v)
    case SystemLoad => s.(systemLoad := v)
    case LavalinkLoad => s.(lavalinkLoad := v)
    case Uptime => s.(uptime := v)
    case FramesSent => s.(framesSent := v)
    case FramesNulled => s.(framesNulled := v)
    case FramesDeficit => s.(framesDeficit := v)
  }

  /** The snapshot with the figures of `w` replaced by their values in `w`. */
  function Override(s: Snapshot, w: map<Field, Json>): Snapshot {
    Snapshot(
      if ActivePlayers in w then w[ActivePlayers] else s.activePlayers,
      if Players in w then w[Players] else s.players,
      if UsedMemory in w then w[UsedMemory] else s.usedMemory,
      if FreeMemory in w then w[FreeMemory] else s.freeMemory,
      if ReservableMemory in w then w[ReservableMemory] else s.reservableMemory,
      if AllocatedMemory in w then w[AllocatedMemory] else s.allocatedMemory,
      if Cores in w then w[Cores] else s.cores,
      if SystemLoad in w then w[SystemLoad] else s.systemLoad,
      if LavalinkLoad in w then w[LavalinkLoad] else s.lavalinkLoad,
      if Uptime in w then w[Uptime] else s.uptime,
      if FramesSent in w then w[FramesSent] else s.framesSent,
      if FramesNulled in w then w[FramesNulled] else s.framesNulled,
      if FramesDeficit in w then w[FramesDeficit] else s.framesDeficit)
  }

  lemma AtOverride(s: Snapshot, w: map<Field, Json>, f: Field)
    ensures At(Override(s, w), f) == if f in w then w[f] else At(s, f)
  {
  }

  lemma SetIsOverride(s: Snapshot, f: Field, v: Json)
    ensures Set(s, f, v) == Override(s, map[f := v])
  {
  }

  /** Overriding twice is overriding once with the later writes winning. */
  lemma OverrideTwice(s: Snapshot, a: map<Field, Json>, b: map<Field, Json>)
    ensures Override(Override(s, a), b) == Override(s, a + b)
  {
  }

  /** The snapshot of a fresh `Stats`: counters 0, frame figures -1. */
  const Initial: Snapshot := Snapshot(
    JInt(0), JInt(0),
    JInt(0), JInt(0), JInt(0), JInt(0),
    JInt(0), JInt(0), JInt(0),
    JInt(0),
    JInt(-1), JInt(-1), JInt(-1))

  /** A figure together with the key path it is read from, in reading order. */
  datatype Assignment = Assignment(field: Field, path: seq<string>)

  /** The unconditional part of the overwrite, in the order the fields are written. */
  const BasePlan: seq<Assignment> := [
    Assignment(ActivePlayers, ["playingPlayers"]),
    Assignment(Players, ["players"]),
    Assignment(UsedMemory, ["memory", "used"]),
    Assignment(FreeMemory, ["memory", "free"]),
    Assignment(ReservableMemory, ["memory", "reservable"]),
    Assignment(AllocatedMemory, ["memory", "allocated"]),
    Assignment(Cores, ["cpu", "cores"]),
    Assignment(SystemLoad, ["cpu", "systemLoad"]),
    Assignment(LavalinkLoad, ["cpu", "lavalinkLoad"]),
    Assignment(Uptime, ["uptime"])]

  /** The part applied to a truthy `frameStats` object. */
  const FramePlan: seq<Assignment> := [
    Assignment(FramesSent, ["sent"]),
    Assignment(FramesDeficit, ["deficit"]),
    Assignment(FramesNulled, ["nulled"])]

  /** `payload[k1][k2]...` */
  function Read(j: Json, path: seq<string>): Result<Json>
    decreases |path|
  {
    if path == [] then Ok(j)
    else
      var v :- Index(j, path[0]);
      Read(v, path[1..])
  }

  /** One successful assignment of an overwrite. */
  lemma ApplyStep(s: Snapshot, payload: Json, plan: seq<Assignment>, k: nat, v: Json)
    requires k < |plan| && Read(payload, plan[k].path) == Ok(v)
    ensures Apply(s, payload, plan, k) == Apply(Set(s, plan[k].field, v), payload, plan, k + 1)
  {
  }

  /** Outcome of an overwrite: the new snapshot and the exception that stopped it, if any. */
  datatype Merged = Merged(state: Snapshot, failure: Option<Error>)

  /**
   * Performs the assignments `plan[k..]` in order; a read that fails stops the
   * overwrite with that exception, leaving the figures already written in place.
   */
  function Apply(s: Snapshot, payload: Json, plan: seq<Assignment>, k: nat): Merged
    decreases |plan| - k
  {
    if k >= |plan| then Merged(s, None)
    else
      match Read(payload, plan[k].path)
      case Err(e) => Merged(s, Some(e))
      case Ok(v) => Apply(Set(s, plan[k].field, v), payload, plan, k + 1)
  }

  /** `Stats.update(payload)` as a function of the previous snapshot. */
  function Merge(s: Snapshot, payload: Json): (r: Merged)
    ensures !payload.JObj? ==> r.state == s && r.failure.Some? && r.failure.value.TypeError?
    ensures payload.JObj? && "playingPlayers" !in payload.fields ==>
      r == Merged(s, Some(KeyError(JStr("playingPlayers"))))
  {
    MergeBy(s, payload, BasePlan, FramePlan)
  }

  /** The update rule for given base and frame assignments. */
  function MergeBy(s: Snapshot, payload: Json, base: seq<Assignment>, frame: seq<Assignment>): Merged {
    var b := Apply(s, payload, base, 0);
    if b.failure.Some? then b
    else
      match Get(payload, "frameStats")
      case Err(e) => Merged(b.state, Some(e))
      case Ok(fs) => if Truthy(fs) then Apply(b.state, fs, frame, 0) else b
  }

  /** The figures the assignments `plan[k..]` write before they stop, later ones winning. */
  function Writes(payload: Json, plan: seq<Assignment>, k: nat): map<Field, Json>
    decreases |plan| - k
  {
    if k >= |plan| then map[]
    else
      match Read(payload, plan[k].path)
      case Err(_) => map[]
      case Ok(v) => map[plan[k].field := v] + Writes(payload, plan, k + 1)
  }

  /** The exception that stops the assignments `plan[k..]`, if any. */
  function Stop(payload: Json, plan: seq<Assignment>, k: nat): Option<Error>
    decreases |plan| - k
  {
    if k >= |plan| then None
    else
      match Read(payload, plan[k].path)
      case Err(e) => Some(e)
      case Ok(_) => Stop(payload, plan, k + 1)
  }

  /** An overwrite is the old snapshot overridden by writes that depend on the payload alone. */
  lemma {:induction false} ApplyIsOverride(s: Snapshot, payload: Json, plan: seq<Assignment>, k: nat)
    ensures Apply(s, payload, plan, k) == Merged(Override(s, Writes(payload, plan, k)), Stop(payload, plan, k))
    decreases |plan| - k
  {
    if k < |plan| {
      match Read(payload, plan[k].path)
      case Err(_) =>
        OverrideNothing(s);
      case Ok(v) =>
        var f := plan[k].field;
        ApplyIsOverride(Set(s, f, v), payload, plan, k + 1);
        SetIsOverride(s, f, v);
        OverrideTwice(s, map[f := v], Writes(payload, plan, k + 1));
    } else {
      OverrideNothing(s);
    }
  }

  lemma OverrideNothing(s: Snapshot)
    ensures Override(s, map[]) == s
  {
  }

  /** The writes of an update, which depend on the payload alone. */
  function MergeWrites(payload: Json, base: seq<Assignment>, frame: seq<Assignment>): map<Field, Json> {
    var wb := Writes(payload, base, 0);
    if Stop(payload, base, 0).Some? then wb
    else
      match Get(payload, "frameStats")
      case Err(_) => wb
      case Ok(fs) => if Truthy(fs) then wb + Writes(fs, frame, 0) else wb
  }

  /** The exception that stops an update, if any. */
  function MergeStop(payload: Json, base: seq<Assignment>, frame: seq<Assignment>): Option<Error> {
    if Stop(payload, base, 0).Some? then Stop(payload, base, 0)
    else
      match Get(payload, "frameStats")
      case Err(e) => Some(e)
      case Ok(fs) => if Truthy(fs) then Stop(fs, frame, 0) else None
  }

  /** An update overrides the old snapshot with writes taken from the payload alone. */
  lemma MergeIsOverride(s: Snapshot, payload: Json, base: seq<Assignment>, frame: seq<Assignment>)
    ensures MergeBy(s, payload, base, frame)
         == Merged(Override(s, MergeWrites(payload, base, frame)), MergeStop(payload, base, frame))
  {
    var wb := Writes(payload, base, 0);
    ApplyIsOverride(s, payload, base, 0);
    var g := Get(payload, "frameStats");
    if Stop(payload, base, 0).None? && g.Ok? && Truthy(g.value) {
      var wf := Writes(g.value, frame, 0);
      ApplyIsOverride(Override(s, wb), g.value, frame, 0);
      OverrideTwice(s, wb, wf);
      assert MergeWrites(payload, base, frame) == wb + wf;
    }
  }

  /** `Stats.update` is idempotent: the same payload twice gives the state of once. */
  lemma MergeIdempotent(s: Snapshot, payload: Json)
    ensures Merge(Merge(s, payload).state, payload) == Merge(s, payload)
  {
    var w := MergeWrites(payload, BasePlan, FramePlan);
    MergeIsOverride(s, payload, BasePlan, FramePlan);
    MergeIsOverride(Override(s, w), payload, BasePlan, FramePlan);
    OverrideTwice(s, w, w);
    assert w + w == w;
  }

  /** No assignment of `plan[k..]` writes figure `f`. */
  predicate Absent(f: Field, plan: seq<Assignment>, k: nat)
    decreases |plan| - k
  {
    k >= |plan| || (plan[k].field != f && Absent(f, plan, k + 1))
  }

  /** The assignments of `plan[k..]` write pairwise different figures. */
  predicate Distinct(plan: seq<Assignment>, k: nat)
    decreases |plan| - k
  {
    k >= |plan| || (Absent(plan[k].field, plan, k + 1) && Distinct(plan, k + 1))
  }

  /** No assignment of `plan[k..]` writes a frame figure. */
  predicate NoFrameFields(plan: seq<Assignment>, k: nat)
    decreases |plan| - k
  {
    k >= |plan| || (!FrameField(plan[k].field) && NoFrameFields(plan, k + 1))
  }

  predicate FrameField(f: Field) {
    f == FramesSent || f == FramesNulled || f == FramesDeficit
  }

  /** A figure no assignment names is never written. */
  lemma {:induction false} AbsentNotWritten(f: Field, payload: Json, plan: seq<Assignment>, k: nat)
    requires Absent(f, plan, k)
    ensures f !in Writes(payload, plan, k)
    decreases |plan| - k
  {
    if k < |plan| {
      AbsentNotWritten(f, payload, plan, k + 1);
    }
  }

  lemma {:induction false} NoFrameFieldsWritten(payload: Json, plan: seq<Assignment>, k: nat)
    requires NoFrameFields(plan, k)
    ensures forall f :: f in Writes(payload, plan, k) ==> !FrameField(f)
    decreases |plan| - k
  {
    if k < |plan| {
      NoFrameFieldsWritten(payload, plan, k + 1);
    }
  }

  /** Every assignment of `plan[k..]` writes a frame figure. */
  predicate OnlyFrameFields(plan: seq<Assignment>, k: nat)
    decreases |plan| - k
  {
    k >= |plan| || (FrameField(plan[k].field) && OnlyFrameFields(plan, k + 1))
  }

  lemma {:induction false} OnlyFrameFieldsWritten(payload: Json, plan: seq<Assignment>, k: nat)
    requires OnlyFrameFields(plan, k)
    ensures forall f :: f in Writes(payload, plan, k) ==> FrameField(f)
    decreases |plan| - k
  {
    if k < |plan| {
      OnlyFrameFieldsWritten(payload, plan, k + 1);
    }
  }

  lemma {:induction false} NoFrameFieldsAt(plan: seq<Assignment>, k: nat)
    requires NoFrameFields(plan, k)
    ensures forall j :: k <= j < |plan| ==> !FrameField(plan[j].field)
    decreases |plan| - k
  {
    if k < |plan| {
      NoFrameFieldsAt(plan, k + 1);
    }
  }

  /** The concrete plans: base figures distinct and non-frame, frame plan only frame figures. */
  lemma PlanFacts()
    ensures Distinct(BasePlan, 0) && NoFrameFields(BasePlan, 0)
    ensures Distinct(FramePlan, 0) && OnlyFrameFields(FramePlan, 0)
  {
    BasePlanDistinct();
    BasePlanNoFrames();
    FramePlanFacts();
  }

  lemma BasePlanDistinct()
    ensures Distinct(BasePlan, 0)
  {
    assert Ascending(BasePlan, 0);
    AscendingDistinct(BasePlan, 0);
  }

  lemma BasePlanNoFrames()
    ensures NoFrameFields(BasePlan, 0)
  {
  }

  lemma FramePlanFacts()
    ensures Distinct(FramePlan, 0) && OnlyFrameFields(FramePlan, 0)
  {
  }

  /** The position of a figure in the declaration of `Field`. */
  function Rank(f: Field): nat {
    match f
    case ActivePlayers => 0
    case Players => 1
    case UsedMemory => 2
    case FreeMemory => 3
    case ReservableMemory => 4
    case AllocatedMemory => 5
    case Cores => 6
    case SystemLoad => 7
    case LavalinkLoad => 8
    case Uptime => 9
    case FramesSent => 10
    case FramesNulled => 11
    case FramesDeficit => 12
  }

  /** The figures of `plan[k..]` come in declaration order, without repeats. */
  predicate Ascending(plan: seq<Assignment>, k: nat)
    decreases |plan| - k
  {
    k + 1 >= |plan| || (Rank(plan[k].field) < Rank(plan[k + 1].field) && Ascending(plan, k + 1))
  }

  lemma {:induction false} AscendingAbsent(f: Field, plan: seq<Assignment>, k: nat)
    requires Ascending(plan, k) && (k < |plan| ==> Rank(f) < Rank(plan[k].field))
    ensures Absent(f, plan, k)
    decreases |plan| - k
  {
    if k < |plan| {
      AscendingAbsent(f, plan, k + 1);
    }
  }

  lemma {:induction false} AscendingDistinct(plan: seq<Assignment>, k: nat)
    requires Ascending(plan, k)
    ensures Distinct(plan, k)
    decreases |plan| - k
  {
    if k < |plan| {
      AscendingAbsent(plan[k].field, plan, k + 1);
      AscendingDistinct(plan, k + 1);
    }
  }

  /**
   * When no read of `plan[k..]` fails and its figures are distinct, every
   * assignment's figure ends up holding the value at its path.
   */
  lemma {:induction false} WritesWhenAllReadsSucceed(payload: Json, plan: seq<Assignment>, k: nat)
    requires Distinct(plan, k)
    requires Stop(payload, plan, k).None?
    ensures forall j :: k <= j < |plan| ==>
      Read(payload, plan[j].path).Ok? && plan[j].field in Writes(payload, plan, k) &&
      Writes(payload, plan, k)[plan[j].field] == Read(payload, plan[j].path).value
    decreases |plan| - k
  {
    if k < |plan| {
      WritesWhenAllReadsSucceed(payload, plan, k + 1);
      AbsentNotWritten(plan[k].field, payload, plan, k + 1);
    }
  }

  /** Well-formed plans: base figures distinct and non-frame, frame figures distinct and frame only. */
  predicate WellFormed(base: seq<Assignment>, frame: seq<Assignment>) {
    Distinct(base, 0) && NoFrameFields(base, 0) && Distinct(frame, 0) && OnlyFrameFields(frame, 0)
  }

  lemma CopiesBy(s: Snapshot, payload: Json, base: seq<Assignment>, frame: seq<Assignment>)
    requires WellFormed(base, frame)
    requires MergeBy(s, payload, base, frame).failure.None?
    ensures forall j :: 0 <= j < |base| ==>
      Read(payload, base[j].path).Ok? &&
      At(MergeBy(s, payload, base, frame).state, base[j].field) == Read(payload, base[j].path).value
  {
    MergeIsOverride(s, payload, base, frame);
    WritesWhenAllReadsSucceed(payload, base, 0);
    match Get(payload, "frameStats")
    case Err(_) =>
    case Ok(fs) =>
      if Truthy(fs) {
        OnlyFrameFieldsWritten(fs, frame, 0);
        NoFrameFieldsAt(base, 0);
      }
  }

  /** After a successful update each base figure holds the payload value at its path. */
  lemma MergeCopiesPayload(s: Snapshot, payload: Json)
    requires Merge(s, payload).failure.None?
    ensures forall j :: 0 <= j < |BasePlan| ==>
      Read(payload, BasePlan[j].path).Ok? &&
      At(Merge(s, payload).state, BasePlan[j].field) == Read(payload, BasePlan[j].path).value
  {
    PlanFacts();
    CopiesBy(s, payload, BasePlan, FramePlan);
  }

  lemma KeepsFramesBy(s: Snapshot, payload: Json, base: seq<Assignment>, frame: seq<Assignment>)
    requires WellFormed(base, frame)
    requires payload.JObj? && ("frameStats" !in payload.fields || !Truthy(payload.fields["frameStats"]))
    ensures forall f :: FrameField(f) ==> At(MergeBy(s, payload, base, frame).state, f) == At(s, f)
  {
    MergeIsOverride(s, payload, base, frame);
    NoFrameFieldsWritten(payload, base, 0);
    var w := MergeWrites(payload, base, frame);
    assert w == Writes(payload, base, 0);
    forall f | FrameField(f)
      ensures At(MergeBy(s, payload, base, frame).state, f) == At(s, f)
    {
      AtOverride(s, w, f);
    }
  }

  /** Without a truthy `frameStats` the frame figures keep their previous values. */
  lemma MergeKeepsFramesWithoutFrameStats(s: Snapshot, payload: Json)
    requires payload.JObj? && ("frameStats" !in payload.fields || !Truthy(payload.fields["frameStats"]))
    ensures var r := Merge(s, payload).state;
      r.framesSent == s.framesSent && r.framesNulled == s.framesNulled && r.framesDeficit == s.framesDeficit
  {
    PlanFacts();
    KeepsFramesBy(s, payload, BasePlan, FramePlan);
  }

  lemma TakesFramesBy(s: Snapshot, payload: Json, base: seq<Assignment>, frame: seq<Assignment>)
    requires WellFormed(base, frame)
    requires MergeBy(s, payload, base, frame).failure.None?
    requires payload.JObj? && "frameStats" in payload.fields && Truthy(payload.fields["frameStats"])
    ensures var fs := payload.fields["frameStats"]; forall j :: 0 <= j < |frame| ==>
      Read(fs, frame[j].path).Ok? &&
      At(MergeBy(s, payload, base, frame).state, frame[j].field) == Read(fs, frame[j].path).value
  {
    var fs := payload.fields["frameStats"];
    MergeIsOverride(s, payload, base, frame);
    WritesWhenAllReadsSucceed(fs, frame, 0);
  }

  /** With a truthy `frameStats` the frame figures take `sent`, `deficit` and `nulled`. */
  lemma MergeTakesFrameStats(s: Snapshot, payload: Json)
    requires Merge(s, payload).failure.None?
    requires payload.JObj? && "frameStats" in payload.fields && Truthy(payload.fields["frameStats"])
    ensures var fs := payload.fields["frameStats"]; forall j :: 0 <= j < |FramePlan| ==>
      Read(fs, FramePlan[j].path).Ok? &&
      At(Merge(s, payload).state, FramePlan[j].field) == Read(fs, FramePlan[j].path).value
  {
    PlanFacts();
    TakesFramesBy(s, payload, BasePlan, FramePlan);
  }

  /** The telemetry snapshot object a node owns; `Update` overwrites it in place. */
  class Stats {
    var activePlayers: Json
    var players: Json
    var usedMemory: Json
    var freeMemory: Json
    var reservableMemory: Json
    var allocatedMemory: Json
    var cores: Json
    var systemLoad: Json
    var lavalinkLoad: Json
    var uptime: Json
    var framesSent: Json
    var framesNulled: Json
    var framesDeficit: Json

    /** The figures of this object as a snapshot. */
    function Snap(): Snapshot
      reads this
    {
      Snapshot(
        activePlayers, players,
        usedMemory, freeMemory, reservableMemory, allocatedMemory,
        cores, systemLoad, lavalinkLoad,
        uptime,
        framesSent, framesNulled, framesDeficit)
    }

    constructor ()
      ensures Snap() == Initial
    {
      activePlayers, players := JInt(0), JInt(0);
      usedMemory, freeMemory, reservableMemory, allocatedMemory := JInt(0), JInt(0), JInt(0), JInt(0);
      cores, systemLoad, lavalinkLoad := JInt(0), JInt(0), JInt(0);
      uptime := JInt(0);
      framesSent, framesNulled, framesDeficit := JInt(-1), JInt(-1), JInt(-1);
    }

    /** `self.<figure> = v` */
    method Assign(f: Field, v: Json)
      modifies this
      ensures Snap() == Set(old(Snap()), f, v)
    {
      match f
      case ActivePlayers => activePlayers := v;
      case Players => players := v;
      case UsedMemory => usedMemory := v;
      case FreeMemory => freeMemory := v;
      case ReservableMemory => reservableMemory := v;
      case AllocatedMemory => allocatedMemory := v;
      case Cores => cores := v;
      case SystemLoad => systemLoad := v;
      case LavalinkLoad => lavalinkLoad := v;
      case Uptime => uptime := v;
      case FramesSent => framesSent := v;
      case FramesNulled => framesNulled := v;
      case FramesDeficit => framesDeficit := v;
    }

    /** `Stats.update`: overwrite field by field; a failed read leaves earlier writes done. */
    method Update(payload: Json) returns (failure: Option<Error>)
      modifies this
      ensures Merged(Snap(), failure) == Merge(old(Snap()), payload)
    {
      ghost var goal := Apply(Snap(), payload, BasePlan, 0);
      var v: Result<Json>;
      v := Read(payload, ["playingPlayers"]);
      if v.Err? { return Some(v.error); }
      ApplyStep(Snap(), payload, BasePlan, 0, v.value);
      Assign(ActivePlayers, v.value);
      assert goal == Apply(Snap(), payload, BasePlan, 1);
      v := Read(payload, ["players"]);
      if v.Err? { return Some(v.error); }
      ApplyStep(Snap(), payload, BasePlan, 1, v.value);
      Assign(Players, v.value);
      assert goal == Apply(Snap(), payload, BasePlan, 2);
      failure := UpdateMemory(payload);
      if failure.Some? { return; }
      failure := UpdateCpu(payload);
      if failure.Some? { return; }
      v := Read(payload, ["uptime"]);
      if v.Err? { return Some(v.error); }
      ApplyStep(Snap(), payload, BasePlan, 9, v.value);
      Assign(Uptime, v.value);
      assert goal == Apply(Snap(), payload, BasePlan, 10);
      var fs := Get(payload, "frameStats").value;  // `payload` is an object by now
      if Truthy(fs) {
        failure := UpdateFrames(fs);
        return;
      }
      return None;
    }

    /** The `memory` block of `Stats.update`: used, free, reservable, allocated. */
    method UpdateMemory(payload: Json) returns (failure: Option<Error>)
      modifies this
      ensures failure.Some? ==> Apply(old(Snap()), payload, BasePlan, 2) == Merged(Snap(), failure)
      ensures failure.None? ==> Apply(old(Snap()), payload, BasePlan, 2) == Apply(Snap(), payload, BasePlan, 6)
    {
      ghost var goal := Apply(Snap(), payload, BasePlan, 2);
      var v: Result<Json>;
      v := Read(payload, ["memory", "used"]);
      if v.Err? { return Some(v.error); }
      ApplyStep(Snap(), payload, BasePlan, 2, v.value);
      Assign(UsedMemory, v.value);
      assert goal == Apply(Snap(), payload, BasePlan, 3);
      v := Read(payload, ["memory", "free"]);
      if v.Err? { return Some(v.error); }
      ApplyStep(Snap(), payload, BasePlan, 3, v.value);
      Assign(FreeMemory, v.value);
      assert goal == Apply(Snap(), payload, BasePlan, 4);
      v := Read(payload, ["memory", "reservable"]);
      if v.Err? { return Some(v.error); }
      ApplyStep(Snap(), payload, BasePlan, 4, v.value);
      Assign(ReservableMemory, v.value);
      assert goal == Apply(Snap(), payload, BasePlan, 5);
      v := Read(payload, ["memory", "allocated"]);
      if v.Err? { return Some(v.error); }
      ApplyStep(Snap(), payload, BasePlan, 5, v.value);
      Assign(AllocatedMemory, v.value);
      assert goal == Apply(Snap(), payload, BasePlan, 6);
      return None;
    }

    /** The `cpu` block of `Stats.update`: cores, system load, Lavalink load. */
    method UpdateCpu(payload: Json) returns (failure: Option<Error>)
      modifies this
      ensures failure.Some? ==> Apply(old(Snap()), payload, BasePlan, 6) == Merged(Snap(), failure)
      ensures failure.None? ==> Apply(old(Snap()), payload, BasePlan, 6) == Apply(Snap(), payload, BasePlan, 9)
    {
      ghost var goal := Apply(Snap(), payload, BasePlan, 6);
      var v: Result<Json>;
      v := Read(payload, ["cpu", "cores"]);
      if v.Err? { return Some(v.error); }
      ApplyStep(Snap(), payload, BasePlan, 6, v.value);
      Assign(Cores, v.value);
      assert goal == Apply(Snap(), payload, BasePlan, 7);
      v := Read(payload, ["cpu", "systemLoad"]);
      if v.Err? { return Some(v.error); }
      ApplyStep(Snap(), payload, BasePlan, 7, v.value);
      Assign(SystemLoad, v.value);
      assert goal == Apply(Snap(), payload, BasePlan, 8);
      v := Read(payload, ["cpu", "lavalinkLoad"]);
      if v.Err? { return Some(v.error); }
      ApplyStep(Snap(), payload, BasePlan, 8, v.value);
      Assign(LavalinkLoad, v.value);
      assert goal == Apply(Snap(), payload, BasePlan, 9);
      return None;
    }

    /** The `frameStats` block of `Stats.update`: the three frame figures, in source order. */
    method UpdateFrames(fs: Json) returns (failure: Option<Error>)
      modifies this
      ensures Merged(Snap(), failure) == Apply(old(Snap()), fs, FramePlan, 0)
    {
      ghost var goal := Apply(Snap(), fs, FramePlan, 0);
      var v: Result<Json>;
      v := Read(fs, ["sent"]);
      if v.Err? { return Some(v.error); }
      ApplyStep(Snap(), fs, FramePlan, 0, v.value);
      Assign(FramesSent, v.value);
      assert goal == Apply(Snap(), fs, FramePlan, 1);
      v := Read(fs, ["deficit"]);
      if v.Err? { return Some(v.error); }
      ApplyStep(Snap(), fs, FramePlan, 1, v.value);
      Assign(FramesDeficit, v.value);
      assert goal == Apply(Snap(), fs, FramePlan, 2);
      v := Read(fs, ["nulled"]);
      if v.Err? { return Some(v.error); }
      ApplyStep(Snap(), fs, FramePlan, 2, v.value);
      Assign(FramesNulled, v.value);
      assert goal == Apply(Snap(), fs, FramePlan, 3);
      return None;
    }
  }
}

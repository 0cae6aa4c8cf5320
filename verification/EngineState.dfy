/** The engine's status cache: what each frame does to it, and what `fresh_arm` means. */
module EngineState {
  import opened OrderedDict
  import opened Osc

  const UNKNOWN := "unknown"

  // The load diagnosis, as far as it is read; `hasLoadId`, `unreachable`: not empty.
  datatype Warning = Warning(hasLoadId: bool, project: string, unreachable: bool)

  // A /engine/status/<key> frame; `parsed` is what its value gives as a diagnosis.
  datatype Frame = Frame(key: string, value: Arg, parsed: Option<Warning>)

  datatype Cache = Cache(
    connected: bool,
    running: string,
    armed: string,
    load: string,
    nextcue: string,
    cueNames: map<string, string>,
    freshArm: bool,
    pendingLoadArm: bool,
    warning: Option<Warning>,
    warningSeen: bool
  )

  // What a dropped connection leaves.
  const DOWN := Cache(false, UNKNOWN, UNKNOWN, UNKNOWN, UNKNOWN, map[], false, false, None, false)

  predicate IsYes(value: Arg) {
    value.Text? && value.s == "yes"
  }

  // EngineClient._apply_status: the flags first, then the field.
  function ApplyFlags(c: Cache, f: Frame): Cache {
    if f.key == "load" then
      c.(cueNames := if Str(f.value) != c.load then map[] else c.cueNames,
         pendingLoadArm := Str(f.value) != "", freshArm := false, warning := None)
    else if f.key == "armed" then
      if Str(f.value) == "yes" && c.armed != "yes" && c.pendingLoadArm
      then c.(freshArm := true, pendingLoadArm := false) else c
    else if f.key == "running" && IsYes(f.value) then c.(freshArm := false, pendingLoadArm := false)
    else if f.key == "cluster_warning" then c.(warningSeen := true, warning := f.parsed)
    else c
  }

  function ApplyStatus(c: Cache, f: Frame): Cache {
    var c1 := ApplyFlags(c, f);
    if f.key == "running" then c1.(running := Str(f.value))
    else if f.key == "armed" then c1.(armed := Str(f.value))
    else if f.key == "load" then c1.(load := Str(f.value))
    else if f.key == "nextcue" then c1.(nextcue := Str(f.value))
    else if "cue_name/" <= f.key then c1.(cueNames := c1.cueNames[f.key[9..] := Str(f.value)])
    else c1
  }

  predicate IsKnown(c: Cache) {
    c.connected && c.running != UNKNOWN
  }

  predicate ProjectRunning(c: Cache) {
    c.running == "yes"
  }

  // The cache after the frames of one connection.
  function After(frames: seq<Frame>): Cache {
    if frames == [] then DOWN.(connected := true)
    else ApplyStatus(After(frames[..|frames| - 1]), frames[|frames| - 1])
  }

  // ------------------------------------------------------------ what the fields mean

  // The value of the last frame of a key, if any.
  function LastValue(frames: seq<Frame>, key: string): string {
    if frames == [] then UNKNOWN
    else if frames[|frames| - 1].key == key then Str(frames[|frames| - 1].value)
    else LastValue(frames[..|frames| - 1], key)
  }

  /** The cached fields are the last values of this connection. */
  lemma {:induction false} FieldsAreLast(frames: seq<Frame>)
    ensures var c := After(frames);
            && c.connected && c.running == LastValue(frames, "running") && c.armed == LastValue(frames, "armed")
            && c.load == LastValue(frames, "load") && c.nextcue == LastValue(frames, "nextcue")
  {
    if frames != [] { FieldsAreLast(frames[..|frames| - 1]); }
  }

  // The last `load` frame is at i and names a project, and no run followed it.
  ghost predicate LoadedAt(frames: seq<Frame>, i: int) {
    && 0 <= i < |frames|
    && frames[i].key == "load" && Str(frames[i].value) != ""
    && forall k :: i < k < |frames| ==> !IsLoadOrRun(frames[k])
  }

  predicate IsLoadOrRun(f: Frame) {
    f.key == "load" || (f.key == "running" && f.value.Text? && f.value.s == "yes")
  }

  // The frame at j reports `armed` yes while the cached value was not yes.
  ghost predicate ArmsAt(frames: seq<Frame>, j: int) {
    && 0 <= j < |frames|
    && frames[j].key == "armed" && Str(frames[j].value) == "yes"
    && LastValue(frames[..j], "armed") != "yes"
  }

  ghost predicate FreshSince(frames: seq<Frame>, i: int, j: int) {
    LoadedAt(frames, i) && i < j && ArmsAt(frames, j)
  }

  ghost predicate WaitsSince(frames: seq<Frame>, i: int) {
    LoadedAt(frames, i) && forall j :: i < j < |frames| ==> !ArmsAt(frames, j)
  }

  lemma LoadedAtNext(frames: seq<Frame>, f: Frame)
    ensures !IsLoadOrRun(f) ==> forall i :: LoadedAt(frames + [f], i) <==> LoadedAt(frames, i)
    ensures IsLoadOrRun(f) ==> forall i :: LoadedAt(frames + [f], i) <==>
                                             i == |frames| && f.key == "load" && Str(f.value) != ""
  {
    var next := frames + [f];
    forall i ensures !IsLoadOrRun(f) ==> (LoadedAt(next, i) <==> LoadedAt(frames, i))
      ensures IsLoadOrRun(f) ==> (LoadedAt(next, i) <==> i == |frames| && f.key == "load" && Str(f.value) != "")
    {
      assert next[|frames|] == f;
      if LoadedAt(next, i) && i < |frames| {
        assert !IsLoadOrRun(next[|frames|]);
        forall k | i < k < |frames| ensures !IsLoadOrRun(frames[k]) { assert next[k] == frames[k]; }
      }
    }
  }

  lemma ArmsAtNext(frames: seq<Frame>, f: Frame)
    ensures forall j :: j < |frames| ==> (ArmsAt(frames + [f], j) <==> ArmsAt(frames, j))
    ensures ArmsAt(frames + [f], |frames|) <==>
              f.key == "armed" && Str(f.value) == "yes" && LastValue(frames, "armed") != "yes"
  {
    assert (frames + [f])[..|frames|] == frames;
    forall j | 0 <= j < |frames| ensures ArmsAt(frames + [f], j) <==> ArmsAt(frames, j) {
      assert (frames + [f])[..j] == frames[..j];
    }
  }

  /** `fresh_arm` is true exactly when, on this connection, the last `load` frame named a
      project, no run came after it, and a later `armed` yes arrived while the cached value was
      not yes; until then, after such a load, the arm is awaited. */
  lemma {:induction false} FreshArmMeans(frames: seq<Frame>)
    ensures After(frames).freshArm <==> exists i, j :: FreshSince(frames, i, j)
    ensures After(frames).pendingLoadArm <==> exists i :: WaitsSince(frames, i)
  {
    if frames != [] {
      var prev, f := frames[..|frames| - 1], frames[|frames| - 1];
      assert frames == prev + [f];
      FreshArmMeans(prev);
      FieldsAreLast(prev);
      LoadedAtNext(prev, f);
      ArmsAtNext(prev, f);
      if IsLoadOrRun(f) { ReloadedOrRun(prev, f); } else { Carried(prev, f); }
    }
  }

  lemma ReloadedOrRun(prev: seq<Frame>, f: Frame)
    requires IsLoadOrRun(f)
    ensures !exists i, j :: FreshSince(prev + [f], i, j)
    ensures (exists i :: WaitsSince(prev + [f], i)) <==> f.key == "load" && Str(f.value) != ""
  {
    LoadedAtNext(prev, f);
    if f.key == "load" && Str(f.value) != "" { assert WaitsSince(prev + [f], |prev|); }
  }

  lemma Carried(prev: seq<Frame>, f: Frame)
    requires !IsLoadOrRun(f)
    ensures (exists i, j :: FreshSince(prev + [f], i, j)) <==>
              (exists i, j :: FreshSince(prev, i, j))
              || (ArmsAt(prev + [f], |prev|) && exists i :: WaitsSince(prev, i))
    ensures (exists i :: WaitsSince(prev + [f], i)) <==>
              (exists i :: WaitsSince(prev, i)) && !ArmsAt(prev + [f], |prev|)
  {
    var next := prev + [f];
    LoadedAtNext(prev, f);
    ArmsAtNext(prev, f);
    forall i, j | FreshSince(prev, i, j) ensures FreshSince(next, i, j) {}
    forall i | WaitsSince(prev, i) && ArmsAt(next, |prev|) ensures FreshSince(next, i, |prev|) {}
    forall i | WaitsSince(prev, i) && !ArmsAt(next, |prev|) ensures WaitsSince(next, i) {}
    forall i | WaitsSince(next, i) ensures WaitsSince(prev, i) && !ArmsAt(next, |prev|) {
      forall j | i < j < |prev| ensures !ArmsAt(prev, j) { assert !ArmsAt(next, j); }
    }
    forall i, j | FreshSince(next, i, j) && !(exists i', j' :: FreshSince(prev, i', j'))
      ensures WaitsSince(prev, i) && ArmsAt(next, |prev|)
    {
      forall k | i < k < |prev| ensures !ArmsAt(prev, k) { assert !FreshSince(prev, i, k); }
      assert !FreshSince(prev, i, j);
    }
  }

  // ------------------------------------------------------------ names and diagnosis

  // The cue's last name since `load` last changed.
  function NameOf(frames: seq<Frame>, cue: string): Option<string> {
    if frames == [] then None
    else
      var f, before := frames[|frames| - 1], frames[..|frames| - 1];
      if f.key == "load" && Str(f.value) != LastValue(before, "load") then None
      else if f.key == "cue_name/" + cue then Some(Str(f.value))
      else NameOf(before, cue)
  }

  // The last diagnosis since the last `load`.
  function Diagnosis(frames: seq<Frame>): Option<Warning> {
    if frames == [] then None
    else
      var f := frames[|frames| - 1];
      if f.key == "load" then None
      else if f.key == "cluster_warning" then f.parsed
      else Diagnosis(frames[..|frames| - 1])
  }

  /** The name table has each cue's last name since the load changed, and no other; the
      diagnosis is the last since the last load, and is seen once any came. */
  lemma {:induction false} NamesAndDiagnosis(frames: seq<Frame>, cue: string)
    ensures var c := After(frames);
            && (if cue in c.cueNames then NameOf(frames, cue) == Some(c.cueNames[cue]) else NameOf(frames, cue) == None)
            && c.warning == Diagnosis(frames)
            && (c.warningSeen <==> exists i :: 0 <= i < |frames| && frames[i].key == "cluster_warning")
  {
    if frames != [] {
      var prev, f := frames[..|frames| - 1], frames[|frames| - 1];
      NamesAndDiagnosis(prev, cue);
      FieldsAreLast(prev);
      assert frames == prev + [f];
      assert ("cue_name/" + cue)[9..] == cue && "cue_name/" <= "cue_name/" + cue;
      if "cue_name/" <= f.key { assert f.key == "cue_name/" + f.key[9..]; }
      if f.key == "cluster_warning" { assert frames[|prev|].key == "cluster_warning"; }
      NotACueName(f.key);
    }
  }

  lemma NotACueName(key: string)
    ensures "cue_name/" <= key ==> key != "load" && key != "armed" && key != "running" && key != "nextcue"
                                   && key != "cluster_warning"
  {
    assert "cue_name/"[1] == 'u';
  }

  // ------------------------------------------------------------ the client

  class EngineClient {
    var connected: bool
    var running: string
    var armed: string
    var load: string
    var nextcue: string
    var cueNames: map<string, string>
    var freshArm: bool
    var pendingLoadArm: bool
    var warning: Option<Warning>
    var warningSeen: bool

    ghost function Now(): Cache
      reads this
    {
      Cache(connected, running, armed, load, nextcue, cueNames, freshArm, pendingLoadArm, warning, warningSeen)
    }

    constructor ()
      ensures Now() == DOWN
    {
      connected, running, armed, load, nextcue := false, UNKNOWN, UNKNOWN, UNKNOWN, UNKNOWN;
      cueNames, freshArm, pendingLoadArm, warning, warningSeen := map[], false, false, None, false;
    }

    // One frame of the read loop, up to the listeners.
    method Apply(f: Frame)
      modifies this
      ensures Now() == ApplyStatus(old(Now()), f)
    {
      if f.key == "load" {
        if Str(f.value) != load { cueNames := map[]; }
        pendingLoadArm := Str(f.value) != "";
        freshArm := false;
        warning := None;
      } else if f.key == "armed" {
        if Str(f.value) == "yes" && armed != "yes" && pendingLoadArm {
          freshArm := true;
          pendingLoadArm := false;
        }
      } else if f.key == "running" && IsYes(f.value) {
        freshArm := false;
        pendingLoadArm := false;
      } else if f.key == "cluster_warning" {
        warningSeen := true;
        warning := f.parsed;
      }
      if f.key == "running" {
        running := Str(f.value);
      } else if f.key == "armed" {
        armed := Str(f.value);
      } else if f.key == "load" {
        load := Str(f.value);
      } else if f.key == "nextcue" {
        nextcue := Str(f.value);
      } else if "cue_name/" <= f.key {
        cueNames := cueNames[f.key[9..] := Str(f.value)];
      }
    }

    method Connected()
      requires Now() == DOWN
      modifies `connected
      ensures Now() == After([])
    {
      connected := true;
    }

    method Dropped()
      modifies this
      ensures Now() == DOWN
    {
      connected, running, armed, load, nextcue := false, UNKNOWN, UNKNOWN, UNKNOWN, UNKNOWN;
      cueNames, freshArm, pendingLoadArm, warning, warningSeen := map[], false, false, None, false;
    }
  }
}

/**
 * The application object's part in the protocol: the stage machine that
 * the packet handlers drive through SetStageType, and the keyboard
 * modifier flags. The stages themselves (menus, lobby, game screen) are
 * UI and appear only as the calls the switch makes on them.
 */
module Application {
  import opened Wrappers
  import opened Bytes
  import opened Enums

  /** The SDL modifier masks StoreKeyMod tests, in the order of the flag array. */
  const KmodShift: bv16 := 0x0003
  const KmodCtrl: bv16 := 0x00C0
  const KmodAlt: bv16 := 0x0300
  const KmodCaps: bv16 := 0x2000
  const KmodNum: bv16 := 0x1000

  /** Number of stored modifier flags (SHIFT, CTRL, ALT, CAPS, NUM). */
  const MaxKeyMod := 5

  function KeyModMask(i: nat): bv16
    requires i < MaxKeyMod
  {
    [KmodShift, KmodCtrl, KmodAlt, KmodCaps, KmodNum][i]
  }

  /** The five flags a modifier word sets: flag i holds when the word meets mask i. */
  function KeyModFlags(mod: bv16): (r: seq<bool>)
    ensures |r| == MaxKeyMod
  {
    seq(MaxKeyMod, i requires 0 <= i < MaxKeyMod => mod & KeyModMask(i) != 0)
  }

  /** The masks are pairwise disjoint, so a word holding only one modifier's bits sets that flag alone. */
  lemma SingleModifier(i: nat, j: nat)
    requires i < MaxKeyMod && j < MaxKeyMod
    ensures KeyModFlags(KeyModMask(i))[j] <==> i == j
  {
    assert KmodShift & KmodCtrl == 0 && KmodShift & KmodAlt == 0 && KmodShift & KmodCaps == 0 && KmodShift & KmodNum == 0;
    assert KmodCtrl & KmodAlt == 0 && KmodCtrl & KmodCaps == 0 && KmodCtrl & KmodNum == 0;
    assert KmodAlt & KmodCaps == 0 && KmodAlt & KmodNum == 0 && KmodCaps & KmodNum == 0;
  }

  /** The stage types SetStage_internal can build a stage for. */
  predicate KnownStage(t: StageType)
  {
    t == StageMenu || t == StageLobby || t == StageConnecting || t == StageGame
  }

  /** What the switch does to the stage objects, in order. */
  datatype StageCall = OnLeave(left: StageType) | DestroyUI | OnEnter(entered: StageType)

  /** The outcome of one SetStage_internal call. */
  datatype Switch = Idle | Switched | Aborted

  /** The stage machine: the live stage (if any, by its type), the current and the pending type. */
  datatype Stages = Stages(stage: Option<StageType>, stageType: StageType, pending: StageType)

  /** SetStageType: a request for the current type is ignored, any other becomes pending. */
  function Request(st: Stages, t: StageType): (r: Stages)
    ensures r.stage == st.stage && r.stageType == st.stageType
    ensures r.pending == (if t == st.stageType then st.pending else t)
  {
    if st.stageType != t then st.(pending := t) else st
  }

  /**
   * SetStage_internal: nothing pending leaves everything as it is; an
   * unknown pending type aborts the program; otherwise the old stage is
   * left and the UI destroyed, the new stage entered, and the pending
   * type becomes the current one.
   */
  function SwitchStage(st: Stages): (Switch, Stages, seq<StageCall>)
  {
    if st.pending == StageNone then (Idle, st, [])
    else if !KnownStage(st.pending) then (Aborted, st, [])
    else
      var leave := if st.stage.Some? then [OnLeave(st.stage.value), DestroyUI] else [];
      (Switched, Stages(Some(st.pending), st.pending, StageNone), leave + [OnEnter(st.pending)])
  }

  /** A known stage requested while another is current is the current one after the next switch, and nothing stays pending. */
  lemma RequestThenSwitch(st: Stages, t: StageType)
    requires KnownStage(t) && t != st.stageType
    ensures SwitchStage(Request(st, t)).0 == Switched
    ensures SwitchStage(Request(st, t)).1 == Stages(Some(t), t, StageNone)
    ensures SwitchStage(Request(st, t)).2[|SwitchStage(Request(st, t)).2| - 1] == OnEnter(t)
  {
  }

  /** After a switch nothing is pending, so the following frame's switch does nothing. */
  lemma SwitchSettles(st: Stages)
    requires SwitchStage(st).0 == Switched
    ensures SwitchStage(SwitchStage(st).1) == (Idle, SwitchStage(st).1, [])
  {
  }

  /** The old stage is left before the new one is entered, and only a live stage is left. */
  lemma LeaveBeforeEnter(st: Stages)
    requires SwitchStage(st).0 == Switched
    ensures st.stage.Some? ==> SwitchStage(st).2 == [OnLeave(st.stage.value), DestroyUI, OnEnter(st.pending)]
    ensures st.stage.None? ==> SwitchStage(st).2 == [OnEnter(st.pending)]
  {
  }

  class Application {
    /** The live stage object, by its type; None when there is none. */
    var stage: Option<StageType>
    var stageType: StageType
    var pendingStageType: StageType
    /** The modifier flags, indexed SHIFT, CTRL, ALT, CAPS, NUM. */
    var keyMod: array<bool>
    /** Every call the stage switches made, in order. */
    var calls: seq<StageCall>

    function State(): Stages
      reads this
    {
      Stages(stage, stageType, pendingStageType)
    }

    /** No stage, both stage types NONE and every modifier flag cleared. */
    constructor ()
      ensures State() == Stages(None, StageNone, StageNone) && calls == []
      ensures fresh(keyMod) && keyMod.Length == MaxKeyMod
      ensures forall i :: 0 <= i < MaxKeyMod ==> !keyMod[i]
    {
      stage := None;
      stageType := StageNone;
      pendingStageType := StageNone;
      calls := [];
      keyMod := new bool[MaxKeyMod](_ => false);
    }

    /** StoreKeyMod: every flag is recomputed from the modifier word. */
    method StoreKeyMod(mod: bv16)
      requires keyMod.Length == MaxKeyMod
      modifies keyMod
      ensures keyMod[..] == KeyModFlags(mod)
    {
      keyMod[0] := mod & KmodShift != 0;
      keyMod[1] := mod & KmodCtrl != 0;
      keyMod[2] := mod & KmodAlt != 0;
      keyMod[3] := mod & KmodCaps != 0;
      keyMod[4] := mod & KmodNum != 0;
    }

    method SetStageType(t: StageType)
      modifies this`pendingStageType
      ensures State() == Request(old(State()), t)
    {
      if stageType != t {
        pendingStageType := t;
      }
    }

    /** SetStage_internal, run once per frame by the main loop. */
    method SetStageInternal() returns (r: Switch)
      modifies this`stage, this`stageType, this`pendingStageType, this`calls
      ensures (r, State()) == (SwitchStage(old(State())).0, SwitchStage(old(State())).1)
      ensures calls == old(calls) + SwitchStage(old(State())).2
    {
      if pendingStageType == StageNone {
        return Idle;
      }
      if !KnownStage(pendingStageType) {
        return Aborted;
      }
      if stage.Some? {
        calls := calls + [OnLeave(stage.value), DestroyUI];
      }
      calls := calls + [OnEnter(pendingStageType)];
      stage := Some(pendingStageType);
      stageType := pendingStageType;
      pendingStageType := StageNone;
      r := Switched;
    }
  }
}

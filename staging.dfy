/** The exhibit staging state and its reducer
    (client/src/components/exhibit/StagingState.ts), with the modifier
    records it stores (client/src/palamander/palamander-modifier.ts).

    A failure the reducer would throw (a property read of `undefined`) is an
    `Err("TypeError")`. Copies made by spreads are values here. */
module Staging {
  import opened Wrappers
  import opened Velocity
  import opened Movement

  /** How the modifier short-circuits the creature. */
  datatype Override = Override(freeze: bool, move: MovementOverride)

  /** The configurable look and behaviour of a staged creature. */
  datatype PalModifier = PalModifier(
    override: Override,
    factor: MovementFactor,
    motion: real,
    updateInterval: real,
    magnification: real,
    color: string,
    opacity: real)

  /** `createNoopOverride`: not frozen, no movement override at all. */
  function NoopOverride(): (o: Override)
    ensures !o.freeze && o.move.angle.None?
    ensures o.move.linear == NoOverride() && o.move.rotational == NoOverride()
  {
    Override(false, MovementOverride(NoOverride(), NoOverride(), None))
  }

  /** `createNoopMovementFactor`: every factor 1. */
  function NoopFactor(): (f: MovementFactor)
    ensures f.linear == 1.0 && f.rotational == 1.0 && f.interval == 1.0
  {
    MovementFactor(1.0, 1.0, 1.0)
  }

  /** The defaults `initMod` starts from. */
  function DefaultMod(): PalModifier {
    PalModifier(NoopOverride(), NoopFactor(), 1.0, 50.0, 100.0, "#000000", 1.0)
  }

  /** `initMod`: the defaults, each overridden by the given modifier. The
      modifier type has every field, so a given one overrides them all. */
  function InitMod(mod: Option<PalModifier>): (r: PalModifier)
    ensures mod.Some? ==> r == mod.value
    ensures mod.None? ==> (r.override == NoopOverride() && r.factor == NoopFactor()
      && r.updateInterval == 50.0 && r.motion == 1.0 && r.magnification == 100.0
      && r.color == "#000000" && r.opacity == 1.0)
  {
    if mod.Some? then mod.value else DefaultMod()
  }

  /** A creature, reduced to what the staging state reads: its type name,
      its size and its own modifier. */
  datatype Pal = Pal(kind: string, size: real, mod: PalModifier)

  /** One staging slot. `Hole` is the `undefined` an overwrite can leave
      past the end of the old slots; reading a field of it throws. */
  datatype Slot = Slot(pal: Option<Pal>, mod: PalModifier) | Hole

  datatype StagingState = StagingState(staged: seq<Slot>, active: int, selected: int)

  /** What persistent storage keeps per slot. */
  datatype Exhibit = Exhibit(kind: string, mod: PalModifier)

  datatype Action =
    | Overwrite(pals: seq<Pal>, exhibited: seq<Exhibit>)
    | Toggle(index: int)
    | Activate(index: int)
    | Set(pals: seq<Pal>, key: string)
    | Modify(index: int, mod: PalModifier)
    | Unknown

  /** `initStagingState`: three empty slots with the default modifier,
      nothing active and nothing selected. */
  function InitStagingState(): (s: StagingState)
    ensures |s.staged| == 3 && s.active == -1 && s.selected == -1
    ensures forall i :: 0 <= i < 3 ==> s.staged[i] == Slot(None, InitMod(None))
  {
    StagingState([Slot(None, DefaultMod()), Slot(None, DefaultMod()), Slot(None, DefaultMod())], -1, -1)
  }

  // ---------------------------------------------------------------- lookup

  /** `findIndex` from position `i`. */
  function FindFrom(pals: seq<Pal>, kind: string, i: nat): (r: int)
    requires i <= |pals|
    ensures r == -1 || i <= r < |pals|
    ensures r >= 0 ==> pals[r].kind == kind && forall j :: i <= j < r ==> pals[j].kind != kind
    ensures r == -1 ==> forall j :: i <= j < |pals| ==> pals[j].kind != kind
    decreases |pals| - i
  {
    if i == |pals| then -1
    else if pals[i].kind == kind then i
    else FindFrom(pals, kind, i + 1)
  }

  /** `pals.findIndex(pal => pal.type == kind)`: the first match, or -1. */
  function FindIndex(pals: seq<Pal>, kind: string): (r: int)
    ensures -1 <= r < |pals|
    ensures r >= 0 ==> pals[r].kind == kind && forall j :: 0 <= j < r ==> pals[j].kind != kind
    ensures r == -1 <==> forall j :: 0 <= j < |pals| ==> pals[j].kind != kind
  {
    FindFrom(pals, kind, 0)
  }

  // --------------------------------------------------------------- cloning

  predicate NoHoles(staged: seq<Slot>) {
    forall i :: 0 <= i < |staged| ==> staged[i].Slot?
  }

  /** `cloneStaged`: destructuring a `Hole` throws; otherwise the copy is
      equal to the original. */
  function CloneStaged(staged: seq<Slot>): (r: Result<seq<Slot>>)
    ensures r.Ok? <==> NoHoles(staged)
    ensures r.Ok? ==> r.value == staged
    ensures r.Err? ==> r.error == "TypeError"
  {
    if NoHoles(staged) then Ok(staged) else Err("TypeError")
  }

  function CloneStagingState(s: StagingState): (r: Result<StagingState>)
    ensures r.Ok? <==> NoHoles(s.staged)
    ensures r.Ok? ==> r.value == s
  {
    var staged := CloneStaged(s.staged);
    if staged.Err? then Err(staged.error) else Ok(s.(staged := staged.value))
  }

  // ------------------------------------------------------ storage interface

  /** `stagedFromExhibited`: one slot per exhibited entry. An entry whose
      type names a creature takes a copy of the first such creature with
      the entry's modifier; any other keeps the old slot at that position,
      which is `undefined` past the old end. */
  function StagedFromExhibited(pals: seq<Pal>, staged: seq<Slot>, exhibited: seq<Exhibit>): (r: seq<Slot>)
    ensures |r| == |exhibited|
    ensures forall i :: 0 <= i < |r| ==>
      var k := FindIndex(pals, exhibited[i].kind);
      r[i] == if k == -1 then (if i < |staged| then staged[i] else Hole)
              else Slot(Some(pals[k]), exhibited[i].mod)
  {
    seq(|exhibited|, i requires 0 <= i < |exhibited| =>
      var k := FindIndex(pals, exhibited[i].kind);
      if k == -1 then (if i < |staged| then staged[i] else Hole)
      else Slot(Some(pals[k]), exhibited[i].mod))
  }

  /** The stored type of a slot: its creature's, or '' for an empty one. */
  function KindOf(slot: Slot): string
    requires slot.Slot?
  {
    if slot.pal.Some? then slot.pal.value.kind else ""
  }

  /** `exhibitedFromStaged`: one entry per slot, in order, with the slot's
      type ('' when empty) and modifier; a `Hole` throws. */
  function ExhibitedFromStaged(staged: seq<Slot>): (r: Result<seq<Exhibit>>)
    ensures r.Ok? <==> NoHoles(staged)
    ensures r.Ok? ==> (|r.value| == |staged|
      && forall i :: 0 <= i < |staged| ==> r.value[i] == Exhibit(KindOf(staged[i]), staged[i].mod))
  {
    if !NoHoles(staged) then Err("TypeError")
    else Ok(seq(|staged|, i requires 0 <= i < |staged| => Exhibit(KindOf(staged[i]), staged[i].mod)))
  }

  /** Storing the slots and loading them back restores them, as long as
      each creature is the first of its type in `pals` and no creature has
      the empty type. */
  lemma ExhibitThenOverwrite(pals: seq<Pal>, staged: seq<Slot>)
    requires NoHoles(staged)
    requires forall i :: 0 <= i < |staged| && staged[i].pal.Some? ==>
      FindIndex(pals, staged[i].pal.value.kind) >= 0 && pals[FindIndex(pals, staged[i].pal.value.kind)] == staged[i].pal.value
    requires forall j :: 0 <= j < |pals| ==> pals[j].kind != ""
    ensures var ex := ExhibitedFromStaged(staged);
      ex.Ok? && StagedFromExhibited(pals, staged, ex.value) == staged
  {
    var ex := ExhibitedFromStaged(staged).value;
    var r := StagedFromExhibited(pals, staged, ex);
    assert |r| == |staged|;
    forall i | 0 <= i < |staged| ensures r[i] == staged[i] {
      assert ex[i] == Exhibit(KindOf(staged[i]), staged[i].mod);
      var k := FindIndex(pals, KindOf(staged[i]));
      if staged[i].pal.Some? {
        assert pals[k] == staged[i].pal.value;
      } else {
        assert k == -1;
      }
    }
  }

  /** Loading entries whose types all name creatures and storing the
      result gives the entries back. */
  lemma OverwriteThenExhibit(pals: seq<Pal>, staged: seq<Slot>, exhibited: seq<Exhibit>)
    requires forall i :: 0 <= i < |exhibited| ==> FindIndex(pals, exhibited[i].kind) >= 0
    ensures ExhibitedFromStaged(StagedFromExhibited(pals, staged, exhibited)) == Ok(exhibited)
  {
    var r := StagedFromExhibited(pals, staged, exhibited);
    assert NoHoles(r);
    var ex := ExhibitedFromStaged(r).value;
    assert |ex| == |exhibited|;
    forall i | 0 <= i < |exhibited| ensures ex[i] == exhibited[i] {
      var k := FindIndex(pals, exhibited[i].kind);
      assert r[i] == Slot(Some(pals[k]), exhibited[i].mod);
      assert pals[k].kind == exhibited[i].kind;
    }
    assert ex == exhibited;
  }

  // -------------------------------------------------------------- reducers

  /** `overwrite`: the slots come from storage; active and selected stay. */
  function OverwriteStaging(s: StagingState, pals: seq<Pal>, exhibited: seq<Exhibit>): (r: StagingState)
    ensures r.staged == StagedFromExhibited(pals, s.staged, exhibited)
    ensures r.active == s.active && r.selected == s.selected
  {
    s.(staged := StagedFromExhibited(pals, s.staged, exhibited))
  }

  /** `toggleSelect`: the current selection deselects, anything else is
      selected; the active slot follows the selection. */
  function ToggleSelect(s: StagingState, index: int): (r: Result<StagingState>)
    ensures r.Ok? <==> NoHoles(s.staged)
    ensures r.Ok? ==> (r.value.staged == s.staged
      && r.value.selected == (if s.selected == index then -1 else index)
      && r.value.active == r.value.selected)
  {
    var selected := if s.selected == index then -1 else index;
    var c := CloneStagingState(s);
    if c.Err? then c else Ok(c.value.(selected := selected, active := selected))
  }

  /** Toggling a slot that is not selected and then toggling it again
      leaves nothing selected and nothing active. */
  lemma ToggleTwiceDeselects(s: StagingState, index: int)
    requires NoHoles(s.staged) && s.selected != index
    ensures var once := ToggleSelect(s, index);
      once.Ok? && once.value.selected == index
      && var twice := ToggleSelect(once.value, index);
      twice == Ok(s.(selected := -1, active := -1))
  {
  }

  /** `activate`: ignored while a slot is selected; otherwise the index
      becomes active and the selection stays. */
  function ActivateSlot(s: StagingState, index: int): (r: Result<StagingState>)
    ensures r.Ok? <==> NoHoles(s.staged)
    ensures r.Ok? && s.selected > -1 ==> r.value == s
    ensures r.Ok? && s.selected <= -1 ==> r.value == s.(active := index)
  {
    var c := CloneStagingState(s);
    if c.Err? || s.selected > -1 then c else Ok(c.value.(active := index))
  }

  /** `set`: with the selected slot's creature of another type, the slot
      gets a copy of the first creature of the chosen type and that
      creature's modifier. Reading the selected slot throws when nothing is
      selected, and reading the creature's modifier throws when the type is
      unknown. The selection is cleared either way. */
  function SetSlot(s: StagingState, pals: seq<Pal>, kind: string): (r: Result<StagingState>)
    ensures r.Ok? ==> (r.value.selected == -1 && r.value.active == s.active
      && 0 <= s.selected < |s.staged| && |r.value.staged| == |s.staged|)
    ensures !(0 <= s.selected < |s.staged|) || !NoHoles(s.staged) ==> r == Err("TypeError")
    ensures NoHoles(s.staged) && 0 <= s.selected < |s.staged| ==>
      var prev := s.staged[s.selected].pal;
      var k := FindIndex(pals, kind);
      if prev.Some? && prev.value.kind == kind then r == Ok(StagingState(s.staged, s.active, -1))
      else if k < 0 then r == Err("TypeError")
      else r == Ok(StagingState(s.staged[s.selected := Slot(Some(pals[k]), InitMod(Some(pals[k].mod)))], s.active, -1))
  {
    var palIndex := FindIndex(pals, kind);
    var staged := CloneStaged(s.staged);
    if staged.Err? then Err(staged.error)
    else if !(0 <= s.selected < |s.staged|) then Err("TypeError")
    else
      var prev := s.staged[s.selected].pal;
      if prev.Some? && prev.value.kind == kind then Ok(StagingState(staged.value, s.active, -1))
      else if palIndex < 0 then Err("TypeError")
      else
        var pal := pals[palIndex];
        Ok(StagingState(staged.value[s.selected := Slot(Some(pal), InitMod(Some(pal.mod)))], s.active, -1))
  }

  /** Setting the type a slot already has changes only the selection, and
      a set that succeeds leaves every other slot as it was. */
  lemma SetFrame(s: StagingState, pals: seq<Pal>, kind: string)
    requires SetSlot(s, pals, kind).Ok?
    ensures var r := SetSlot(s, pals, kind).value;
      forall i :: 0 <= i < |s.staged| && i != s.selected ==> r.staged[i] == s.staged[i]
    ensures var r := SetSlot(s, pals, kind).value;
      r.staged[s.selected].Slot? && r.staged[s.selected].pal.Some? && r.staged[s.selected].pal.value.kind == kind
  {
  }

  /** `modify`: only the modifier of the slot at `index` changes; an index
      past the slots throws. */
  function ModifySlot(s: StagingState, index: int, mod: PalModifier): (r: Result<StagingState>)
    ensures r.Ok? <==> NoHoles(s.staged) && 0 <= index < |s.staged|
    ensures r.Ok? ==> (r.value.active == s.active && r.value.selected == s.selected
      && |r.value.staged| == |s.staged|
      && r.value.staged[index] == Slot(s.staged[index].pal, mod)
      && forall i :: 0 <= i < |s.staged| && i != index ==> r.value.staged[i] == s.staged[i])
  {
    var staged := CloneStaged(s.staged);
    if staged.Err? then Err(staged.error)
    else if !(0 <= index < |s.staged|) then Err("TypeError")
    else Ok(s.(staged := staged.value[index := Slot(staged.value[index].pal, mod)]))
  }

  /** Modifying a slot twice keeps only the second modifier. */
  lemma ModifyLastWins(s: StagingState, index: int, m1: PalModifier, m2: PalModifier)
    requires NoHoles(s.staged) && 0 <= index < |s.staged|
    ensures var once := ModifySlot(s, index, m1);
      once.Ok? && ModifySlot(once.value, index, m2) == ModifySlot(s, index, m2)
  {
    var once := ModifySlot(s, index, m1).value;
    assert NoHoles(once.staged);
    assert once.staged[index := Slot(once.staged[index].pal, m2)] == s.staged[index := Slot(s.staged[index].pal, m2)];
  }

  /** `reduceStaging`: each action goes to its reducer; an unknown one
      returns a copy. */
  function ReduceStaging(s: StagingState, action: Action): (r: Result<StagingState>)
    ensures action.Overwrite? ==> r == Ok(OverwriteStaging(s, action.pals, action.exhibited))
    ensures action.Toggle? ==> r == ToggleSelect(s, action.index)
    ensures action.Activate? ==> r == ActivateSlot(s, action.index)
    ensures action.Set? ==> r == SetSlot(s, action.pals, action.key)
    ensures action.Modify? ==> r == ModifySlot(s, action.index, action.mod)
    ensures action.Unknown? ==> r == CloneStagingState(s)
  {
    match action
    case Overwrite(pals, exhibited) => Ok(OverwriteStaging(s, pals, exhibited))
    case Toggle(index) => ToggleSelect(s, index)
    case Activate(index) => ActivateSlot(s, index)
    case Set(pals, key) => SetSlot(s, pals, key)
    case Modify(index, mod) => ModifySlot(s, index, mod)
    case Unknown => CloneStagingState(s)
  }

  /** Every action but an overwrite keeps the number of slots, and from a
      state without holes only an overwrite can make one. */
  lemma ReduceKeepsSlots(s: StagingState, action: Action)
    requires NoHoles(s.staged) && !action.Overwrite?
    requires ReduceStaging(s, action).Ok?
    ensures var r := ReduceStaging(s, action).value;
      |r.staged| == |s.staged| && NoHoles(r.staged)
  {
    var r := ReduceStaging(s, action).value;
    if action.Set? && r.staged != s.staged {
      assert r.staged == s.staged[s.selected := r.staged[s.selected]];
    }
  }

  /** Starting from the initial state, toggling slot `i` makes it both
      selected and active. */
  lemma InitThenToggle(i: int)
    requires i != -1
    ensures ReduceStaging(InitStagingState(), Toggle(i)) == Ok(InitStagingState().(selected := i, active := i))
  {
  }
}

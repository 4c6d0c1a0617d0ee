/** `handleDriverSelect` of `useDriverSelection`: the next list of selected
    drivers for an action, computed from the previous list (the functional
    update handed to `setSelectedDrivers`). */
module DriverSelection {
  import opened Seqs

  /** The actions the handler reacts to: `'reset'`, `'toggle'`, a number
      (a slot of the mobile drop-downs), and anything else. */
  datatype Action = Reset | Toggle | Slot(index: int) | Other

  /** `maxDrivers = 2` when the hook is given no cap. */
  const DefaultMax: int := 2

  /** `Boolean(d)` on a driver name: only the empty string is falsy. */
  function Truthy(): string -> bool {
    (d: string) => d != ""
  }

  /** `d => d !== value`. */
  function Differs(value: string): string -> bool {
    (d: string) => d != value
  }

  /** `const s = [...prev]; s[index] = value; return s.filter(Boolean)`.
      An index past the end leaves holes, which `filter` skips; a negative
      index names a property rather than an element, which `filter` does
      not see. */
  function SetSlot(prev: seq<string>, index: int, value: string): seq<string> {
    if index < 0 then Filter(prev, Truthy())
    else if index < |prev| then Filter(prev[index := value], Truthy())
    else Filter(prev + [value], Truthy())
  }

  /** The selection after `handleDriverSelect(action, value)`. Neither
      toggling nor choosing one of the first `maxDrivers` slots takes a
      selection past `maxDrivers`. */
  function Select(prev: seq<string>, action: Action, value: string, maxDrivers: int): (r: seq<string>)
    ensures |prev| <= maxDrivers && (action.Slot? ==> action.index < maxDrivers) ==> |r| <= maxDrivers
  {
    match action
    case Reset => []
    case Toggle =>
      if value in prev then Filter(prev, Differs(value))
      else if |prev| < maxDrivers then prev + [value]
      else prev
    case Slot(index) => SetSlot(prev, index, value)
    case Other => prev
  }

  /** Toggling removes a selected driver, adds an unselected one only while
      there is room, and keeps every other driver. */
  lemma ToggleMembers(prev: seq<string>, value: string, maxDrivers: int, d: string)
    ensures d in Select(prev, Toggle, value, maxDrivers) <==>
      if d == value then value !in prev && |prev| < maxDrivers else d in prev
  {
    var r := Select(prev, Toggle, value, maxDrivers);
    if value in prev && d != value && d in prev {
      assert Differs(value)(d);
    }
  }

  /** A slot past the cap grows the selection past it. */
  lemma SlotPastCap()
    ensures |Select(["A", "B"], Slot(2), "C", DefaultMax)| == 3
  {
    var s := ["A", "B"] + ["C"];
    FilterKeepsAll(s, Truthy());
  }

  /** Toggling keeps a selection free of repeats. */
  lemma ToggleDistinct(prev: seq<string>, value: string, maxDrivers: int)
    requires NoDup(prev)
    ensures NoDup(Select(prev, Toggle, value, maxDrivers))
  {
    FilterNoDup(prev, Differs(value));
  }

  /** Toggling an unselected driver while there is room, then toggling it
      again, restores the selection. */
  lemma ToggleUndo(prev: seq<string>, value: string, maxDrivers: int)
    requires value !in prev && |prev| < maxDrivers
    ensures Select(Select(prev, Toggle, value, maxDrivers), Toggle, value, maxDrivers) == prev
  {
    FilterConcat(prev, [value], Differs(value));
    FilterKeepsAll(prev, Differs(value));
  }

  /** On a selection of non-empty names, choosing slot `index` replaces
      that driver, choosing a slot past the end appends, and choosing the
      empty name clears the slot. */
  lemma SlotSpec(prev: seq<string>, index: nat, value: string, maxDrivers: int)
    requires forall k :: 0 <= k < |prev| ==> prev[k] != ""
    ensures index < |prev| && value != "" ==> Select(prev, Slot(index), value, maxDrivers) == prev[index := value]
    ensures index < |prev| && value == "" ==> Select(prev, Slot(index), value, maxDrivers) == prev[..index] + prev[index + 1..]
    ensures index >= |prev| && value != "" ==> Select(prev, Slot(index), value, maxDrivers) == prev + [value]
    ensures index >= |prev| && value == "" ==> Select(prev, Slot(index), value, maxDrivers) == prev
  {
    if index < |prev| {
      if value != "" {
        FilterKeepsAll(prev[index := value], Truthy());
      } else {
        SlotClear(prev, index, maxDrivers);
      }
    } else {
      FilterConcat(prev, [value], Truthy());
      FilterKeepsAll(prev, Truthy());
    }
  }

  /** Choosing the empty name for an existing slot removes that driver. */
  lemma SlotClear(prev: seq<string>, index: nat, maxDrivers: int)
    requires forall k :: 0 <= k < |prev| ==> prev[k] != ""
    requires index < |prev|
    ensures Select(prev, Slot(index), "", maxDrivers) == prev[..index] + prev[index + 1..]
  {
    var front, back := prev[..index], prev[index + 1..];
    assert prev[index := ""] == front + [""] + back;
    FilterConcat(front + [""], back, Truthy());
    FilterConcat(front, [""], Truthy());
    FilterKeepsAll(front, Truthy());
    FilterKeepsAll(back, Truthy());
  }
}

/** Rotating the log file through its numbered slots. */
module LogRotation {
  import opened Messages

  const MAX_ROTATED_LOGS := 5

  /** A generation of the log, block by block, or an archive that was never closed. */
  datatype File<B> = Whole(content: seq<B>) | Partial(content: seq<B>)

  /** Slot 0 is the log itself, slot 1 its plain predecessor; the later slots are compressed. */
  type Slots<B> = s: seq<Option<File<B>>> | |s| == MAX_ROTATED_LOGS + 1 witness [None, None, None, None, None, None]

  /** Which operations of a compression fail: opening, creating, copying from some block on, closing the
      archive, closing its file, and removing what is left of it. */
  datatype Compression =
    Compression(open: bool, create: bool, copy: Option<nat>, closeArchive: bool, closeFile: bool, cleanUp: bool)

  /** Which file operations fail. `stat` of an existing file fails for reasons other than its absence. */
  datatype Faults = Faults(
    removeOldest: bool, shift: nat -> bool, statFirst: bool, compress: Compression, removeFirst: bool,
    statCurrent: bool, renameCurrent: bool)

  datatype Rotation<B> = Rotation(ok: bool, slots: Slots<B>)

  /** Slots `index` down to 2 move up by one each. */
  function Shift<B>(slots: Slots<B>, index: nat, faults: Faults): Rotation<B>
    requires index < MAX_ROTATED_LOGS
    decreases index
  {
    if index < 2 then Rotation(true, slots)
    else if faults.shift(index) then Rotation(false, slots)
    else Shift(Moved(slots, index), index - 1, faults)
  }

  function Moved<B>(slots: Slots<B>, index: nat): Slots<B>
    requires index < MAX_ROTATED_LOGS
  {
    if slots[index].None? then slots else slots[index + 1 := slots[index]][index := None]
  }

  /** Whether `file` is archived under these faults, and what the target then holds. */
  function Archived<B>(file: File<B>, target: Option<File<B>>, faults: Compression): (bool, Option<File<B>>) {
    if faults.open || faults.create then (false, target)
    else if faults.copy.Some? && faults.copy.value < |file.content| then
      (false, if faults.cleanUp then Some(Partial(file.content[..faults.copy.value])) else None)
    else if faults.closeArchive then (false, if faults.cleanUp then Some(Partial(file.content)) else None)
    else if faults.closeFile then (false, if faults.cleanUp then Some(file) else None)
    else (true, Some(file))
  }

  function CompressFirst<B>(slots: Slots<B>, faults: Faults): Rotation<B> {
    if slots[1].None? || faults.statFirst then Rotation(true, slots)
    else
      var archived := Archived(slots[1].value, slots[2], faults.compress);
      if !archived.0 then Rotation(false, slots[2 := archived.1])
      else if faults.removeFirst then Rotation(false, slots[2 := slots[1]])
      else Rotation(true, slots[2 := slots[1]][1 := None])
  }

  function MoveCurrent<B>(slots: Slots<B>, faults: Faults): Rotation<B> {
    if slots[0].None? || faults.statCurrent then Rotation(true, slots)
    else if faults.renameCurrent then Rotation(false, slots)
    else Rotation(true, slots[1 := slots[0]][0 := None])
  }

  function Rotate<B>(slots: Slots<B>, faults: Faults): Rotation<B> {
    var start := if faults.removeOldest then slots else slots[MAX_ROTATED_LOGS := None];
    var shifted := Shift(start, MAX_ROTATED_LOGS - 1, faults);
    if !shifted.ok then shifted
    else
      var compressed := CompressFirst(shifted.slots, faults);
      if !compressed.ok then compressed else MoveCurrent(compressed.slots, faults)
  }

  method RotateLogFile<B(0)>(slots: array<Option<File<B>>>, faults: Faults) returns (ok: bool)
    requires slots.Length == MAX_ROTATED_LOGS + 1
    modifies slots
    ensures Rotation(ok, slots[..]) == Rotate(old(slots[..]), faults)
  {
    if !faults.removeOldest {
      slots[MAX_ROTATED_LOGS] := None;
    }
    var index := MAX_ROTATED_LOGS - 1;
    ghost var before: Slots<B> := slots[..];
    while index >= 2
      invariant 1 <= index < MAX_ROTATED_LOGS
      invariant Shift(slots[..], index, faults) == Shift(before, MAX_ROTATED_LOGS - 1, faults)
    {
      if faults.shift(index) {
        return false;
      }
      ghost var next := Moved(slots[..], index);
      if slots[index].Some? {
        slots[index + 1] := slots[index];
        slots[index] := None;
      }
      assert slots[..] == next;
      index := index - 1;
    }
    ghost var shifted: Slots<B> := slots[..];
    if slots[1].Some? && !faults.statFirst {
      ok := CompressFile(slots, faults.compress);
      if !ok {
        return;
      }
      if faults.removeFirst {
        return false;
      }
      slots[1] := None;
    }
    assert CompressFirst(shifted, faults) == Rotation(true, slots[..]);
    if slots[0].Some? && !faults.statCurrent {
      if faults.renameCurrent {
        return false;
      }
      slots[1] := slots[0];
      slots[0] := None;
    }
    ok := true;
  }

  /** Compresses slot 1 into slot 2, block by block. The source is never touched; a target that was free is
      the whole source afterwards, or free again, or, when even removing it fails, a prefix of the source. */
  method CompressFile<B>(slots: array<Option<File<B>>>, faults: Compression) returns (ok: bool)
    requires slots.Length == MAX_ROTATED_LOGS + 1 && slots[1].Some?
    modifies slots
    ensures (ok, slots[2]) == Archived(old(slots[1]).value, old(slots[2]), faults)
    ensures forall i :: 0 <= i <= MAX_ROTATED_LOGS && i != 2 ==> slots[i] == old(slots[i])
    ensures ok ==> slots[2] == old(slots[1])
    ensures !ok && old(slots[2]).None? && slots[2].Some? ==>
      faults.cleanUp && slots[2].value.content <= old(slots[1]).value.content
  {
    if faults.open || faults.create {
      return false;
    }
    var content := slots[1].value.content;
    slots[2] := Some(Partial([]));
    for block := 0 to |content|
      invariant slots[2] == Some(Partial(content[..block]))
      invariant forall i :: 0 <= i <= MAX_ROTATED_LOGS && i != 2 ==> slots[i] == old(slots[i])
      invariant faults.copy.Some? ==> faults.copy.value >= block
    {
      if faults.copy == Some(block) {
        if !faults.cleanUp {
          slots[2] := None;
        }
        return false;
      }
      slots[2] := Some(Partial(content[..block] + [content[block]]));
      assert content[..block + 1] == content[..block] + [content[block]];
    }
    assert content[..|content|] == content;
    if faults.closeArchive {
      if !faults.cleanUp {
        slots[2] := None;
      }
      return false;
    }
    slots[2] := slots[1];
    if faults.closeFile {
      if !faults.cleanUp {
        slots[2] := None;
      }
      return false;
    }
    ok := true;
  }

  // ---------------------------------------------------------------------------------------
  // What a rotation moves and what it loses.
  // ---------------------------------------------------------------------------------------

  /** The condition under which success means an exact shift: the failures that are not reported met
      nothing they could spoil. */
  predicate Harmless<B>(slots: Slots<B>, faults: Faults) {
    (faults.removeOldest ==> slots[5].None? || slots[4].Some?) &&
    (faults.statFirst ==> slots[1].None?) && (faults.statCurrent ==> slots[0].None?)
  }

  lemma {:induction false} ShiftTwoToFour<B>(slots: Slots<B>, faults: Faults)
    ensures var shifted := Shift(slots, 4, faults);
      (shifted.ok <==> !faults.shift(2) && !faults.shift(3) && !faults.shift(4)) &&
      shifted.slots[0] == slots[0] && shifted.slots[1] == slots[1] &&
      (shifted.ok ==>
        shifted.slots[2] == None && shifted.slots[3] == slots[2] && shifted.slots[4] == slots[3] &&
        shifted.slots[5] == (if slots[4].None? then slots[5] else slots[4]))
  {
    var one := Moved(slots, 4);
    var two := Moved(one, 3);
    assert Shift(slots, 4, faults) == if faults.shift(4) then Rotation(false, slots) else Shift(one, 3, faults);
    assert Shift(one, 3, faults) == if faults.shift(3) then Rotation(false, one) else Shift(two, 2, faults);
    assert Shift(two, 2, faults) == if faults.shift(2) then Rotation(false, two) else Shift(Moved(two, 2), 1, faults);
  }

  lemma {:induction false} SlotBySlot<B>(a: Slots<B>, b: Slots<B>)
    ensures a == b <==>
      a[0] == b[0] && a[1] == b[1] && a[2] == b[2] && a[3] == b[3] && a[4] == b[4] && a[5] == b[5]
  {
    assert a == [a[0], a[1], a[2], a[3], a[4], a[5]] && b == [b[0], b[1], b[2], b[3], b[4], b[5]];
  }

  /** No step of the compression of a file of `blocks` blocks fails. */
  predicate Compresses(faults: Compression, blocks: nat) {
    !faults.open && !faults.create && (faults.copy.Some? ==> faults.copy.value >= blocks) &&
    !faults.closeArchive && !faults.closeFile
  }

  /** A rotation reports success if and only if nothing fails that it attempts: no renaming of a compressed slot;
      where slot 1 is there to be seen, neither its compression nor its removal; and where the log is, not its
      renaming. */
  lemma {:induction false} SucceedsIffNothingAttemptedFails<B>(slots: Slots<B>, faults: Faults)
    ensures Rotate(slots, faults).ok <==>
      !faults.shift(2) && !faults.shift(3) && !faults.shift(4) &&
      (slots[1].Some? && !faults.statFirst ==>
        Compresses(faults.compress, |slots[1].value.content|) && !faults.removeFirst) &&
      (slots[0].Some? && !faults.statCurrent ==> !faults.renameCurrent)
  {
    ShiftTwoToFour(if faults.removeOldest then slots else slots[MAX_ROTATED_LOGS := None], faults);
  }

  /** A rotation that reports success has moved every slot up by one, absent ones included, and discarded
      only the oldest, if and only if its unreported failures were harmless. */
  lemma {:induction false} SuccessShiftsEverySlot<B>(slots: Slots<B>, faults: Faults)
    requires Rotate(slots, faults).ok
    ensures Rotate(slots, faults).slots == [None] + slots[..MAX_ROTATED_LOGS] <==> Harmless(slots, faults)
  {
    var start := if faults.removeOldest then slots else slots[MAX_ROTATED_LOGS := None];
    ShiftTwoToFour(start, faults);
    var final := Rotate(slots, faults).slots;
    var wanted: Slots<B> := [None] + slots[..MAX_ROTATED_LOGS];
    SlotBySlot(final, wanted);
  }

  ghost predicate Retains<B>(slots: Slots<B>, file: File<B>) {
    exists i :: 0 <= i <= MAX_ROTATED_LOGS && slots[i] == Some(file)
  }

  /** Shifting loses nothing that does not lie right above a present slot, and the slots above stay free. */
  lemma {:induction false} ShiftRetains<B>(slots: Slots<B>, index: nat, faults: Faults, file: File<B>)
    requires index < MAX_ROTATED_LOGS
    requires exists at :: 0 <= at <= MAX_ROTATED_LOGS && at != index + 1 && slots[at] == Some(file)
    ensures Retains(Shift(slots, index, faults).slots, file)
    decreases index
  {
    var at :| 0 <= at <= MAX_ROTATED_LOGS && at != index + 1 && slots[at] == Some(file);
    if index >= 2 && !faults.shift(index) {
      var next := Moved(slots, index);
      var at' := if at == index then index + 1 else at;
      assert at' != index && next[at'] == Some(file);
      ShiftRetains(next, index - 1, faults, file);
    }
  }

  /** Slot 1 is present but cannot be looked at, and the log is moved onto it. */
  predicate Overwrites<B>(slots: Slots<B>, faults: Faults) {
    faults.statFirst && slots[1].Some? && slots[0].Some? && !faults.statCurrent && !faults.renameCurrent &&
    !faults.shift(2) && !faults.shift(3) && !faults.shift(4)
  }

  lemma {:induction false} RotationRetains<B>(slots: Slots<B>, faults: Faults, i: nat)
    requires i < MAX_ROTATED_LOGS && slots[i].Some? && !(i == 1 && Overwrites(slots, faults))
    ensures Retains(Rotate(slots, faults).slots, slots[i].value)
  {
    var start := if faults.removeOldest then slots else slots[MAX_ROTATED_LOGS := None];
    var file := slots[i].value;
    assert start[i] == Some(file);
    ShiftRetains(start, MAX_ROTATED_LOGS - 1, faults, file);
    var shifted := Shift(start, MAX_ROTATED_LOGS - 1, faults);
    ShiftTwoToFour(start, faults);
    if shifted.ok {
      var at: nat := if i < 2 then i else i + 1;
      assert shifted.slots[at] == Some(file);
      var compressed := CompressFirst(shifted.slots, faults);
      var at' := if at == 1 && compressed.ok && !faults.statFirst then 2 else at;
      assert compressed.slots[at'] == Some(file);
      if compressed.ok {
        var final := MoveCurrent(compressed.slots, faults).slots;
        assert final[at'] == Some(file) || (at' == 0 && final[1] == Some(file));
      }
    }
  }

  /** A rotation, failed or not, loses no file below the oldest slot, except that slot 1 is lost if and
      only if it cannot be looked at and the log is moved onto it. */
  lemma {:induction false} OnlyTheOldestIsLost<B>(slots: Slots<B>, faults: Faults, i: nat)
    requires i < MAX_ROTATED_LOGS && slots[i].Some?
    requires forall j :: 0 <= j <= MAX_ROTATED_LOGS && j != i ==> slots[j] != slots[i]
    ensures Retains(Rotate(slots, faults).slots, slots[i].value) <==> !(i == 1 && Overwrites(slots, faults))
  {
    if i == 1 && Overwrites(slots, faults) {
      var start := if faults.removeOldest then slots else slots[MAX_ROTATED_LOGS := None];
      ShiftTwoToFour(start, faults);
      var final := Rotate(slots, faults).slots;
      forall at | 0 <= at <= MAX_ROTATED_LOGS ensures final[at] != slots[1] {
        assert at == 0 || at == 1 || at == 2 || at == 3 || at == 4 || at == 5;
      }
    } else {
      RotationRetains(slots, faults, i);
    }
  }

  // ---------------------------------------------------------------------------------------
  // Many rotations.
  // ---------------------------------------------------------------------------------------

  /** A run writes each generation into an empty log and rotates it. */
  function RotateAll<B>(slots: Slots<B>, generations: seq<seq<B>>, faults: seq<Faults>): Rotation<B>
    requires |faults| == |generations|
    decreases |generations|
  {
    if generations == [] then Rotation(true, slots)
    else
      var last := |generations| - 1;
      var before := RotateAll(slots, generations[..last], faults[..last]);
      if !before.ok then before else Rotate(before.slots[0 := Some(Whole(generations[last]))], faults[last])
  }

  function EmptySlots<B>(): Slots<B> {
    [None, None, None, None, None, None]
  }

  /** Every rotation succeeds, and the files it asks about can be looked at. */
  ghost predicate Smooth(faults: seq<Faults>) {
    forall i :: 0 <= i < |faults| ==> !faults[i].removeOldest && !faults[i].statFirst && !faults[i].statCurrent
  }

  /** After any number of successful rotations the slots hold the latest five generations, newest first. */
  lemma {:induction false} LatestFiveAreKept<B>(generations: seq<seq<B>>, faults: seq<Faults>)
    requires |faults| == |generations| && Smooth(faults)
    requires RotateAll(EmptySlots(), generations, faults).ok
    ensures var slots := RotateAll(EmptySlots(), generations, faults).slots;
      slots[0] == None && forall age :: 1 <= age <= MAX_ROTATED_LOGS ==>
        slots[age] == (if age <= |generations| then Some(Whole(generations[|generations| - age])) else None)
  {
    if generations != [] {
      var last := |generations| - 1;
      LatestFiveAreKept(generations[..last], faults[..last]);
      var before := RotateAll(EmptySlots(), generations[..last], faults[..last]).slots;
      var written: Slots<B> := before[0 := Some(Whole(generations[last]))];
      assert Harmless(written, faults[last]);
      SuccessShiftsEverySlot(written, faults[last]);
      var final := RotateAll(EmptySlots(), generations, faults).slots;
      assert final == [None] + written[..MAX_ROTATED_LOGS];
      forall age | 1 <= age <= MAX_ROTATED_LOGS
        ensures final[age] == (if age <= |generations| then Some(Whole(generations[|generations| - age])) else None)
      {
        assert final[age] == written[age - 1];
        assert 1 < age <= |generations| ==> generations[..last][last - (age - 1)] == generations[|generations| - age];
      }
    }
  }
}

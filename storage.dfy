/**
  The run history of src/utils/simulationStorage.js: the saved simulation
  runs kept under one browser-storage key. The key's content is modelled as
  absent, unparsable, or the list of entries it encodes; fresh ids and
  timestamps are supplied by the caller.
*/
module Storage {
  import opened Base

  /** The measurements of a run as the page submits them; `None` is a missing, `null`, `0` or `NaN` value. */
  datatype RunData = RunData(
    processor: string,
    program: string,
    rob: string,
    iterations: Option<real>,
    instructions: Option<real>,
    cycles: Option<real>,
    ipc: Option<real>,
    cyclesPerIteration: Option<real>)

  /** A run to save, with the optional custom name (`None` or `""` counts as no name). */
  datatype Submission = Submission(data: RunData, name: Option<string>)

  /** A saved entry: the submitted data, its name, the id and the timestamp added on saving. */
  datatype Entry = Entry(data: RunData, name: string, id: string, timestamp: string)

  /** The content of the storage key. */
  datatype Slot = Absent | Unparsable | Stored(entries: seq<Entry>)

  /** `getStoredExecutions()`: the stored list, or `[]` when nothing is stored or the text does not parse. */
  function Entries(slot: Slot): seq<Entry>
  {
    match slot
    case Stored(entries) => entries
    case _ => []
  }

  /** `execution.name || ...`: a name is used only when it is given and not empty. */
  predicate HasName(s: Submission)
  {
    s.name.Some? && s.name.value != ""
  }

  /** The default name of the entry saved after `count` others. */
  function DefaultName(count: nat): string
  {
    "Run " + NatToString(count + 1)
  }

  /** The entry `saveExecution` builds when `count` entries are stored. */
  function NewEntry(s: Submission, count: nat, id: string, timestamp: string): (e: Entry)
    ensures e.data == s.data && e.id == id && e.timestamp == timestamp
    ensures HasName(s) ==> e.name == s.name.value
    ensures !HasName(s) ==> e.name == DefaultName(count)
  {
    Entry(s.data, if HasName(s) then s.name.value else DefaultName(count), id, timestamp)
  }

  /**
    The default name of a save is "Run n+1" for the `n` entries stored at
    that moment, and different counts give different names. The count is
    not a name kept for good: after a delete the next default name can be
    one that a stored entry already has (`DefaultNameCanRepeat`).
  */
  lemma DefaultNamesDistinct(m: nat, n: nat)
    ensures DefaultName(m) == DefaultName(n) <==> m == n
  {
    if DefaultName(m) == DefaultName(n) {
      var a, b := NatToString(m + 1), NatToString(n + 1);
      assert a == DefaultName(m)[4..] && b == DefaultName(n)[4..];
      NatToStringInjective(m + 1, n + 1);
    }
  }

  /** Decimal numerals name their numbers. */
  lemma {:induction false} NatToStringInjective(m: nat, n: nat)
    requires NatToString(m) == NatToString(n)
    ensures m == n
    decreases m
  {
    var a, b := NatToString(m), NatToString(n);
    if m < 10 || n < 10 {
      assert |a| == 1 && |b| == 1;
      assert Digit(m) == a[0] && Digit(n) == b[0];
    } else {
      assert a[..|a| - 1] == NatToString(m / 10) && b[..|b| - 1] == NatToString(n / 10);
      NatToStringInjective(m / 10, n / 10);
      assert Digit(m % 10) == a[|a| - 1] && Digit(n % 10) == b[|b| - 1];
    }
  }

  /** `executions.filter(exec => exec.id !== id)`. */
  function Without(entries: seq<Entry>, id: string): seq<Entry>
    decreases |entries|
  {
    if entries == [] then []
    else (if entries[0].id != id then [entries[0]] else []) + Without(entries[1..], id)
  }

  /** `executions.findIndex(exec => exec.id === id)`, `None` for -1. */
  function FirstWithId(entries: seq<Entry>, id: string): (r: Option<nat>)
    ensures r.Some? ==> r.value < |entries| && entries[r.value].id == id
    ensures r.Some? ==> forall k :: 0 <= k < r.value ==> entries[k].id != id
    ensures r.None? <==> forall k :: 0 <= k < |entries| ==> entries[k].id != id
    decreases |entries|
  {
    if entries == [] then None
    else if entries[0].id == id then Some(0)
    else match FirstWithId(entries[1..], id)
      case None => None
      case Some(i) => Some(i + 1)
  }

  /** The totals `getExecutionStats` sums, a missing value counting as 0. */
  datatype Totals = Totals(ipc: real, cycles: real, cyclesPerIteration: real)

  function OrZero(v: Option<real>): real
  {
    if v.Some? then v.value else 0.0
  }

  /** The `reduce` over the entries. */
  function TotalsOf(entries: seq<Entry>): Totals
    decreases |entries|
  {
    if entries == [] then Totals(0.0, 0.0, 0.0)
    else
      var last := entries[|entries| - 1].data;
      var t := TotalsOf(entries[..|entries| - 1]);
      Totals(t.ipc + OrZero(last.ipc), t.cycles + OrZero(last.cycles), t.cyclesPerIteration + OrZero(last.cyclesPerIteration))
  }

  /** `getExecutionStats()`: the count and the exact means (before the page rounds them), all 0 for no entries. */
  datatype Stats = Stats(count: nat, avgIpc: real, avgCycles: real, avgCyclesPerIteration: real)

  function StatsOf(entries: seq<Entry>): Stats
  {
    if |entries| == 0 then Stats(0, 0.0, 0.0, 0.0)
    else
      var t, n := TotalsOf(entries), |entries| as real;
      Stats(|entries|, t.ipc / n, t.cycles / n, t.cyclesPerIteration / n)
  }

  /** The store itself: the content of the storage key. */
  class ExecutionStore {
    var slot: Slot

    constructor (initial: Slot)
      ensures slot == initial
    {
      slot := initial;
    }

    /** `getStoredExecutions()`. */
    method GetStoredExecutions() returns (entries: seq<Entry>)
      ensures entries == Entries(slot)
      ensures slot.Absent? || slot.Unparsable? ==> entries == []
    {
      match slot
      case Stored(stored) => entries := stored;
      case Absent => entries := [];
      case Unparsable => entries := [];
    }

    /** `saveExecution(execution)`: the new entry is pushed onto what `GetStoredExecutions` gives, written back and returned. */
    method SaveExecution(s: Submission, freshId: string, timestamp: string) returns (entry: Entry)
      modifies this
      ensures entry == NewEntry(s, |Entries(old(slot))|, freshId, timestamp)
      ensures slot == Stored(Entries(old(slot)) + [entry])
    {
      var executions := GetStoredExecutions();
      var name := if HasName(s) then s.name.value else "Run " + NatToString(|executions| + 1);
      entry := Entry(s.data, name, freshId, timestamp);
      executions := executions + [entry];
      slot := Stored(executions);
    }

    /** `deleteExecution(id)`: the stored list without the entries with the id, written back. */
    method DeleteExecution(id: string)
      modifies this
      ensures slot == Stored(Without(Entries(old(slot)), id))
    {
      var executions := GetStoredExecutions();
      slot := Stored(Without(executions, id));
    }

    /**
      `renameExecution(id, newName)`: the first entry with the id is
      renamed and the list written back; with no such entry nothing is
      written.
    */
    method RenameExecution(id: string, newName: string)
      modifies this
      ensures match FirstWithId(Entries(old(slot)), id)
        case None => slot == old(slot)
        case Some(i) => slot == Stored(Entries(old(slot))[i := Entries(old(slot))[i].(name := newName)])
    {
      var executions := GetStoredExecutions();
      var i := 0;
      while i < |executions| && executions[i].id != id
        invariant 0 <= i <= |executions|
        invariant forall k :: 0 <= k < i ==> executions[k].id != id
      {
        i := i + 1;
      }
      if i < |executions| {
        executions := executions[i := executions[i].(name := newName)];
        slot := Stored(executions);
      }
    }

    /** `clearAllExecutions()`: the key is removed. */
    method ClearAllExecutions()
      modifies this
      ensures slot == Absent
      ensures Entries(slot) == []
    {
      slot := Absent;
    }

    /** `getExecutionStats()`. */
    method GetExecutionStats() returns (stats: Stats)
      ensures stats == StatsOf(Entries(slot))
    {
      var executions := GetStoredExecutions();
      stats := StatsOf(executions);
    }
  }

  // ---------------------------------------------------------------------------
  // Properties
  // ---------------------------------------------------------------------------

  /** Saving appends exactly one entry, at position `n` for `n` earlier ones, and keeps the earlier ones. */
  lemma SaveAppends(slot: Slot, s: Submission, id: string, timestamp: string)
    ensures var before := Entries(slot);
      var after := Entries(Stored(before + [NewEntry(s, |before|, id, timestamp)]));
      && |after| == |before| + 1
      && after[..|before|] == before
      && after[|before|] == NewEntry(s, |before|, id, timestamp)
  {
    var before := Entries(slot);
    assert (before + [NewEntry(s, |before|, id, timestamp)])[..|before|] == before;
  }

  /**
    Default names are not unique in the store: delete "Run 1" from
    ["Run 1", "Run 2"], save without a name, and the new entry is also
    named "Run 2", since the name counts the entries left.
  */
  lemma DefaultNameCanRepeat(first: Entry, second: Entry, s: Submission, id: string, timestamp: string)
    requires first.id != second.id && second.name == DefaultName(1) && !HasName(s)
    ensures var kept := Without([first, second], first.id);
      && kept == [second]
      && NewEntry(s, |kept|, id, timestamp).name == second.name
  {
    assert Without([first, second], first.id) == [] + Without([second], first.id);
    assert Without([second], first.id) == [second] + Without([], first.id);
  }

  /** After deleting an id, no entry has it, and every other entry is kept. */
  lemma {:induction false} WithoutMembers(entries: seq<Entry>, id: string)
    ensures forall e :: e in Without(entries, id) <==> e in entries && e.id != id
    ensures |Without(entries, id)| <= |entries|
    decreases |entries|
  {
    if entries != [] {
      WithoutMembers(entries[1..], id);
      assert entries == [entries[0]] + entries[1..];
    }
  }

  /** Deleting keeps the other entries in their order: what remains is the list with those entries removed, one by one. */
  lemma {:induction false} WithoutOrder(a: seq<Entry>, b: seq<Entry>, id: string)
    ensures Without(a + b, id) == Without(a, id) + Without(b, id)
    decreases |a|
  {
    if a == [] {
      assert a + b == b;
    } else {
      WithoutOrder(a[1..], b, id);
      assert (a + b)[0] == a[0] && (a + b)[1..] == a[1..] + b;
    }
  }

  /** Deleting twice deletes no more than once; an id no entry has deletes nothing. */
  lemma {:induction false} WithoutIdempotent(entries: seq<Entry>, id: string)
    ensures Without(Without(entries, id), id) == Without(entries, id)
    ensures (forall k :: 0 <= k < |entries| ==> entries[k].id != id) ==> Without(entries, id) == entries
    decreases |entries|
  {
    if entries != [] {
      WithoutIdempotent(entries[1..], id);
      var head := if entries[0].id != id then [entries[0]] else [];
      WithoutOrder(head, Without(entries[1..], id), id);
      if (forall k :: 0 <= k < |entries| ==> entries[k].id != id) {
        assert forall k :: 0 <= k < |entries[1..]| ==> entries[1..][k].id != id by {
          forall k | 0 <= k < |entries[1..]| ensures entries[1..][k].id != id {
            assert entries[1..][k] == entries[k + 1];
          }
        }
        assert entries == [entries[0]] + entries[1..];
      }
    }
  }

  /** Renaming changes only the name of the first entry with the id; everything else, and its id, stays. */
  lemma RenameOnlyFirst(entries: seq<Entry>, id: string, newName: string)
    requires FirstWithId(entries, id).Some?
    ensures var i := FirstWithId(entries, id).value;
      var after := entries[i := entries[i].(name := newName)];
      && |after| == |entries|
      && after[i].name == newName && after[i].id == id
      && after[i].data == entries[i].data && after[i].timestamp == entries[i].timestamp
      && (forall k :: 0 <= k < |entries| && k != i ==> after[k] == entries[k])
      && (forall k :: 0 <= k < i ==> entries[k].id != id)
  {
  }

  /** After clearing, reading the store gives no entries and the statistics are all zero. */
  lemma ClearedIsEmpty()
    ensures Entries(Absent) == [] && StatsOf(Entries(Absent)) == Stats(0, 0.0, 0.0, 0.0)
  {
  }

  /** Saving one more entry adds its values, a missing one as 0, to the totals. */
  lemma TotalsAfterSave(entries: seq<Entry>, e: Entry)
    ensures var t, u := TotalsOf(entries), TotalsOf(entries + [e]);
      && u.ipc == t.ipc + OrZero(e.data.ipc)
      && u.cycles == t.cycles + OrZero(e.data.cycles)
      && u.cyclesPerIteration == t.cyclesPerIteration + OrZero(e.data.cyclesPerIteration)
  {
    assert (entries + [e])[..|entries|] == entries;
  }

  /** Totals of two lists add up. */
  lemma {:induction false} TotalsAppend(a: seq<Entry>, b: seq<Entry>)
    ensures var ta, tb, t := TotalsOf(a), TotalsOf(b), TotalsOf(a + b);
      t == Totals(ta.ipc + tb.ipc, ta.cycles + tb.cycles, ta.cyclesPerIteration + tb.cyclesPerIteration)
    decreases |b|
  {
    if b == [] {
      assert a + b == a;
    } else {
      var init := b[..|b| - 1];
      TotalsAppend(a, init);
      assert (a + b)[..|a + b| - 1] == a + init;
      assert (a + b)[|a + b| - 1] == b[|b| - 1];
    }
  }

  /** Entries whose values are all missing add nothing to the totals. */
  lemma {:induction false} TotalsOfMissing(entries: seq<Entry>)
    requires forall k :: 0 <= k < |entries| ==>
      entries[k].data.ipc.None? && entries[k].data.cycles.None? && entries[k].data.cyclesPerIteration.None?
    ensures TotalsOf(entries) == Totals(0.0, 0.0, 0.0)
    decreases |entries|
  {
    if entries != [] {
      TotalsOfMissing(entries[..|entries| - 1]);
    }
  }

  /** The count is the number of entries, and the means are the totals spread over them. */
  lemma StatsMeans(entries: seq<Entry>)
    ensures var st := StatsOf(entries);
      && st.count == |entries|
      && (entries == [] ==> st == Stats(0, 0.0, 0.0, 0.0))
      && (entries != [] ==>
            && st.avgIpc * |entries| as real == TotalsOf(entries).ipc
            && st.avgCycles * |entries| as real == TotalsOf(entries).cycles
            && st.avgCyclesPerIteration * |entries| as real == TotalsOf(entries).cyclesPerIteration)
  {
  }
}

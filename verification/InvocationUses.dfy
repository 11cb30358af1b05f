/** How often a program reads each storage slot, and what is left of that during a run. */
module InvocationUses {
  import opened Programs

  function StorageOf(values: seq<ProgramValue>, s: Slot): Slot { if s < |values| then values[s].storageSlot else s }

  /** The occurrences of a storage slot among some inputs, aliases included. */
  function Uses(values: seq<ProgramValue>, inputs: seq<Slot>, s: Slot): nat {
    if inputs == [] then 0
    else Uses(values, inputs[1..], s) + if StorageOf(values, inputs[0]) == s then 1 else 0
  }

  /** The occurrences from computation k on. */
  function UsesFrom(values: seq<ProgramValue>, computations: seq<Computation>, k: nat, s: Slot): nat
    requires k <= |computations|
    decreases |computations| - k
  {
    if k == |computations| then 0
    else Uses(values, computations[k].inputs, s) + UsesFrom(values, computations, k + 1, s)
  }

  /** The occurrences before computation k. */
  function UsesBefore(values: seq<ProgramValue>, computations: seq<Computation>, k: nat, s: Slot): nat
    requires k <= |computations|
  {
    if k == 0 then 0 else UsesBefore(values, computations, k - 1, s) + Uses(values, computations[k - 1].inputs, s)
  }

  lemma {:induction false} UsesSplit(values: seq<ProgramValue>, computations: seq<Computation>, k: nat, s: Slot)
    requires k <= |computations|
    ensures UsesBefore(values, computations, k, s) + UsesFrom(values, computations, k, s)
         == UsesFrom(values, computations, 0, s)
  {
    if k > 0 {
      UsesSplit(values, computations, k - 1, s);
    }
  }

  lemma {:induction false} UsesPrefix(values: seq<ProgramValue>, inputs: seq<Slot>, n: nat, s: Slot)
    requires n < |inputs|
    ensures Uses(values, inputs[..n + 1], s)
         == Uses(values, inputs[..n], s) + if StorageOf(values, inputs[n]) == s then 1 else 0
  {
    if n > 0 {
      UsesPrefix(values, inputs[1..], n - 1, s);
      assert inputs[..n + 1][1..] == inputs[1..][..n] && inputs[..n][1..] == inputs[1..][..n - 1];
    } else {
      assert inputs[..1][1..] == [] && inputs[..0] == [];
    }
  }

  /** An input that occurs is counted. */
  lemma {:induction false} UsesOfInput(values: seq<ProgramValue>, inputs: seq<Slot>, i: nat)
    requires i < |inputs|
    ensures Uses(values, inputs, StorageOf(values, inputs[i])) > 0
  {
    if i > 0 {
      UsesOfInput(values, inputs[1..], i - 1);
      assert inputs[1..][i - 1] == inputs[i];
    }
  }

  /** The occurrences of a slot itself, whatever storage it shares: without values every slot is its own storage. */
  function SlotUsesFrom(computations: seq<Computation>, k: nat, s: Slot): nat
    requires k <= |computations|
  {
    UsesFrom([], computations, k, s)
  }

  /** The counts that a program carries for its slots and for their storage. */
  method CountUses(values: seq<ProgramValue>, computations: seq<Computation>)
    returns (inputUseCounts: seq<nat>, storageUseCounts: seq<nat>)
    requires forall k, i :: 0 <= k < |computations| && 0 <= i < |computations[k].inputs| ==>
               computations[k].inputs[i] < |values| && values[computations[k].inputs[i]].storageSlot < |values|
    ensures |inputUseCounts| == |storageUseCounts| == |values|
    ensures forall s :: 0 <= s < |values| ==> storageUseCounts[s] == UsesFrom(values, computations, 0, s)
    ensures forall s :: 0 <= s < |values| ==> inputUseCounts[s] == SlotUsesFrom(computations, 0, s)
  {
    inputUseCounts := seq(|values|, s => 0);
    storageUseCounts := seq(|values|, s => 0);
    var k := 0;
    while k < |computations|
      invariant k <= |computations| && |inputUseCounts| == |storageUseCounts| == |values|
      invariant forall s :: 0 <= s < |values| ==> storageUseCounts[s] == UsesBefore(values, computations, k, s)
      invariant forall s :: 0 <= s < |values| ==> inputUseCounts[s] == UsesBefore([], computations, k, s)
    {
      var inputs := computations[k].inputs;
      ghost var before, slotsBefore := storageUseCounts, inputUseCounts;
      var i := 0;
      while i < |inputs|
        invariant i <= |inputs| && |inputUseCounts| == |storageUseCounts| == |values|
        invariant forall s :: 0 <= s < |values| ==> storageUseCounts[s] == before[s] + Uses(values, inputs[..i], s)
        invariant forall s :: 0 <= s < |values| ==> inputUseCounts[s] == slotsBefore[s] + Uses([], inputs[..i], s)
      {
        var input := inputs[i];
        var storage := values[input].storageSlot;
        inputUseCounts := inputUseCounts[input := inputUseCounts[input] + 1];
        storageUseCounts := storageUseCounts[storage := storageUseCounts[storage] + 1];
        forall s | 0 <= s < |values|
          ensures Uses(values, inputs[..i + 1], s) == Uses(values, inputs[..i], s) + if storage == s then 1 else 0
        {
          UsesPrefix(values, inputs, i, s);
        }
        forall s | 0 <= s < |values|
          ensures Uses([], inputs[..i + 1], s) == Uses([], inputs[..i], s) + if input == s then 1 else 0
        {
          UsesPrefix([], inputs, i, s);
        }
        i := i + 1;
      }
      assert inputs[..|inputs|] == inputs;
      k := k + 1;
    }
    forall s | 0 <= s < |values|
      ensures UsesBefore(values, computations, |computations|, s) == UsesFrom(values, computations, 0, s)
    {
      UsesSplit(values, computations, |computations|, s);
    }
    forall s | 0 <= s < |values|
      ensures UsesBefore([], computations, |computations|, s) == SlotUsesFrom(computations, 0, s)
    {
      UsesSplit([], computations, |computations|, s);
    }
    hide Uses, UsesFrom, UsesBefore;
  }

  /** A slot is not read before it is computed. */
  lemma {:induction false} NotReadBefore(values: seq<ProgramValue>, computations: seq<Computation>, k: nat, n: nat,
                                         s: Slot)
    requires WellFormed(values, computations) && n <= k < |computations| && computations[k].output == s
    ensures UsesFrom(values, computations, k - n, s) == UsesFrom(values, computations, k, s)
  {
    if n > 0 {
      NotReadBefore(values, computations, k, n - 1, s);
      NotReadBy(values, computations, k - n, s, computations[k - n].inputs);
    }
  }

  lemma {:induction false} NotReadBy(values: seq<ProgramValue>, computations: seq<Computation>, k: nat, s: Slot,
                                     inputs: seq<Slot>)
    requires WellFormed(values, computations) && k < |computations| && computations[k].output < s
    requires forall i :: 0 <= i < |inputs| ==> inputs[i] < computations[k].output
    ensures Uses(values, inputs, s) == 0
  {
    if inputs != [] {
      NotReadBy(values, computations, k, s, inputs[1..]);
      assert ProperComputation(values, computations[k]);
      assert ProperValue(values, inputs[0]);
    }
  }

  /** A slot that is the storage of no operand has no uses. */
  lemma {:induction false} NeverUsed(values: seq<ProgramValue>, computations: seq<Computation>, k: nat, s: Slot)
    requires k <= |computations|
    requires forall j, i :: k <= j < |computations| && 0 <= i < |computations[j].inputs| ==>
               StorageOf(values, computations[j].inputs[i]) != s
    ensures UsesFrom(values, computations, k, s) == 0
    decreases |computations| - k
  {
    if k < |computations| {
      NotAmong(values, computations[k].inputs, s);
      NeverUsed(values, computations, k + 1, s);
    }
  }

  lemma {:induction false} NotAmong(values: seq<ProgramValue>, inputs: seq<Slot>, s: Slot)
    requires forall i :: 0 <= i < |inputs| ==> StorageOf(values, inputs[i]) != s
    ensures Uses(values, inputs, s) == 0
  {
    if inputs != [] {
      NotAmong(values, inputs[1..], s);
    }
  }
}

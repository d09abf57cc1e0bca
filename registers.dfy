/**
 * The register file's naming: ten 16-bit registers, addressed by name
 * through a table built once, or by an operand byte wrapped onto the table.
 */
module Registers {
  import opened Wrappers

  /** The register names, in bank order: register i lives at byte offset 2 * i. */
  const RegisterNames: seq<string> := ["ip", "acc", "r1", "r2", "r3", "r4", "r5", "r6", "r7", "r8"]

  /** Table positions of the two registers the CPU addresses by name. */
  const IP: nat := 0
  const ACC: nat := 1

  type RegIndex = i: nat | i < |RegisterNames|

  predicate Distinct(names: seq<string>) {
    forall i, j :: 0 <= i < j < |names| ==> names[i] != names[j]
  }

  /** The ten names are pairwise different, and IP and ACC name "ip" and "acc". */
  lemma RegisterNamesDistinct()
    ensures |RegisterNames| == 10 && Distinct(RegisterNames)
    ensures RegisterNames[IP] == "ip" && RegisterNames[ACC] == "acc"
  {
  }

  /** The position of the first occurrence of `name` in `names`, if any. */
  function IndexOf(names: seq<string>, name: string): (r: Option<nat>)
    ensures r.Some? <==> name in names
    ensures r.Some? ==> r.value < |names| && names[r.value] == name && name !in names[..r.value]
  {
    if names == [] then None
    else if names[0] == name then Some(0)
    else
      match IndexOf(names[1..], name)
      case None => None
      case Some(i) =>
        assert names[..i + 1] == [names[0]] + names[1..][..i];
        Some(i + 1)
  }

  /** In a table without repetitions, a name is found at its own position. */
  lemma IndexOfDistinct(names: seq<string>, i: nat)
    requires Distinct(names) && i < |names|
    ensures IndexOf(names, names[i]) == Some(i)
  {
  }

  /**
   * The register an operand byte designates: the byte is taken modulo the
   * number of registers, so an out-of-range byte aliases a real register
   * instead of being rejected.
   */
  function RegisterSlot(b: nat): (k: RegIndex)
    ensures (b - k) % |RegisterNames| == 0
    ensures b < |RegisterNames| ==> k == b
  {
    b % |RegisterNames|
  }

  /**
   * A name-to-offset table for `names`: every name in the table and no
   * other has an entry, and the entry of a name is twice a position at which
   * the name occurs.
   */
  ghost predicate IsOffsetTable(names: seq<string>, m: map<string, nat>) {
    && (forall n :: n in m <==> n in names)
    && (forall n :: n in m ==> m[n] % 2 == 0 && m[n] / 2 < |names| && names[m[n] / 2] == n)
  }

  /** Builds the name-to-offset table by visiting the names in order. */
  method BuildRegisterMap(names: seq<string>) returns (m: map<string, nat>)
    ensures IsOffsetTable(names, m)
  {
    m := map[];
    var i := 0;
    while i < |names|
      invariant 0 <= i <= |names|
      invariant forall n :: n in m <==> n in names[..i]
      invariant forall n :: n in m ==> m[n] % 2 == 0 && m[n] / 2 < i && names[m[n] / 2] == n
    {
      assert names[..i + 1] == names[..i] + [names[i]];
      m := m[names[i] := 2 * i];
      i := i + 1;
    }
    assert names[..i] == names;
  }

  /** For a table without repetitions, the entry of the i-th name is 2 * i. */
  lemma OffsetTableOfDistinct(names: seq<string>, m: map<string, nat>)
    requires Distinct(names) && IsOffsetTable(names, m)
    ensures forall i :: 0 <= i < |names| ==> names[i] in m && m[names[i]] == 2 * i
    ensures forall n :: n in m ==> m[n] == 2 * IndexOf(names, n).value
  {
    forall n | n in m
      ensures m[n] == 2 * IndexOf(names, n).value
    {
      var j := IndexOf(names, n).value;
      assert names[m[n] / 2] == names[j];
    }
    forall i | 0 <= i < |names|
      ensures names[i] in m && m[names[i]] == 2 * i
    {
      IndexOfDistinct(names, i);
    }
  }

  /** The table built for the ten register names sends the i-th name to 2 * i. */
  lemma RegisterOffsetTable(m: map<string, nat>)
    requires IsOffsetTable(RegisterNames, m)
    ensures forall i :: 0 <= i < |RegisterNames| ==> RegisterNames[i] in m && m[RegisterNames[i]] == 2 * i
  {
    RegisterNamesDistinct();
    OffsetTableOfDistinct(RegisterNames, m);
  }
}

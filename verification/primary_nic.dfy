/**
 Selection of the primary network interface of a scale-set VM
 (`getPrimaryInterfaceIDForScaleSetVM`): a sole interface wins whatever its
 flag says; otherwise the first interface flagged primary wins; otherwise the
 result is an error naming the VM.
 */
module PrimaryNic {
  import opened VmssTypes

  /** True when no reference in `nics[..k]` is flagged primary. */
  ghost predicate NoPrimaryBefore(nics: seq<NicRef>, k: int)
    requires 0 <= k <= |nics|
  {
    forall j :: 0 <= j < k ==> !nics[j].primary
  }

  /** The selection rule stated on its own: index `i` is the one the lookup
      must choose from `nics`. */
  ghost predicate ChosenIndex(nics: seq<NicRef>, i: int)
  {
    && 0 <= i < |nics|
    && if |nics| == 1 then i == 0
       else nics[i].primary && NoPrimaryBefore(nics, i)
  }

  /** The position of the first reference flagged primary, scanning in list
      order; `None` when none is flagged. */
  function FirstPrimaryIndex(nics: seq<NicRef>): (r: Option<nat>)
    ensures r.Some? ==> r.value < |nics| && nics[r.value].primary && NoPrimaryBefore(nics, r.value)
    ensures r.None? ==> NoPrimaryBefore(nics, |nics|)
  {
    if |nics| == 0 then None
    else if nics[0].primary then Some(0)
    else match FirstPrimaryIndex(nics[1..])
      case None => None
      case Some(k) => Some(k + 1)
  }

  /** `getPrimaryInterfaceIDForScaleSetVM`: the full ID of the VM's primary
      NIC, or `""` with an error naming the VM. */
  function PrimaryInterfaceID(machine: Machine): (r: (string, Option<Error>))
    // a sole interface is chosen without consulting its flag
    ensures |machine.networkInterfaces| == 1 ==> r == (machine.networkInterfaces[0].id, None)
    // success exactly when the rule picks an index, and then it is that index's ID
    ensures r.1.None? <==> exists i :: ChosenIndex(machine.networkInterfaces, i)
    ensures forall i :: ChosenIndex(machine.networkInterfaces, i) ==>
              r == (machine.networkInterfaces[i].id, None)
    // the failure cases: an empty list, or two or more with none flagged
    ensures r.1.Some? <==>
              |machine.networkInterfaces| == 0 ||
              (|machine.networkInterfaces| >= 2 && NoPrimaryBefore(machine.networkInterfaces, |machine.networkInterfaces|))
    ensures r.1.Some? ==> r == ("", Some(NoPrimaryNic(machine.name)))
  {
    var nics := machine.networkInterfaces;
    if |nics| == 1 then
      assert ChosenIndex(nics, 0);
      ChosenIndexUnique(nics, 0);
      (nics[0].id, None)
    else
      match FirstPrimaryIndex(nics)
      case Some(k) =>
        assert ChosenIndex(nics, k);
        ChosenIndexUnique(nics, k);
        (nics[k].id, None)
      case None =>
        assert forall i :: !ChosenIndex(nics, i);
        ("", Some(NoPrimaryNic(machine.name)))
  }

  /** The rule never picks two indices: the tie-break between several
      primaries is "first in list order". */
  lemma ChosenIndexUnique(nics: seq<NicRef>, i: int)
    requires ChosenIndex(nics, i)
    ensures forall j :: ChosenIndex(nics, j) ==> j == i
  {
  }

  /** Any successful result is the ID of some reference in the input list. */
  lemma ResultIsListed(machine: Machine)
    ensures PrimaryInterfaceID(machine).1.None? ==>
              exists i :: 0 <= i < |machine.networkInterfaces| &&
                PrimaryInterfaceID(machine).0 == machine.networkInterfaces[i].id
  {
  }

  /** With two or more references and several flagged primary, the first one
      flagged wins: there is no uniqueness check. */
  lemma FirstOfSeveralPrimariesWins(machine: Machine, i: int, j: int)
    requires |machine.networkInterfaces| >= 2
    requires 0 <= i < j < |machine.networkInterfaces|
    requires machine.networkInterfaces[i].primary && machine.networkInterfaces[j].primary
    requires NoPrimaryBefore(machine.networkInterfaces, i)
    ensures PrimaryInterfaceID(machine) == (machine.networkInterfaces[i].id, None)
  {
  }

  /** The outcome depends only on the references up to and including the
      first one flagged primary: flags, IDs and length after it are never
      read. */
  lemma LaterReferencesIgnored(m1: Machine, m2: Machine, k: nat)
    requires k < |m1.networkInterfaces| && k < |m2.networkInterfaces|
    requires m1.networkInterfaces[..k + 1] == m2.networkInterfaces[..k + 1]
    requires m1.networkInterfaces[k].primary
    ensures PrimaryInterfaceID(m1) == PrimaryInterfaceID(m2)
  {
  }

  /** The sole interface's `Primary` flag is never consulted. */
  lemma SoleInterfaceFlagIgnored(machine: Machine, flag: bool)
    requires |machine.networkInterfaces| == 1
    ensures var ref := machine.networkInterfaces[0];
            PrimaryInterfaceID(machine.(networkInterfaces := [ref.(primary := flag)])) ==
              (ref.id, None)
  {
  }
}

/**
 End-to-end runs of the scale-set address lookup on small concrete VMs, for
 any collaborators that give the stated answers.
 */
module VmssScenarios {
  import opened VmssTypes
  import opened PrimaryNic
  import opened VmssIP

  const nic0Id := "/subscriptions/s/resourceGroups/rg/providers/Microsoft.Compute/virtualMachineScaleSets/ss/virtualMachines/0/networkInterfaces/nic-0"

  /** A VM with a single interface (not flagged primary) whose interface has
      one configuration at 10.0.0.4 resolves to 10.0.0.4 with a nil error. */
  lemma SingleNicResolves(az: Cloud, nic: Interface)
    requires nic.ipConfigurations == [IPConfig(true, "10.0.0.4")]
    requires az.getScaleSetsVM("vm-0") == (Machine("vm-0", [NicRef(nic0Id, false)]), true, None)
    requires az.getLastSegment(nic0Id) == ("nic-0", None)
    requires az.getInterface(az.resourceGroup, "nic-0") == (nic, None)
    requires az.getPrimaryIPConfig(nic) == (IPConfig(true, "10.0.0.4"), None)
    ensures GetIPForVMSSMachine(az, "vm-0").address == "10.0.0.4"
    ensures GetIPForVMSSMachine(az, "vm-0").err == None
  {
  }

  /** A VM with two interfaces, neither flagged primary, fails with an error
      naming the VM, and the interface fetch never runs. */
  lemma NoFlaggedNicFails(az: Cloud, a: string, b: string)
    requires az.getScaleSetsVM("vm-1") == (Machine("vm-1", [NicRef(a, false), NicRef(b, false)]), true, None)
    ensures GetIPForVMSSMachine(az, "vm-1") ==
              Resolution("", Some(NoPrimaryNic("vm-1")),
                         [LookupVM("vm-1"), SelectPrimaryNic(Machine("vm-1", [NicRef(a, false), NicRef(b, false)]))])
  {
  }

  /** With two interfaces both flagged primary, the first one is fetched. */
  lemma FirstFlaggedNicIsFetched(az: Cloud, a: string, b: string)
    requires az.getScaleSetsVM("vm-2") == (Machine("vm-2", [NicRef(a, true), NicRef(b, true)]), true, None)
    requires az.getLastSegment(a).1 == None
    ensures GetIPForVMSSMachine(az, "vm-2").steps[2] == LastSegment(a)
    ensures GetIPForVMSSMachine(az, "vm-2").steps[3] ==
              GetInterface(az.resourceGroup, az.getLastSegment(a).0)
  {
  }
}

/**
 The values the Azure scale-set address lookup reads: the scale-set VM record
 with its network-interface references, the network interface with its IP
 configurations, and the errors the lookup can return.

 Go's `(value, error)` results are modelled as Dafny tuples whose second part is
 an `Option<Error>`: `None` is Go's `nil` error.
 */
module VmssTypes {

  /** Go's nilable `error`: `None` is `nil`. */
  datatype Option<+T> = None | Some(value: T)

  /** The errors the lookup can hand back to its caller. */
  datatype Error =
    /** `cloudprovider.InstanceNotFound`: the scale-set VM does not exist. */
    | InstanceNotFound
    /** "failed to find a primary nic for the vm", naming the VM. */
    | NoPrimaryNic(vmName: string)
    /** A failure of a remote call or of a parser. Collaborators may return
        any `Error` value, this one included; the lookup never inspects a
        collaborator's error, it only passes it on. */
    | Remote(detail: string)

  /** One entry of `NetworkProfile.NetworkInterfaces`: the full resource ID of a
      NIC and its `Primary` flag. Both pointers are taken to be non-nil. */
  datatype NicRef = NicRef(id: string, primary: bool)

  /** A `compute.VirtualMachineScaleSetVM`, reduced to what the lookup reads:
      its name and the ordered list of its network-interface references. */
  datatype Machine = Machine(name: string, networkInterfaces: seq<NicRef>)

  /** One IP configuration of a network interface. */
  datatype IPConfig = IPConfig(primary: bool, privateIPAddress: string)

  /** A network interface as returned by `InterfacesClient.Get`. */
  datatype Interface = Interface(name: string, ipConfigurations: seq<IPConfig>)
}

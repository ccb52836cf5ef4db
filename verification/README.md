# Azure scale-set VM private-IP lookup, modelled in Dafny

This project models the Kubernetes Azure cloud provider's lookup of a
virtual-machine-scale-set (VMSS) instance's private IP address
(`pkg/cloudprovider/providers/azure/azure_util_vmss.go`). It has two parts:

- **Primary-NIC selection** (`getPrimaryInterfaceIDForScaleSetVM`). It is modelled in
  full. Given the VM's ordered list of network-interface references:
  - if the list has exactly one element, that element's ID wins whatever its
    `Primary` flag says;
  - otherwise the ID of the first reference flagged primary wins;
  - otherwise the result is `""` with an error naming the VM.
- **The address lookup** (`getIPForVMSSMachine`). It is a fail-fast pipeline of
  five steps: VM lookup, NIC selection, last-segment extraction, interface fetch
  and IP-configuration selection. The four collaborators whose bodies are not
  part of this model are function-valued fields of the `Cloud` datatype, so
  every proof holds for any answers they give:
  - `getScaleSetsVM`;
  - `getLastSegment`;
  - `InterfacesClient.Get`;
  - `getPrimaryIPConfig`.

Go's `(value, error)` results are modelled as Dafny tuples. Their second part is
an `Option<Error>`, where `None` is Go's `nil`. So "returns `""` plus an error"
and "returns the address with a nil error" can be stated literally.

A run of the lookup also records the steps it performed (`Resolution.steps`).
This is a modelling device and not part of the Go return value. With it,
"nothing runs after the first failure" becomes a statement about the result.
`FailFastRun` states the lookup's contract without reference to its body:
- the run starts with the VM lookup;
- each step consumes the value the previous step produced;
- every step but the last succeeded;
- the last step's error is returned unchanged, with `""`;
- success is reported only after the fifth step, with the chosen
  configuration's private address.

`FailFastRunIsUnique` shows that this contract determines the result
completely.

Modules:
- `VmssTypes` (`vmss_types.dfy`): the data model.
- `PrimaryNic` (`primary_nic.dfy`): the selection rule.
- `VmssIP` (`vmss_ip.dfy`): the pipeline.
- `VmssScenarios` (`vmss_scenarios.dfy`): end-to-end cases.

## Model

| member | source | states |
|---|---|---|
| PrimaryNic.FirstPrimaryIndex | pkg/cloudprovider/providers/azure/azure_util_vmss.go:77-81 | the scan in list order finds a reference flagged primary with none flagged before it, or reports that no reference is flagged |
| PrimaryNic.PrimaryInterfaceID | pkg/cloudprovider/providers/azure/azure_util_vmss.go:72-84 | a sole reference's ID is returned with a nil error; otherwise it succeeds exactly when the selection rule picks an index, and then returns that index's ID; it fails exactly when the list is empty or has two or more references with none flagged, and then returns `""` with an error naming the VM |
| PrimaryNic.ChosenIndexUnique | pkg/cloudprovider/providers/azure/azure_util_vmss.go:77-81 | the selection rule never picks two indices: among several primaries only the first qualifies |
| PrimaryNic.ResultIsListed | pkg/cloudprovider/providers/azure/azure_util_vmss.go:73-81 | any successful result is the ID of some reference in the input list |
| PrimaryNic.FirstOfSeveralPrimariesWins | pkg/cloudprovider/providers/azure/azure_util_vmss.go:77-81 | with two or more references and several flagged primary, the first flagged one wins; there is no uniqueness check |
| PrimaryNic.LaterReferencesIgnored | pkg/cloudprovider/providers/azure/azure_util_vmss.go:77-81 | two lists that agree up to and including a reference flagged primary give the same result, whatever their lengths, so later references and flags are never read |
| PrimaryNic.SoleInterfaceFlagIgnored | pkg/cloudprovider/providers/azure/azure_util_vmss.go:73-75 | with a single reference its `Primary` flag can be anything: its ID is returned with a nil error |
| VmssIP.GetIPForVMSSMachine | pkg/cloudprovider/providers/azure/azure_util_vmss.go:29-69 | every run meets the fail-fast contract: starts with the VM lookup, chains each step's value into the next, stops at the first failing step and returns that step's error unchanged with `""`, and on success returns the private address of the configuration `getPrimaryIPConfig` picked, with a nil error |
| VmssIP.FailFastRunIsUnique | pkg/cloudprovider/providers/azure/azure_util_vmss.go:29-69 | any result meeting the fail-fast contract is the lookup's result, so that contract describes the lookup completely |
| VmssIP.MissingVMShortCircuits | pkg/cloudprovider/providers/azure/azure_util_vmss.go:30-34 | a VM reported as not existing yields `("", InstanceNotFound)` even if the lookup also returned an error, and no other step runs |
| VmssIP.LookupErrorPropagated | pkg/cloudprovider/providers/azure/azure_util_vmss.go:35-38 | an existing VM whose lookup failed yields `""` and the lookup's own error, and no other step runs |
| VmssIP.FetchUsesChosenNicName | pkg/cloudprovider/providers/azure/azure_util_vmss.go:40-54 | the name passed to the interface fetch, in the configured resource group, is the last-segment result of the ID the selection rule chose from the VM's interfaces |
| VmssIP.OnlyStepsTakenMatter | pkg/cloudprovider/providers/azure/azure_util_vmss.go:29-69 | the result depends only on the collaborators' answers to the steps that were taken, and on the resource group only if the interface fetch ran, so no step after the first failure is consulted |
| VmssScenarios.SingleNicResolves | pkg/cloudprovider/providers/azure/azure_util_vmss.go:29-75 | a VM with one interface (not flagged primary) whose only configuration, the one `getPrimaryIPConfig` picks, holds 10.0.0.4 resolves to 10.0.0.4 with a nil error |
| VmssScenarios.NoFlaggedNicFails | pkg/cloudprovider/providers/azure/azure_util_vmss.go:40-44 | a VM with two interfaces, neither flagged, fails with an error naming the VM after the selection step, and the interface fetch never runs |
| VmssScenarios.FirstFlaggedNicIsFetched | pkg/cloudprovider/providers/azure/azure_util_vmss.go:40-54 | with two interfaces both flagged primary, the first one's ID goes to last-segment extraction and its name goes to the fetch |

## Left out

- `operationPollRateLimiter.Accept()` (lines 30 and 52): it is a blocking rate limiter shared between callers. It has no effect on the result.
- `glog` logging: a side effect with no behavioural content.
- The Azure SDK calls `getScaleSetsVM` and `InterfacesClient.Get`: these are remote I/O. Their outcomes are inputs: fields of `Cloud`.
- The bodies of `getLastSegment` and `getPrimaryIPConfig`: they are not part of this model. They are opaque fields of `Cloud` that return a value or an error. As a result, these are not modelled:
  - what `getLastSegment` returns for an identifier with no `/`;
  - the selection rule for IP configurations.
- The third argument of `InterfacesClient.Get` is always `""` in the source. The fetch is modelled as a function of resource group and NIC name only.
- Go nil-pointer panics: `NetworkProfile`, `NetworkInterfaces`, `ID`, `Primary`, `Name` and `PrivateIPAddress` are all taken to be non-nil.
- Error message text: the selection error is `NoPrimaryNic(vmName)`, which carries the VM's name but not the formatted message.

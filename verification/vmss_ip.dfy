/**
 The private-IP lookup of a scale-set VM (`getIPForVMSSMachine`): a fail-fast
 pipeline of five steps. The collaborators whose bodies are not part of this
 model (the VM lookup, the last-path-segment parser, the network-interface
 fetch and the primary-IP-configuration picker) are given as function-valued
 fields of `Cloud`; the model proves the control flow around their answers.

 Each run also records the steps it performed, so that "nothing runs after
 the first failure" can be stated.
 */
module VmssIP {
  import opened VmssTypes
  import opened PrimaryNic

  /** The parts of the cloud provider the lookup uses. Each collaborator
      returns Go's `(value, error)` pair; `getScaleSetsVM` also returns
      whether the VM exists. */
  datatype Cloud = Cloud(
    resourceGroup: string,
    getScaleSetsVM: string -> (Machine, bool, Option<Error>),
    getLastSegment: string -> (string, Option<Error>),
    getInterface: (string, string) -> (Interface, Option<Error>),
    getPrimaryIPConfig: Interface -> (IPConfig, Option<Error>))

  /** One step of the pipeline, with the argument it was given. */
  datatype Step =
    | LookupVM(nodeName: string)
    | SelectPrimaryNic(machine: Machine)
    | LastSegment(nicID: string)
    | GetInterface(resourceGroup: string, nicName: string)
    | SelectPrimaryIPConfig(nic: Interface)

  /** The Go result `(address, err)` together with the steps that ran, in order. */
  datatype Resolution = Resolution(address: string, err: Option<Error>, steps: seq<Step>)

  /** The error a step reports on its own. For the VM lookup a missing VM
      counts as `InstanceNotFound` whatever error the lookup also returned. */
  function StepError(az: Cloud, s: Step): (e: Option<Error>)
  {
    match s
    case LookupVM(n) =>
      var (_, vmExists, err) := az.getScaleSetsVM(n);
      if !vmExists then Some(InstanceNotFound) else err
    case SelectPrimaryNic(m) => PrimaryInterfaceID(m).1
    case LastSegment(id) => az.getLastSegment(id).1
    case GetInterface(rg, name) => az.getInterface(rg, name).1
    case SelectPrimaryIPConfig(nic) => az.getPrimaryIPConfig(nic).1
  }

  /** `next` is the step that consumes the value produced by `prev`. */
  ghost predicate Feeds(az: Cloud, prev: Step, next: Step)
  {
    match (prev, next)
    case (LookupVM(n), SelectPrimaryNic(m)) => m == az.getScaleSetsVM(n).0
    case (SelectPrimaryNic(m), LastSegment(id)) => id == PrimaryInterfaceID(m).0
    case (LastSegment(id), GetInterface(rg, name)) =>
      rg == az.resourceGroup && name == az.getLastSegment(id).0
    case (GetInterface(rg, name), SelectPrimaryIPConfig(nic)) => nic == az.getInterface(rg, name).0
    case _ => false
  }

  /** The fail-fast contract of the lookup, stated without reference to its
      body: the run starts with the VM lookup; each step consumes the previous
      step's value; every step but the last succeeded; the last step's error
      is returned unchanged with `""`; and a success is only reported after
      the fifth step, with that step's configuration's private address. */
  ghost predicate FailFastRun(az: Cloud, nodeName: string, r: Resolution)
  {
    && 1 <= |r.steps| <= 5
    && r.steps[0] == LookupVM(nodeName)
    && (forall i :: 0 < i < |r.steps| ==> Feeds(az, r.steps[i - 1], r.steps[i]))
    && (forall i :: 0 <= i < |r.steps| - 1 ==> StepError(az, r.steps[i]).None?)
    && r.err == StepError(az, r.steps[|r.steps| - 1])
    && (r.err.Some? ==> r.address == "")
    && (r.err.None? ==>
          && |r.steps| == 5
          && r.steps[4].SelectPrimaryIPConfig?
          && r.address == az.getPrimaryIPConfig(r.steps[4].nic).0.privateIPAddress)
  }

  /** `getIPForVMSSMachine`. */
  function GetIPForVMSSMachine(az: Cloud, nodeName: string): (r: Resolution)
    ensures FailFastRun(az, nodeName, r)
  {
    var s0 := LookupVM(nodeName);
    var (machine, vmExists, err) := az.getScaleSetsVM(nodeName);
    if !vmExists then Resolution("", Some(InstanceNotFound), [s0])
    else if err.Some? then Resolution("", err, [s0])
    else
      var s1 := SelectPrimaryNic(machine);
      var (nicID, nicErr) := PrimaryInterfaceID(machine);
      if nicErr.Some? then Resolution("", nicErr, [s0, s1])
      else
        var s2 := LastSegment(nicID);
        var (nicName, segErr) := az.getLastSegment(nicID);
        if segErr.Some? then Resolution("", segErr, [s0, s1, s2])
        else
          var s3 := GetInterface(az.resourceGroup, nicName);
          var (nic, getErr) := az.getInterface(az.resourceGroup, nicName);
          if getErr.Some? then Resolution("", getErr, [s0, s1, s2, s3])
          else
            var s4 := SelectPrimaryIPConfig(nic);
            var (ipConfig, ipErr) := az.getPrimaryIPConfig(nic);
            if ipErr.Some? then Resolution("", ipErr, [s0, s1, s2, s3, s4])
            else Resolution(ipConfig.privateIPAddress, None, [s0, s1, s2, s3, s4])
  }

  /** The fail-fast contract admits exactly one run: it is a complete
      description of the lookup, not merely a property of it. */
  lemma FailFastRunIsUnique(az: Cloud, nodeName: string, r: Resolution)
    requires FailFastRun(az, nodeName, r)
    ensures r == GetIPForVMSSMachine(az, nodeName)
  {
    var g := GetIPForVMSSMachine(az, nodeName);
    FailFastRunsAgree(az, nodeName, r, g);
  }

  /** Two runs meeting the fail-fast contract are equal. */
  lemma FailFastRunsAgree(az: Cloud, nodeName: string, r: Resolution, g: Resolution)
    requires FailFastRun(az, nodeName, r) && FailFastRun(az, nodeName, g)
    ensures r == g
  {
    var n := if |r.steps| <= |g.steps| then |r.steps| else |g.steps|;
    // the shared prefix is forced by the chain of `Feeds`
    forall i | 0 <= i < n
      ensures r.steps[i] == g.steps[i]
    {
      StepsAgreeUpTo(az, nodeName, r, g, i);
    }
    if |r.steps| < |g.steps| {
      assert false;
    } else if |g.steps| < |r.steps| {
      assert false;
    }
    assert r.steps == g.steps;
  }

  /** Step `i` of two fail-fast runs is the same step. */
  lemma {:induction false} StepsAgreeUpTo(az: Cloud, nodeName: string, r: Resolution, g: Resolution, i: nat)
    requires FailFastRun(az, nodeName, r) && FailFastRun(az, nodeName, g)
    requires i < |r.steps| && i < |g.steps|
    ensures r.steps[i] == g.steps[i]
  {
    if i > 0 {
      StepsAgreeUpTo(az, nodeName, r, g, i - 1);
      assert Feeds(az, r.steps[i - 1], r.steps[i]);
      assert Feeds(az, g.steps[i - 1], g.steps[i]);
    }
  }

  /** `exists == false` is tested before the lookup's error: a missing VM
      yields `("", InstanceNotFound)` even when the lookup also failed, and
      nothing else runs. */
  lemma MissingVMShortCircuits(az: Cloud, nodeName: string)
    requires !az.getScaleSetsVM(nodeName).1
    ensures GetIPForVMSSMachine(az, nodeName) ==
              Resolution("", Some(InstanceNotFound), [LookupVM(nodeName)])
  {
  }

  /** When the VM exists but the lookup failed, the lookup's error is returned
      unchanged with `""`, and nothing else runs. */
  lemma LookupErrorPropagated(az: Cloud, nodeName: string)
    requires az.getScaleSetsVM(nodeName).1 && az.getScaleSetsVM(nodeName).2.Some?
    ensures GetIPForVMSSMachine(az, nodeName) ==
              Resolution("", az.getScaleSetsVM(nodeName).2, [LookupVM(nodeName)])
  {
  }

  /** The NIC name handed to the interface fetch is the last path segment of
      the ID the selection rule chose from the VM's interface list. */
  lemma FetchUsesChosenNicName(az: Cloud, nodeName: string)
    requires |GetIPForVMSSMachine(az, nodeName).steps| >= 4
    ensures var r := GetIPForVMSSMachine(az, nodeName);
            var nics := az.getScaleSetsVM(nodeName).0.networkInterfaces;
            exists i :: ChosenIndex(nics, i) &&
              r.steps[2] == LastSegment(nics[i].id) &&
              r.steps[3] == GetInterface(az.resourceGroup, az.getLastSegment(nics[i].id).0)
  {
  }

  /** The collaborators give the same answers to every step in `steps`; the
      configured resource group matters only once the interface fetch runs. */
  ghost predicate SameAnswers(az1: Cloud, az2: Cloud, steps: seq<Step>)
  {
    forall i :: 0 <= i < |steps| ==>
      match steps[i]
      case LookupVM(n) => az1.getScaleSetsVM(n) == az2.getScaleSetsVM(n)
      case SelectPrimaryNic(_) => true
      case LastSegment(id) => az1.getLastSegment(id) == az2.getLastSegment(id)
      case GetInterface(rg, name) =>
        && az1.resourceGroup == rg == az2.resourceGroup
        && az1.getInterface(rg, name) == az2.getInterface(rg, name)
      case SelectPrimaryIPConfig(nic) => az1.getPrimaryIPConfig(nic) == az2.getPrimaryIPConfig(nic)
  }

  /** Nothing runs after the first failure: the result depends only on the
      collaborators' answers to the steps that were taken, so changing what
      any later collaborator would have answered changes nothing. */
  lemma OnlyStepsTakenMatter(az1: Cloud, az2: Cloud, nodeName: string)
    requires SameAnswers(az1, az2, GetIPForVMSSMachine(az1, nodeName).steps)
    ensures GetIPForVMSSMachine(az1, nodeName) == GetIPForVMSSMachine(az2, nodeName)
  {
    var r := GetIPForVMSSMachine(az1, nodeName);
    var steps := r.steps;
    assert steps[0] == LookupVM(nodeName);
    if |steps| > 2 {
      assert steps[2].LastSegment?;
    }
    if |steps| > 3 {
      assert steps[3].GetInterface?;
    }
    if |steps| > 4 {
      assert steps[4].SelectPrimaryIPConfig?;
    }
  }
}

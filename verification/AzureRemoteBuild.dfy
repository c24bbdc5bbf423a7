/**
 The Azure remote build: provisioners run one per reconcile, and required evidence, carried inside the
 reference from the reconcile that produced it, gates the registration of the image.
 */
module AzureRemoteBuild {
  import opened Wrappers
  import opened Calls
  import opened Runs
  import opened ByteStrings
  import opened AzureBuildRef
  import opened AzureEvidence

  /** A provisioner: whether its type is `evidence`, and whether it compiles to a Run Command. */
  datatype Provisioner = Provisioner(isEvidence: bool, compiles: bool)

  /** `safeID` is the build ID reduced to the characters Azure resource names allow. */
  datatype Request = Request(
    buildID: Bytes, safeID: Bytes, marketplace: bool, provisioners: seq<Provisioner>,
    evidenceRequired: bool, registry: Bytes, generalized: bool)

  /** The answers in one reconcile; `evidence` is what an evidence command printed, None if nothing usable. */
  datatype Replies = Replies(
    inputValid: bool, diskCreated: bool, vmCreated: Option<Bytes>, commandSucceeded: bool,
    evidence: Option<Evidence>, deallocated: bool, generalizedOk: bool, registered: Option<Bytes>, cleanedUp: bool)

  datatype Effect =
    | CreateDisk(disk: Bytes)
    | CreateVM(vm: Bytes)
    | RunCommand(vm: Bytes, index: int, ok: bool, evidence: Option<Evidence>)
    | Deallocate(vm: Bytes)
    | Generalize(vm: Bytes)
    | RegisterImage(vm: Bytes, reply: Option<Bytes>)
    | DeleteResources(vm: Bytes, disk: Bytes)

  datatype Outcome = Progress(ref: Ref) | Done(ref: Ref, image: Bytes) | Error

  type Trace = seq<Effect>

  function VMName(req: Request): Bytes {
    "ib-" + req.safeID + "-vm"
  }

  function DiskName(req: Request): Bytes {
    "ib-" + req.safeID + "-osdisk"
  }

  function Failed(ref: Ref, trace: Trace): (Outcome, Trace) {
    (Error, trace + [DeleteResources(ref.vmName, ref.diskName)])
  }

  function StartVM(req: Request, env: Replies): (Outcome, Trace) {
    var ref := EMPTY_REF.(buildID := req.buildID, vmName := VMName(req),
                          diskName := if req.marketplace then [] else DiskName(req));
    var disk := if req.marketplace then [] else [CreateDisk(ref.diskName)];
    if !req.marketplace && !env.diskCreated then (Error, disk)
    else if env.vmCreated.None? then Failed(ref, disk + [CreateVM(ref.vmName)])
    else (Progress(ref.(vmID := env.vmCreated.value)), disk + [CreateVM(ref.vmName)])
  }

  function RunProvisioner(req: Request, ref: Ref, env: Replies): (Outcome, Trace)
    requires 0 <= ref.provisionerIndex < |req.provisioners|
  {
    var spec := req.provisioners[ref.provisionerIndex];
    if !spec.compiles then Failed(ref, [])
    else
      var evidence := if spec.isEvidence && env.commandSucceeded then env.evidence else None;
      var ran := [RunCommand(ref.vmName, ref.provisionerIndex, env.commandSucceeded, evidence)];
      if !env.commandSucceeded || (spec.isEvidence && evidence.None?) then Failed(ref, ran)
      else
        var carried := if evidence.Some? then evidence.value else ref.carried;
        (Progress(ref.(provisionerIndex := ref.provisionerIndex + 1, carried := carried)), ran)
  }

  function FinishVM(req: Request, ref: Ref, env: Replies): (Outcome, Trace) {
    var stop := [Deallocate(ref.vmName)];
    var generalize := if req.generalized then stop + [Generalize(ref.vmName)] else stop;
    var register := generalize + [RegisterImage(ref.vmName, env.registered)];
    if req.evidenceRequired && !Accepted(req.registry, EvidenceOf(ref)) then Failed(ref, [])
    else if !env.deallocated then Failed(ref, stop)
    else if req.generalized && !env.generalizedOk then Failed(ref, generalize)
    else if env.registered.None? then Failed(ref, register)
    else
      var cleaned := register + [DeleteResources(ref.vmName, ref.diskName)];
      if !env.cleanedUp then (Error, cleaned)
      else (Done(ref.(imageID := env.registered.value), env.registered.value), cleaned)
  }

  function ReconcileRef(req: Request, ref: Ref, env: Replies): (Outcome, Trace)
    requires 0 <= ref.provisionerIndex
  {
    if ref.imageID != [] then (Done(ref, ref.imageID), [])
    else if ref.vmName == [] then StartVM(req, env)
    else if ref.provisionerIndex < |req.provisioners| then RunProvisioner(req, ref, env)
    else FinishVM(req, ref, env)
  }

  function Reconcile(req: Request, operationRef: Bytes, env: Replies): (Outcome, Trace) {
    var ref := Parse(operationRef);
    if !env.inputValid || ref.None? then (Error, [])
    else ReconcileRef(req, ref.value, env)
  }

  /** One reconcile; with `crash == Some(k)` the operator dies after k calls and nothing is persisted. */
  datatype Attempt = Attempt(env: Replies, crash: Option<nat>)

  datatype World = World(ref: Bytes, trace: Trace)

  function Step(req: Request, w: World, attempt: Attempt): World {
    var (outcome, effects) := Reconcile(req, w.ref, attempt.env);
    if attempt.crash.Some? then World(w.ref, w.trace + Upto(effects, attempt.crash.value))
    else World(if outcome.Error? then w.ref else ToString(outcome.ref), w.trace + effects)
  }

  function StepOf(req: Request): (World, Attempt) -> World {
    (w, attempt) => Step(req, w, attempt)
  }

  function Run(req: Request, attempts: seq<Attempt>): World {
    RunFrom(StepOf(req), World([], []), attempts)
  }

  ghost predicate Ran(t: Trace, j: int, vm: Bytes) {
    exists evidence :: RunCommand(vm, j, true, evidence) in t
  }

  ghost predicate AllRan(t: Trace, n: int, vm: Bytes) {
    forall j :: 0 <= j < n ==> Ran(t, j, vm)
  }

  /** `e` came out of the last evidence provisioner before index n, run on this VM. */
  ghost predicate FromLastEvidence(req: Request, t: Trace, n: int, vm: Bytes, e: Evidence)
    requires n <= |req.provisioners|
  {
    exists k :: 0 <= k < n && req.provisioners[k].isEvidence && RunCommand(vm, k, true, Some(e)) in t
      && forall j :: k < j < n ==> !req.provisioners[j].isEvidence
  }

  /** The calls before RegisterImage for a VM: it went through the gate and was stopped as its image needs. */
  ghost predicate BehindGate(req: Request, past: Trace, vm: Bytes) {
    Gate(req, past, vm) && Deallocate(vm) in past && (req.generalized ==> Generalize(vm) in past)
  }

  /**
   The gate for the image of a VM: all provisioners ran on it, and required evidence is that of its last
   evidence provisioner and accepted.
   */
  ghost predicate Gate(req: Request, t: Trace, vm: Bytes) {
    AllRan(t, |req.provisioners|, vm)
    && (req.evidenceRequired ==>
          exists e :: FromLastEvidence(req, t, |req.provisioners|, vm, e) && Accepted(req.registry, Some(e)))
  }

  ghost predicate Allowed(req: Request, past: Trace, e: Effect) {
    match e
    case RegisterImage(vm, _) => BehindGate(req, past, vm)
    case Generalize(vm) => Deallocate(vm) in past
    case RunCommand(vm, k, _, _) => 0 <= k < |req.provisioners| && AllRan(past, k, vm)
    case _ => true
  }

  ghost function Guard(req: Request): (Trace, Effect) -> bool {
    (past, e) => Allowed(req, past, e)
  }

  ghost predicate Safe(req: Request, t: Trace) {
    AllAllowed(Guard(req), t)
  }

  ghost predicate RefInv(req: Request, ref: Ref, t: Trace) {
    && 0 <= ref.provisionerIndex <= |req.provisioners|
    && (ref.vmName == [] ==> ref.provisionerIndex == 0)
    && AllRan(t, ref.provisionerIndex, ref.vmName)
    && (ref.carried.status != [] ==> FromLastEvidence(req, t, ref.provisionerIndex, ref.vmName, ref.carried))
    && (ref.imageID != [] ==> Gate(req, t, ref.vmName) && RegisterImage(ref.vmName, Some(ref.imageID)) in t)
  }

  ghost predicate Inv(req: Request, w: World) {
    Safe(req, w.trace) && Parse(w.ref).Some? && RefInv(req, Parse(w.ref).value, w.trace)
  }

  lemma GateGrows(req: Request, t: Trace, more: Trace, n: int, vm: Bytes)
    requires n <= |req.provisioners|
    ensures AllRan(t, n, vm) ==> AllRan(t + more, n, vm)
    ensures forall e :: FromLastEvidence(req, t, n, vm, e) ==> FromLastEvidence(req, t + more, n, vm, e)
    ensures Gate(req, t, vm) ==> Gate(req, t + more, vm)
  {
    forall j | Ran(t, j, vm) ensures Ran(t + more, j, vm) {
    }
    forall e | FromLastEvidence(req, t, |req.provisioners|, vm, e)
      ensures FromLastEvidence(req, t + more, |req.provisioners|, vm, e)
    {
    }
  }

  lemma InvGrows(req: Request, ref: Ref, t: Trace, more: Trace)
    requires RefInv(req, ref, t)
    ensures RefInv(req, ref, t + more)
  {
    GateGrows(req, t, more, ref.provisionerIndex, ref.vmName);
  }

  /** The index stays, or moves by one because this index's command ran without error. */
  predicate Advances(ref: Ref, next: Ref, t: Trace) {
    || next.provisionerIndex == ref.provisionerIndex
    || (next.provisionerIndex == ref.provisionerIndex + 1
        && exists e :: e in t && e.RunCommand? && e.index == ref.provisionerIndex && e.ok)
  }

  ghost predicate GoodStep(req: Request, ref: Ref, t: Trace, step: (Outcome, Trace)) {
    && Safe(req, t + step.1)
    && (!step.0.Error? ==> RefInv(req, step.0.ref, t + step.1) && Advances(ref, step.0.ref, step.1))
  }

  lemma GoodStartVM(req: Request, ref: Ref, env: Replies, t: Trace)
    requires Safe(req, t) && RefInv(req, ref, t) && ref.provisionerIndex == 0
    ensures GoodStep(req, ref, t, StartVM(req, env))
  {
    AllowedAnyTime(Guard(req), t, StartVM(req, env).1);
  }

  lemma GoodProvisioner(req: Request, ref: Ref, env: Replies, t: Trace)
    requires Safe(req, t) && RefInv(req, ref, t)
    requires ref.imageID == [] && ref.vmName != [] && ref.provisionerIndex < |req.provisioners|
    ensures GoodStep(req, ref, t, RunProvisioner(req, ref, env))
  {
    var k := ref.provisionerIndex;
    var step := RunProvisioner(req, ref, env);
    if !req.provisioners[k].compiles {
      AllowedAnyTime(Guard(req), t, step.1);
    } else {
      var ran := step.1[0];
      AllowedAppend(Guard(req), t, ran);
      if step.0.Error? {
        AllowedAnyTime(Guard(req), t + [ran], step.1[1..]);
        assert t + step.1 == t + [ran] + step.1[1..];
      } else {
        assert step.1 == [ran] && ran in t + [ran];
        GateGrows(req, t, [ran], k, ref.vmName);
        assert Ran(t + [ran], k, ref.vmName);
        KeepsEvidence(req, ref, step.0.ref, t, ran);
      }
    }
  }

  lemma KeepsEvidence(req: Request, ref: Ref, next: Ref, t: Trace, ran: Effect)
    requires RefInv(req, ref, t) && ref.provisionerIndex < |req.provisioners|
    requires ran.RunCommand? && ran.ok && ran.index == ref.provisionerIndex && ran.vm == ref.vmName
    requires ran.evidence.Some? <==> req.provisioners[ref.provisionerIndex].isEvidence
    requires next.carried == if ran.evidence.Some? then ran.evidence.value else ref.carried
    ensures next.carried.status != [] ==>
      FromLastEvidence(req, t + [ran], ref.provisionerIndex + 1, ref.vmName, next.carried)
  {
    var k := ref.provisionerIndex;
    if ran.evidence.Some? {
      assert RunCommand(ref.vmName, k, true, Some(next.carried)) in t + [ran];
    } else if next.carried.status != [] {
      var last :| 0 <= last < k && req.provisioners[last].isEvidence
        && RunCommand(ref.vmName, last, true, Some(ref.carried)) in t
        && forall j :: last < j < k ==> !req.provisioners[j].isEvidence;
      assert RunCommand(ref.vmName, last, true, Some(next.carried)) in t + [ran];
      assert forall j :: last < j < k + 1 ==> !req.provisioners[j].isEvidence;
    }
  }

  /** Everything before RegisterImage: the VM is deallocated, then generalized when that is asked for. */
  lemma SafeStop(req: Request, t: Trace, vm: Bytes, generalize: bool)
    requires Safe(req, t)
    ensures Safe(req, t + [Deallocate(vm)])
    ensures Safe(req, t + [Deallocate(vm), Generalize(vm)])
  {
    AllowedAppend(Guard(req), t, Deallocate(vm));
    AllowedAppend(Guard(req), t + [Deallocate(vm)], Generalize(vm));
    assert t + [Deallocate(vm)] + [Generalize(vm)] == t + [Deallocate(vm), Generalize(vm)];
  }

  lemma GoodRegister(req: Request, ref: Ref, reply: Option<Bytes>, stopped: Trace, rest: Trace, t: Trace)
    requires Safe(req, t + stopped) && Gate(req, t, ref.vmName) && RefInv(req, ref, t)
    requires Deallocate(ref.vmName) in stopped && (req.generalized ==> Generalize(ref.vmName) in stopped)
    requires forall e :: e in rest ==> e.DeleteResources?
    ensures var step := stopped + [RegisterImage(ref.vmName, reply)] + rest;
      && Safe(req, t + step) && RefInv(req, ref, t + step)
      && Gate(req, t + step, ref.vmName) && RegisterImage(ref.vmName, reply) in t + step
  {
    var register := RegisterImage(ref.vmName, reply);
    var step := stopped + [register] + rest;
    GateGrows(req, t, stopped, |req.provisioners|, ref.vmName);
    AllowedAppend(Guard(req), t + stopped, register);
    AllowedAnyTime(Guard(req), t + stopped + [register], rest);
    assert t + step == t + stopped + [register] + rest;
    InvGrows(req, ref, t, step);
    GateGrows(req, t, step, |req.provisioners|, ref.vmName);
  }

  /** The effects before RegisterImage. */
  function Stopping(req: Request, vm: Bytes): Trace {
    if req.generalized then [Deallocate(vm), Generalize(vm)] else [Deallocate(vm)]
  }

  /** How finishing can end before the registration: nothing, some of the stopping or all of it, then the cleanup. */
  ghost predicate Unregistered(ref: Ref, step: (Outcome, Trace)) {
    var cleanup := [DeleteResources(ref.vmName, ref.diskName)];
    && step.0.Error?
    && (step.1 == cleanup || step.1 == [Deallocate(ref.vmName)] + cleanup
        || step.1 == [Deallocate(ref.vmName), Generalize(ref.vmName)] + cleanup)
  }

  /** How finishing can end from the registration on. */
  ghost predicate Registered(req: Request, ref: Ref, reply: Option<Bytes>, step: (Outcome, Trace)) {
    && step.1 == Stopping(req, ref.vmName) + [RegisterImage(ref.vmName, reply)]
         + [DeleteResources(ref.vmName, ref.diskName)]
    && (step.0.Error? || (reply.Some? && step.0 == Done(ref.(imageID := reply.value), reply.value)))
  }

  predicate EvidenceIsGood(req: Request, ref: Ref) {
    req.evidenceRequired ==> Accepted(req.registry, EvidenceOf(ref))
  }

  lemma FinishShape(req: Request, ref: Ref, env: Replies)
    ensures Unregistered(ref, FinishVM(req, ref, env))
      || (EvidenceIsGood(req, ref) && Registered(req, ref, env.registered, FinishVM(req, ref, env)))
  {
  }

  lemma GoodUnregistered(req: Request, ref: Ref, t: Trace, step: (Outcome, Trace))
    requires Safe(req, t) && Unregistered(ref, step)
    ensures GoodStep(req, ref, t, step)
  {
    var cleanup, vm := [DeleteResources(ref.vmName, ref.diskName)], ref.vmName;
    SafeStop(req, t, vm, true);
    AllowedAnyTime(Guard(req), t, cleanup);
    AllowedAnyTime(Guard(req), t + [Deallocate(vm)], cleanup);
    AllowedAnyTime(Guard(req), t + [Deallocate(vm), Generalize(vm)], cleanup);
    assert t + ([Deallocate(vm)] + cleanup) == t + [Deallocate(vm)] + cleanup;
    assert t + ([Deallocate(vm), Generalize(vm)] + cleanup) == t + [Deallocate(vm), Generalize(vm)] + cleanup;
  }

  lemma GoodRegistered(req: Request, ref: Ref, reply: Option<Bytes>, t: Trace, step: (Outcome, Trace))
    requires Safe(req, t) && RefInv(req, ref, t) && Gate(req, t, ref.vmName) && Registered(req, ref, reply, step)
    ensures GoodStep(req, ref, t, step)
  {
    SafeStop(req, t, ref.vmName, req.generalized);
    GoodRegister(req, ref, reply, Stopping(req, ref.vmName), [DeleteResources(ref.vmName, ref.diskName)], t);
  }

  /** Evidence that was accepted is the last evidence the VM's provisioners printed. */
  lemma GoodEvidenceOpensGate(req: Request, ref: Ref, t: Trace)
    requires RefInv(req, ref, t) && ref.provisionerIndex == |req.provisioners| && EvidenceIsGood(req, ref)
    ensures Gate(req, t, ref.vmName)
  {
    if req.evidenceRequired {
      assert FromLastEvidence(req, t, |req.provisioners|, ref.vmName, ref.carried);
    }
  }

  lemma GoodFinish(req: Request, ref: Ref, env: Replies, t: Trace)
    requires Safe(req, t) && RefInv(req, ref, t)
    requires ref.imageID == [] && ref.vmName != [] && ref.provisionerIndex == |req.provisioners|
    ensures GoodStep(req, ref, t, FinishVM(req, ref, env))
  {
    var step := FinishVM(req, ref, env);
    FinishShape(req, ref, env);
    if Unregistered(ref, step) {
      GoodUnregistered(req, ref, t, step);
    } else {
      GoodEvidenceOpensGate(req, ref, t);
      GoodRegistered(req, ref, env.registered, t, step);
    }
  }

  lemma GoodReconcile(req: Request, ref: Ref, env: Replies, t: Trace)
    requires Safe(req, t) && RefInv(req, ref, t)
    ensures GoodStep(req, ref, t, ReconcileRef(req, ref, env))
  {
    if ref.imageID != [] {
      assert t + [] == t;
    } else if ref.vmName == [] {
      GoodStartVM(req, ref, env, t);
    } else if ref.provisionerIndex < |req.provisioners| {
      GoodProvisioner(req, ref, env, t);
    } else {
      GoodFinish(req, ref, env, t);
    }
  }

  /** What a good reference reads back as is still good: evidence without a status is never relied on. */
  lemma PersistKeepsInv(req: Request, ref: Ref, t: Trace)
    requires |req.provisioners| <= MAX_INT64 && RefInv(req, ref, t)
    ensures Parse(ToString(ref)) == Some(Printed(ref)) && RefInv(req, Printed(ref), t)
  {
    ParseOfToString(ref);
  }

  /** A crash keeps some of the calls and the old reference. */
  lemma CutOff(req: Request, ref: Ref, t: Trace, effects: Trace, k: nat)
    requires Safe(req, t + effects) && RefInv(req, ref, t)
    ensures Safe(req, t + Upto(effects, k)) && RefInv(req, ref, t + Upto(effects, k))
  {
    AllowedUpto(Guard(req), t, effects, k);
    InvGrows(req, ref, t, Upto(effects, k));
  }

  /** No step of a run, finished or cut off, leaves the invariant or moves the persisted index back. */
  lemma StepKeepsInv(req: Request, w: World, attempt: Attempt)
    requires |req.provisioners| <= MAX_INT64 && Inv(req, w)
    ensures Inv(req, Step(req, w, attempt))
    ensures Parse(w.ref).value.provisionerIndex <= Parse(Step(req, w, attempt).ref).value.provisionerIndex
  {
    var ref := Parse(w.ref).value;
    var (outcome, effects) := Reconcile(req, w.ref, attempt.env);
    if !attempt.env.inputValid {
      assert w.trace + [] == w.trace;
    } else {
      GoodReconcile(req, ref, attempt.env, w.trace);
      if attempt.crash.Some? {
        CutOff(req, ref, w.trace, effects, attempt.crash.value);
      } else if outcome.Error? {
        InvGrows(req, ref, w.trace, effects);
      } else {
        PersistKeepsInv(req, outcome.ref, w.trace + effects);
      }
    }
  }

  /** Every run from the empty reference: images are registered behind the gate, provisioners run in order. */
  lemma RunIsSafe(req: Request, attempts: seq<Attempt>)
    requires |req.provisioners| <= MAX_INT64
    ensures Inv(req, Run(req, attempts))
  {
    forall w, attempt | Inv(req, w) ensures Inv(req, Step(req, w, attempt)) {
      StepKeepsInv(req, w, attempt);
    }
    RunKeeps(StepOf(req), World([], []), w => Inv(req, w), attempts);
  }

  /**
   At every RegisterImage call of every run, all provisioners have run on that VM, which was deallocated (and
   generalized) before, and required evidence is that of its last evidence provisioner and meets the policy.
   */
  lemma RegistrationIsGated(req: Request, attempts: seq<Attempt>)
    requires |req.provisioners| <= MAX_INT64
    ensures var t := Run(req, attempts).trace;
      forall i :: 0 <= i < |t| && t[i].RegisterImage? ==> BehindGate(req, t[..i], t[i].vm)
  {
    var t := Run(req, attempts).trace;
    RunIsSafe(req, attempts);
    forall i | 0 <= i < |t| && t[i].RegisterImage? ensures BehindGate(req, t[..i], t[i].vm) {
      assert Allowed(req, t[..i], t[i]);
    }
  }

  /** Done is reported for an image already in the reference, or for one registered in this very reconcile. */
  lemma DoneImage(req: Request, ref: Ref, env: Replies)
    requires 0 <= ref.provisionerIndex <= |req.provisioners| && ReconcileRef(req, ref, env).0.Done?
    ensures var (outcome, effects) := ReconcileRef(req, ref, env);
      || (ref.imageID != [] && outcome.image == ref.imageID)
      || (ref.provisionerIndex == |req.provisioners|
          && (req.evidenceRequired ==> Accepted(req.registry, EvidenceOf(ref)))
          && RegisterImage(ref.vmName, Some(outcome.image)) in effects
          && DeleteResources(ref.vmName, ref.diskName) in effects)
  {
    if ref.imageID == [] && ref.vmName != [] && ref.provisionerIndex == |req.provisioners| {
      assert RegisterImage(ref.vmName, env.registered) in FinishVM(req, ref, env).1;
    }
  }

  /** What a reconcile from w that reported Done rests on. */
  ghost predicate GatedDone(req: Request, w: World, outcome: Outcome, effects: Trace)
    requires Parse(w.ref).Some? && outcome.Done?
  {
    var vm := Parse(w.ref).value.vmName;
    Gate(req, w.trace, vm) && RegisterImage(vm, Some(outcome.image)) in w.trace + effects
  }

  /** Done, in any run, is reported only for an image registered after the build had been through the gate. */
  lemma DoneIsGated(req: Request, attempts: seq<Attempt>, env: Replies)
    requires |req.provisioners| <= MAX_INT64
    ensures Parse(Run(req, attempts).ref).Some?
    ensures var w := Run(req, attempts);
      var (outcome, effects) := Reconcile(req, w.ref, env);
      outcome.Done? ==> GatedDone(req, w, outcome, effects)
  {
    var w := Run(req, attempts);
    RunIsSafe(req, attempts);
    if Reconcile(req, w.ref, env).0.Done? {
      DoneImage(req, Parse(w.ref).value, env);
    }
  }

  lemma ProvisionerErrorCleansUp(req: Request, ref: Ref, env: Replies)
    requires 0 <= ref.provisionerIndex < |req.provisioners| && RunProvisioner(req, ref, env).0.Error?
    ensures DeleteResources(ref.vmName, ref.diskName) in RunProvisioner(req, ref, env).1
  {
    var effects := RunProvisioner(req, ref, env).1;
    assert effects[|effects| - 1] == DeleteResources(ref.vmName, ref.diskName);
  }

  lemma FinishErrorCleansUp(req: Request, ref: Ref, env: Replies)
    requires FinishVM(req, ref, env).0.Error?
    ensures DeleteResources(ref.vmName, ref.diskName) in FinishVM(req, ref, env).1
  {
    var effects := FinishVM(req, ref, env).1;
    assert effects[|effects| - 1] == DeleteResources(ref.vmName, ref.diskName);
  }

  /** Every error of a reconcile that has a VM in its reference has attempted to delete the VM and its disk. */
  lemma ErrorsCleanUp(req: Request, ref: Ref, env: Replies)
    requires 0 <= ref.provisionerIndex && ref.vmName != [] && ReconcileRef(req, ref, env).0.Error?
    ensures DeleteResources(ref.vmName, ref.diskName) in ReconcileRef(req, ref, env).1
  {
    if ref.provisionerIndex < |req.provisioners| {
      ProvisionerErrorCleansUp(req, ref, env);
    } else {
      FinishErrorCleansUp(req, ref, env);
    }
  }

  // ---------------------------------------------------------------------------------------------
  // The same machine with the reference kept as a value instead of being printed and parsed.
  // ---------------------------------------------------------------------------------------------

  datatype Machine = Machine(ref: Ref, trace: Trace)

  function MachineReconcile(req: Request, ref: Ref, env: Replies): (Outcome, Trace) {
    if !env.inputValid || ref.provisionerIndex < 0 then (Error, []) else ReconcileRef(req, ref, env)
  }

  /** All it forgets between steps is evidence without a status. */
  function MachineStep(req: Request, m: Machine, attempt: Attempt): Machine {
    var (outcome, effects) := MachineReconcile(req, m.ref, attempt.env);
    if attempt.crash.Some? then Machine(m.ref, m.trace + Upto(effects, attempt.crash.value))
    else Machine(if outcome.Error? then m.ref else Printed(outcome.ref), m.trace + effects)
  }

  function MachineStepOf(req: Request): (Machine, Attempt) -> Machine {
    (m, attempt) => MachineStep(req, m, attempt)
  }

  function MachineRun(req: Request, attempts: seq<Attempt>): Machine {
    RunFrom(MachineStepOf(req), Machine(EMPTY_REF, []), attempts)
  }

  /** The string parses to the machine's reference, and the calls are its calls. */
  ghost predicate Refines(req: Request, w: World, m: Machine) {
    Inv(req, w) && Parse(w.ref) == Some(m.ref) && w.trace == m.trace
  }

  lemma StepRefines(req: Request, w: World, m: Machine, attempt: Attempt)
    requires |req.provisioners| <= MAX_INT64 && Inv(req, w) && Parse(w.ref) == Some(m.ref) && w.trace == m.trace
    ensures var next := MachineStep(req, m, attempt);
      Parse(Step(req, w, attempt).ref) == Some(next.ref) && Step(req, w, attempt).trace == next.trace
  {
    if attempt.env.inputValid {
      GoodReconcile(req, m.ref, attempt.env, w.trace);
      var outcome := ReconcileRef(req, m.ref, attempt.env).0;
      if !outcome.Error? {
        ParseOfToString(outcome.ref);
      }
    }
  }

  /**
   Carrying the state, evidence included, in a printed reference loses nothing the machine relies on: in every
   run the string parses to the reference, and the calls are the calls, of the machine that never prints it.
   */
  lemma RunRefinesMachine(req: Request, attempts: seq<Attempt>)
    requires |req.provisioners| <= MAX_INT64
    ensures Parse(Run(req, attempts).ref) == Some(MachineRun(req, attempts).ref)
    ensures Run(req, attempts).trace == MachineRun(req, attempts).trace
  {
    forall w, m, attempt | Refines(req, w, m)
      ensures Refines(req, Step(req, w, attempt), MachineStep(req, m, attempt))
    {
      StepKeepsInv(req, w, attempt);
      StepRefines(req, w, m, attempt);
    }
    RunsSimulate(StepOf(req), World([], []), MachineStepOf(req), Machine(EMPTY_REF, []), (w, m) => Refines(req, w, m),
                 attempts);
  }

  /** Replies of a cloud in which everything works; evidence commands print `evidence`. */
  function Working(vmID: Bytes, evidence: Evidence, image: Bytes): Attempt {
    Attempt(Replies(true, true, Some(vmID), true, Some(evidence), true, true, Some(image), true), None)
  }

  predicate SomeEvidence(req: Request, n: nat)
    requires n <= |req.provisioners|
  {
    exists k :: 0 <= k < n && req.provisioners[k].isEvidence
  }

  /** The reference after the start and k provisioners. */
  function AfterProvisioners(req: Request, vmID: Bytes, evidence: Evidence, k: nat): Ref
    requires k <= |req.provisioners|
  {
    EMPTY_REF.(buildID := req.buildID, vmName := VMName(req), diskName := if req.marketplace then [] else DiskName(req),
               vmID := vmID, provisionerIndex := k, carried := if SomeEvidence(req, k) then evidence else NO_EVIDENCE)
  }

  /** n reconciles in such a cloud. */
  function WorkingAttempts(vmID: Bytes, evidence: Evidence, image: Bytes, n: nat): (attempts: seq<Attempt>)
    ensures |attempts| == n
  {
    if n == 0 then [] else WorkingAttempts(vmID, evidence, image, n - 1) + [Working(vmID, evidence, image)]
  }

  lemma MachineRunOfOneMore(req: Request, attempts: seq<Attempt>, last: Attempt)
    ensures MachineRun(req, attempts + [last]) == MachineStep(req, MachineRun(req, attempts), last)
  {
    RunOfOneMore(MachineStepOf(req), Machine(EMPTY_REF, []), attempts, last);
  }

  lemma StartStep(req: Request, vmID: Bytes, evidence: Evidence, image: Bytes)
    ensures ReconcileRef(req, EMPTY_REF, Working(vmID, evidence, image).env).0
      == Progress(AfterProvisioners(req, vmID, evidence, 0))
  {
  }

  lemma ProvisionerStep(req: Request, vmID: Bytes, evidence: Evidence, image: Bytes, k: nat)
    requires k < |req.provisioners| && req.provisioners[k].compiles
    ensures ReconcileRef(req, AfterProvisioners(req, vmID, evidence, k), Working(vmID, evidence, image).env).0
      == Progress(AfterProvisioners(req, vmID, evidence, k + 1))
  {
    assert SomeEvidence(req, k + 1) <==> SomeEvidence(req, k) || req.provisioners[k].isEvidence;
  }

  /** A reconcile that makes progress to a reference that survives printing leaves the machine at it. */
  lemma ProgressStep(req: Request, m: Machine, vmID: Bytes, evidence: Evidence, image: Bytes, next: Ref)
    requires 0 <= m.ref.provisionerIndex && Printed(next) == next
    requires ReconcileRef(req, m.ref, Working(vmID, evidence, image).env).0 == Progress(next)
    ensures MachineStep(req, m, Working(vmID, evidence, image)).ref == next
  {
  }

  lemma AfterProvisionersPrints(req: Request, vmID: Bytes, evidence: Evidence, n: nat)
    requires n <= |req.provisioners| && evidence.status != []
    ensures Printed(AfterProvisioners(req, vmID, evidence, n)) == AfterProvisioners(req, vmID, evidence, n)
  {
  }

  lemma MachineRunOfWorking(req: Request, vmID: Bytes, evidence: Evidence, image: Bytes, n: nat)
    ensures MachineRun(req, WorkingAttempts(vmID, evidence, image, 0)).ref == EMPTY_REF
    ensures MachineRun(req, WorkingAttempts(vmID, evidence, image, n + 1))
      == MachineStep(req, MachineRun(req, WorkingAttempts(vmID, evidence, image, n)), Working(vmID, evidence, image))
  {
    MachineRunOfOneMore(req, WorkingAttempts(vmID, evidence, image, n), Working(vmID, evidence, image));
  }

  /** The reference before reconcile n of a build in which nothing fails: empty, then after n - 1 provisioners. */
  function WorkingRef(req: Request, vmID: Bytes, evidence: Evidence, n: nat): Ref
    requires n <= |req.provisioners| + 1
  {
    if n == 0 then EMPTY_REF else AfterProvisioners(req, vmID, evidence, n - 1)
  }

  lemma WorkingStep(req: Request, m: Machine, vmID: Bytes, evidence: Evidence, image: Bytes, n: nat)
    requires n <= |req.provisioners| && evidence.status != []
    requires n > 0 ==> req.provisioners[n - 1].compiles
    requires m.ref == WorkingRef(req, vmID, evidence, n)
    ensures MachineStep(req, m, Working(vmID, evidence, image)).ref == WorkingRef(req, vmID, evidence, n + 1)
  {
    AfterProvisionersPrints(req, vmID, evidence, n);
    if n == 0 {
      StartStep(req, vmID, evidence, image);
    } else {
      ProvisionerStep(req, vmID, evidence, image, n - 1);
    }
    ProgressStep(req, m, vmID, evidence, image, AfterProvisioners(req, vmID, evidence, n));
  }

  lemma {:induction false} WorkingReaches(req: Request, vmID: Bytes, evidence: Evidence, image: Bytes, n: nat)
    requires n <= |req.provisioners| + 1 && evidence.status != []
    requires forall p :: p in req.provisioners ==> p.compiles
    ensures MachineRun(req, WorkingAttempts(vmID, evidence, image, n)).ref == WorkingRef(req, vmID, evidence, n)
  {
    if n == 0 {
      MachineRunOfWorking(req, vmID, evidence, image, 0);
    } else {
      var m := MachineRun(req, WorkingAttempts(vmID, evidence, image, n - 1));
      WorkingReaches(req, vmID, evidence, image, n - 1);
      WorkingStep(req, m, vmID, evidence, image, n - 1);
      MachineRunOfWorking(req, vmID, evidence, image, n - 1);
    }
  }

  /** What the gate asks of a build whose evidence commands all print `evidence`. */
  predicate GateOpens(req: Request, evidence: Evidence) {
    req.evidenceRequired ==> SomeEvidence(req, |req.provisioners|) && Accepted(req.registry, Some(evidence))
  }

  /** Finishing with everything working succeeds exactly when the gate lets the carried evidence through. */
  lemma FinishStep(req: Request, vmID: Bytes, evidence: Evidence, image: Bytes)
    requires evidence.status != []
    ensures var outcome := ReconcileRef(req, AfterProvisioners(req, vmID, evidence, |req.provisioners|),
                                        Working(vmID, evidence, image).env).0;
      && (outcome.Done? <==> GateOpens(req, evidence))
      && (outcome.Done? ==> outcome.image == image)
      && (!outcome.Done? ==> outcome.Error?)
  {
  }

  /**
   The gate is the only thing that can stop a build in a cloud in which everything works: after n + 1
   reconciles for n provisioners the next one is done exactly when evidence is not required, or some evidence
   provisioner ran and what it printed meets the policy.
   */
  lemma WorkingCloudCompletesIffGateOpens(req: Request, vmID: Bytes, evidence: Evidence, image: Bytes)
    requires |req.provisioners| <= MAX_INT64 && evidence.status != []
    requires forall p :: p in req.provisioners ==> p.compiles
    ensures var w := Run(req, WorkingAttempts(vmID, evidence, image, |req.provisioners| + 1));
      var outcome := Reconcile(req, w.ref, Working(vmID, evidence, image).env).0;
      && (outcome.Done? <==> GateOpens(req, evidence))
      && (outcome.Done? ==> outcome.image == image)
  {
    WorkingReaches(req, vmID, evidence, image, |req.provisioners| + 1);
    FinishStep(req, vmID, evidence, image);
    RunRefinesMachine(req, WorkingAttempts(vmID, evidence, image, |req.provisioners| + 1));
  }
}

/**
 The AWS remote build: one reconcile parses the reference, takes one step against EC2 and SSM, and
 prints the reference again. What the cloud answers is an argument, so every answer is covered.
 */
module AwsRemoteBuild {
  import opened Wrappers
  import opened Calls
  import opened Runs
  import opened ByteStrings
  import opened AwsBuildRef

  datatype InstanceState = Pending | Running | Stopping | Stopped | ShuttingDown | Terminated | OtherState

  datatype CommandStatus =
    | Waiting | InProgress | Delayed | CommandSucceeded | Cancelled | Cancelling | CommandFailed | TimedOut
    | OtherStatus

  datatype ImageState = Available | ImagePending | ImageFailed | ImageError | OtherImage

  /** A build request: its identity and, per provisioner, the SSM command it compiles to (None: it cannot). */
  datatype Request = Request(buildID: Bytes, provisioners: seq<Option<Bytes>>)

  /** What each API call answers in one reconcile; None is an API error, an empty ID is a missing ID. */
  datatype Replies = Replies(
    settingsValid: bool,
    runInstances: Option<Bytes>,
    describeInstance: Option<Option<InstanceState>>,
    ssmOnline: Option<bool>,
    sendCommand: Option<Bytes>,
    commandInvocation: Option<CommandStatus>,
    stopInstances: bool,
    existingImage: Option<Bytes>,
    createImage: Option<Bytes>,
    describeImage: Option<Option<ImageState>>,
    terminateInstances: bool,
    imageSnapshots: Option<seq<Bytes>>)

  /** An API call with its answer. */
  datatype Effect =
    | RunInstances(reply: Option<Bytes>)
    | DescribeInstance(instance: Bytes, instanceReply: Option<Option<InstanceState>>)
    | SsmReady(instance: Bytes, online: Option<bool>)
    | SendCommand(index: int, instance: Bytes, script: Bytes, reply: Option<Bytes>)
    | GetCommandInvocation(index: int, instance: Bytes, command: Bytes, status: Option<CommandStatus>)
    | StopInstances(instance: Bytes, ok: bool)
    | FindImage(reply: Option<Bytes>)
    | CreateImage(instance: Bytes, reply: Option<Bytes>)
    | DescribeImage(image: Bytes, imageReply: Option<Option<ImageState>>)
    | TerminateInstances(instance: Bytes, ok: bool)
    | DescribeForCleanup(image: Bytes, snapshots: Option<seq<Bytes>>)
    | DeregisterImage(image: Bytes)
    | DeleteSnapshot(snapshot: Bytes)

  /**
   A reconcile that returns no error hands back the reference, which the caller stores in printed form.
   Aborted is an error returned through failRemoteBuild; Retry is any other error.
   */
  datatype Outcome = Progress(ref: Ref) | Done(ref: Ref, ami: Bytes) | Retry | Aborted

  type Trace = seq<Effect>

  function DeleteSnapshots(snapshots: seq<Bytes>): (t: Trace)
    ensures |t| == |snapshots|
    ensures forall i :: 0 <= i < |t| ==> t[i] == DeleteSnapshot(snapshots[i])
  {
    seq(|snapshots|, i requires 0 <= i < |snapshots| => DeleteSnapshot(snapshots[i]))
  }

  function CleanupImage(image: Bytes, env: Replies): Trace {
    [DescribeForCleanup(image, env.imageSnapshots)]
    + if env.imageSnapshots.None? then []
      else [DeregisterImage(image)] + DeleteSnapshots(env.imageSnapshots.value)
  }

  function Cleanup(ref: Ref, env: Replies): Trace {
    (if ref.imageID == [] then [] else CleanupImage(ref.imageID, env))
    + (if ref.instanceID == [] then [] else [TerminateInstances(ref.instanceID, env.terminateInstances)])
  }

  function Abort(ref: Ref, env: Replies): (Outcome, Trace) {
    (Aborted, Cleanup(ref, env))
  }

  function StartInstance(req: Request, env: Replies): (Outcome, Trace) {
    var trace := [RunInstances(env.runInstances)];
    if env.runInstances.None? || env.runInstances.value == [] then (Retry, trace)
    else (Progress(EMPTY_REF.(buildID := req.buildID, instanceID := env.runInstances.value)), trace)
  }

  function StopBuildInstance(ref: Ref, env: Replies): (Outcome, Trace) {
    (if env.stopInstances then Progress(ref) else Retry,
     [StopInstances(ref.instanceID, env.stopInstances)])
  }

  function Prefixed(first: Trace, step: (Outcome, Trace)): (Outcome, Trace) {
    (step.0, first + step.1)
  }

  /** An existing image of the same build is reused; otherwise one is created. */
  function FindOrCreateImage(ref: Ref, env: Replies): (r: (Option<Bytes>, Trace))
    ensures r.0.Some? ==> r.0.value != []
  {
    var found := [FindImage(env.existingImage)];
    if env.existingImage.None? then (None, found)
    else if env.existingImage.value != [] then (Some(env.existingImage.value), found)
    else
      var created := found + [CreateImage(ref.instanceID, env.createImage)];
      if env.createImage.None? || env.createImage.value == [] then (None, created)
      else (Some(env.createImage.value), created)
  }

  function StartProvisioner(req: Request, ref: Ref, env: Replies): (Outcome, Trace)
    requires 0 <= ref.provisionerIndex < |req.provisioners|
  {
    var script := req.provisioners[ref.provisionerIndex];
    if script.None? then Abort(ref, env)
    else
      var sent := [SendCommand(ref.provisionerIndex, ref.instanceID, script.value, env.sendCommand)];
      if env.sendCommand.None? || env.sendCommand.value == [] then Prefixed(sent, Abort(ref, env))
      else (Progress(ref.(commandID := env.sendCommand.value)), sent)
  }

  function AwaitProvisioner(req: Request, ref: Ref, env: Replies): (Outcome, Trace)
    requires 0 <= ref.provisionerIndex < |req.provisioners|
  {
    var asked := [GetCommandInvocation(ref.provisionerIndex, ref.instanceID, ref.commandID, env.commandInvocation)];
    match env.commandInvocation
    case None => (Retry, asked)
    case Some(Waiting) => (Progress(ref), asked)
    case Some(InProgress) => (Progress(ref), asked)
    case Some(Delayed) => (Progress(ref), asked)
    case Some(CommandSucceeded) =>
      var next := ref.(provisionerIndex := ref.provisionerIndex + 1, commandID := []);
      if next.provisionerIndex >= |req.provisioners| then Prefixed(asked, StopBuildInstance(next, env))
      else (Progress(next), asked)
    case _ => Prefixed(asked, Abort(ref, env))
  }

  function ReconcileProvisioning(req: Request, ref: Ref, env: Replies): (Outcome, Trace)
    requires 0 <= ref.provisionerIndex < |req.provisioners|
  {
    var asked := [SsmReady(ref.instanceID, env.ssmOnline)];
    if env.ssmOnline.None? then (Retry, asked)
    else if !env.ssmOnline.value then (Progress(ref), asked)
    else if ref.commandID == [] then Prefixed(asked, StartProvisioner(req, ref, env))
    else Prefixed(asked, AwaitProvisioner(req, ref, env))
  }

  function StoppedInstance(req: Request, ref: Ref, env: Replies): (Outcome, Trace) {
    if ref.provisionerIndex < |req.provisioners| then Abort(ref, env)
    else
      var (image, trace) := FindOrCreateImage(ref, env);
      if image.None? then Prefixed(trace, Abort(ref, env))
      else (Progress(ref.(imageID := image.value)), trace)
  }

  function ReconcileInstance(req: Request, ref: Ref, env: Replies): (Outcome, Trace)
    requires 0 <= ref.provisionerIndex
  {
    var asked := [DescribeInstance(ref.instanceID, env.describeInstance)];
    match env.describeInstance
    case None => (Retry, asked)
    case Some(None) => (Retry, asked)
    case Some(Some(Pending)) => (Progress(ref), asked)
    case Some(Some(Running)) =>
      if ref.provisionerIndex < |req.provisioners| then Prefixed(asked, ReconcileProvisioning(req, ref, env))
      else Prefixed(asked, StopBuildInstance(ref, env))
    case Some(Some(Stopping)) => (Progress(ref), asked)
    case Some(Some(Stopped)) => Prefixed(asked, StoppedInstance(req, ref, env))
    case Some(Some(ShuttingDown)) => Prefixed(asked, Abort(ref, env))
    case Some(Some(Terminated)) => Prefixed(asked, Abort(ref, env))
    case Some(Some(OtherState)) => (Retry, asked)
  }

  function ReconcileImage(ref: Ref, env: Replies): (Outcome, Trace) {
    var asked := [DescribeImage(ref.imageID, env.describeImage)];
    match env.describeImage
    case None => (Retry, asked)
    case Some(None) => (Retry, asked)
    case Some(Some(Available)) =>
      if ref.instanceID == [] then (Done(ref, ref.imageID), asked)
      else
        var terminated := asked + [TerminateInstances(ref.instanceID, env.terminateInstances)];
        if env.terminateInstances then (Done(ref, ref.imageID), terminated) else (Retry, terminated)
    case Some(Some(ImageFailed)) => Prefixed(asked, Abort(ref, env))
    case Some(Some(ImageError)) => Prefixed(asked, Abort(ref, env))
    case Some(Some(_)) => (Progress(ref), asked)
  }

  function ReconcileRef(req: Request, ref: Ref, env: Replies): (Outcome, Trace)
    requires 0 <= ref.provisionerIndex
  {
    if ref.imageID != [] then ReconcileImage(ref, env)
    else if ref.instanceID == [] then StartInstance(req, env)
    else ReconcileInstance(req, ref, env)
  }

  function Reconcile(req: Request, operationRef: Bytes, env: Replies): (Outcome, Trace) {
    var ref := Parse(operationRef);
    if !env.settingsValid || ref.None? then (Retry, [])
    else ReconcileRef(req, ref.value, env)
  }

  // ---------------------------------------------------------------------------------------------
  // Runs: any number of reconciles, each answered arbitrarily, each possibly cut off by a crash.
  // ---------------------------------------------------------------------------------------------

  /** One reconcile; with `crash == Some(k)` the operator dies after k API calls and nothing is persisted. */
  datatype Attempt = Attempt(env: Replies, crash: Option<nat>)

  datatype World = World(ref: Bytes, trace: Trace)

  function Step(req: Request, w: World, attempt: Attempt): World {
    var (outcome, effects) := Reconcile(req, w.ref, attempt.env);
    if attempt.crash.Some? then World(w.ref, w.trace + Upto(effects, attempt.crash.value))
    else World(if outcome.Progress? || outcome.Done? then ToString(outcome.ref) else w.ref, w.trace + effects)
  }

  function StepOf(req: Request): (World, Attempt) -> World {
    (w, attempt) => Step(req, w, attempt)
  }

  function Run(req: Request, attempts: seq<Attempt>): World {
    RunFrom(StepOf(req), World([], []), attempts)
  }

  /** Provisioner j was reported successful on this instance, for a command that had been sent to it. */
  ghost predicate Succeeded(t: Trace, j: int, instance: Bytes) {
    exists command, script :: GetCommandInvocation(j, instance, command, Some(CommandSucceeded)) in t
      && SendCommand(j, instance, script, Some(command)) in t
  }

  ghost predicate AllSucceeded(t: Trace, n: int, instance: Bytes) {
    forall j :: 0 <= j < n ==> Succeeded(t, j, instance)
  }

  /** What must have happened before an API call is made. */
  ghost predicate Allowed(req: Request, past: Trace, e: Effect) {
    match e
    case SendCommand(k, instance, script, _) =>
      0 <= k < |req.provisioners| && req.provisioners[k] == Some(script) && AllSucceeded(past, k, instance)
    case GetCommandInvocation(k, instance, command, _) =>
      exists script :: SendCommand(k, instance, script, Some(command)) in past
    case CreateImage(instance, _) =>
      && AllSucceeded(past, |req.provisioners|, instance) && |past| >= 2
      && past[|past| - 2] == DescribeInstance(instance, Some(Some(Stopped))) && past[|past| - 1] == FindImage(Some([]))
    case _ => true
  }

  ghost function Guard(req: Request): (Trace, Effect) -> bool {
    (past, e) => Allowed(req, past, e)
  }

  ghost predicate Safe(req: Request, t: Trace) {
    AllAllowed(Guard(req), t)
  }

  /** The image was returned by CreateImage or found under this build's name and ID. */
  ghost predicate ImageOfBuild(t: Trace, image: Bytes) {
    FindImage(Some(image)) in t || exists instance :: CreateImage(instance, Some(image)) in t
  }

  ghost predicate RefInv(req: Request, ref: Ref, t: Trace) {
    && 0 <= ref.provisionerIndex <= |req.provisioners|
    && (ref.instanceID == [] ==> ref.provisionerIndex == 0)
    && AllSucceeded(t, ref.provisionerIndex, ref.instanceID)
    && (ref.commandID != [] ==>
          exists script :: SendCommand(ref.provisionerIndex, ref.instanceID, script, Some(ref.commandID)) in t)
    && (ref.imageID != [] ==> ref.provisionerIndex == |req.provisioners| && ImageOfBuild(t, ref.imageID))
  }

  ghost predicate Inv(req: Request, w: World) {
    Safe(req, w.trace) && Parse(w.ref).Some? && RefInv(req, Parse(w.ref).value, w.trace)
  }

  ghost predicate Unguarded(e: Effect) {
    !e.SendCommand? && !e.GetCommandInvocation? && !e.CreateImage?
  }

  lemma SucceededGrows(t: Trace, more: Trace, n: int, instance: Bytes)
    ensures AllSucceeded(t, n, instance) ==> AllSucceeded(t + more, n, instance)
  {
    forall j | AllSucceeded(t, n, instance) && 0 <= j < n ensures Succeeded(t + more, j, instance) {
      assert Succeeded(t, j, instance);
    }
  }

  lemma InvGrows(req: Request, ref: Ref, t: Trace, more: Trace)
    requires RefInv(req, ref, t)
    ensures RefInv(req, ref, t + more)
  {
    SucceededGrows(t, more, ref.provisionerIndex, ref.instanceID);
  }

  /** The index stays, or moves by one because SSM reported the command of this index successful. */
  predicate Advances(ref: Ref, next: Ref, t: Trace) {
    || next.provisionerIndex == ref.provisionerIndex
    || (next.provisionerIndex == ref.provisionerIndex + 1
        && GetCommandInvocation(ref.provisionerIndex, ref.instanceID, ref.commandID, Some(CommandSucceeded)) in t)
  }

  /** One reconcile from a good reference: every call is allowed, and a returned reference is good again. */
  ghost predicate GoodStep(req: Request, ref: Ref, t: Trace, step: (Outcome, Trace)) {
    && Safe(req, t + step.1)
    && (step.0.Progress? || step.0.Done? ==>
          RefInv(req, step.0.ref, t + step.1) && Advances(ref, step.0.ref, step.1))
  }

  lemma GoodPrefixed(req: Request, ref: Ref, t: Trace, first: Trace, step: (Outcome, Trace))
    requires GoodStep(req, ref, t + first, step)
    ensures GoodStep(req, ref, t, Prefixed(first, step))
  {
    assert t + (first + step.1) == t + first + step.1;
  }

  lemma GoodUnguarded(req: Request, ref: Ref, t: Trace, step: (Outcome, Trace))
    requires Safe(req, t) && RefInv(req, ref, t)
    requires forall e :: e in step.1 ==> Unguarded(e)
    requires step.0.Progress? || step.0.Done? ==> step.0.ref == ref
    ensures GoodStep(req, ref, t, step)
  {
    AllowedAnyTime(Guard(req), t, step.1);
    InvGrows(req, ref, t, step.1);
  }

  lemma GoodAbort(req: Request, ref: Ref, env: Replies, t: Trace)
    requires Safe(req, t) && RefInv(req, ref, t)
    ensures GoodStep(req, ref, t, Abort(ref, env))
  {
    GoodUnguarded(req, ref, t, Abort(ref, env));
  }

  lemma GoodStartInstance(req: Request, ref: Ref, env: Replies, t: Trace)
    requires Safe(req, t) && RefInv(req, ref, t) && ref.provisionerIndex == 0
    ensures GoodStep(req, ref, t, StartInstance(req, env))
  {
    var step := StartInstance(req, env);
    AllowedAnyTime(Guard(req), t, step.1);
    if step.0.Progress? {
      var next := EMPTY_REF.(buildID := req.buildID, instanceID := env.runInstances.value);
      assert RefInv(req, next, t + step.1);
    }
  }

  lemma GoodStartProvisioner(req: Request, ref: Ref, env: Replies, t: Trace)
    requires Safe(req, t) && RefInv(req, ref, t)
    requires ref.provisionerIndex < |req.provisioners| && ref.imageID == [] && ref.instanceID != []
    ensures GoodStep(req, ref, t, StartProvisioner(req, ref, env))
  {
    var script := req.provisioners[ref.provisionerIndex];
    if script.None? {
      GoodAbort(req, ref, env, t);
    } else {
      var sent := SendCommand(ref.provisionerIndex, ref.instanceID, script.value, env.sendCommand);
      AllowedAppend(Guard(req), t, sent);
      InvGrows(req, ref, t, [sent]);
      if env.sendCommand.None? || env.sendCommand.value == [] {
        GoodAbort(req, ref, env, t + [sent]);
        GoodPrefixed(req, ref, t, [sent], Abort(ref, env));
      } else {
        var next := ref.(commandID := env.sendCommand.value);
        assert sent in t + [sent];
        assert RefInv(req, next, t + [sent]);
      }
    }
  }

  lemma GoodAdvance(req: Request, ref: Ref, env: Replies, t: Trace)
    requires RefInv(req, ref, t) && ref.provisionerIndex < |req.provisioners|
    requires ref.imageID == [] && ref.instanceID != []
    requires ref.commandID != []
    ensures var asked := GetCommandInvocation(ref.provisionerIndex, ref.instanceID, ref.commandID,
                                              Some(CommandSucceeded));
      RefInv(req, ref.(provisionerIndex := ref.provisionerIndex + 1, commandID := []), t + [asked])
  {
    var k := ref.provisionerIndex;
    var asked := GetCommandInvocation(k, ref.instanceID, ref.commandID, Some(CommandSucceeded));
    var script :| SendCommand(k, ref.instanceID, script, Some(ref.commandID)) in t;
    SucceededGrows(t, [asked], k, ref.instanceID);
    assert asked in t + [asked] && SendCommand(k, ref.instanceID, script, Some(ref.commandID)) in t + [asked];
    assert Succeeded(t + [asked], k, ref.instanceID);
    forall j | 0 <= j < k + 1 ensures Succeeded(t + [asked], j, ref.instanceID) {
      assert j < k ==> Succeeded(t + [asked], j, ref.instanceID);
    }
  }

  lemma GoodSuccess(req: Request, ref: Ref, env: Replies, t: Trace)
    requires RefInv(req, ref, t) && ref.provisionerIndex < |req.provisioners|
    requires ref.imageID == [] && ref.instanceID != []
    requires ref.commandID != [] && env.commandInvocation == Some(CommandSucceeded)
    requires Safe(req, t + [GetCommandInvocation(ref.provisionerIndex, ref.instanceID, ref.commandID,
                                                 env.commandInvocation)])
    ensures GoodStep(req, ref, t, AwaitProvisioner(req, ref, env))
  {
    var asked := GetCommandInvocation(ref.provisionerIndex, ref.instanceID, ref.commandID, env.commandInvocation);
    var next := ref.(provisionerIndex := ref.provisionerIndex + 1, commandID := []);
    GoodAdvance(req, ref, env, t);
    if next.provisionerIndex >= |req.provisioners| {
      var stop := StopBuildInstance(next, env);
      GoodUnguarded(req, next, t + [asked], stop);
      assert t + ([asked] + stop.1) == t + [asked] + stop.1;
    }
  }

  lemma GoodAwaitProvisioner(req: Request, ref: Ref, env: Replies, t: Trace)
    requires Safe(req, t) && RefInv(req, ref, t)
    requires ref.provisionerIndex < |req.provisioners| && ref.imageID == [] && ref.instanceID != []
    requires ref.commandID != []
    ensures GoodStep(req, ref, t, AwaitProvisioner(req, ref, env))
  {
    var asked := GetCommandInvocation(ref.provisionerIndex, ref.instanceID, ref.commandID, env.commandInvocation);
    AllowedAppend(Guard(req), t, asked);
    InvGrows(req, ref, t, [asked]);
    if env.commandInvocation == Some(CommandSucceeded) {
      GoodSuccess(req, ref, env, t);
    } else {
      GoodAbort(req, ref, env, t + [asked]);
      GoodPrefixed(req, ref, t, [asked], Abort(ref, env));
    }
  }

  lemma GoodProvisioning(req: Request, ref: Ref, env: Replies, t: Trace)
    requires Safe(req, t) && RefInv(req, ref, t)
    requires ref.provisionerIndex < |req.provisioners| && ref.imageID == [] && ref.instanceID != []
    ensures GoodStep(req, ref, t, ReconcileProvisioning(req, ref, env))
  {
    var asked := [SsmReady(ref.instanceID, env.ssmOnline)];
    AllowedAnyTime(Guard(req), t, asked);
    InvGrows(req, ref, t, asked);
    if env.ssmOnline == Some(true) {
      if ref.commandID == [] {
        GoodStartProvisioner(req, ref, env, t + asked);
        GoodPrefixed(req, ref, t, asked, StartProvisioner(req, ref, env));
      } else {
        GoodAwaitProvisioner(req, ref, env, t + asked);
        GoodPrefixed(req, ref, t, asked, AwaitProvisioner(req, ref, env));
      }
    }
  }

  lemma GoodCreate(req: Request, ref: Ref, t: Trace, reply: Option<Bytes>)
    requires Safe(req, t) && RefInv(req, ref, t) && ref.provisionerIndex == |req.provisioners|
    requires |t| >= 2 && t[|t| - 2] == DescribeInstance(ref.instanceID, Some(Some(Stopped)))
    requires t[|t| - 1] == FindImage(Some([]))
    ensures var created := t + [CreateImage(ref.instanceID, reply)];
      && Safe(req, created) && RefInv(req, ref, created)
      && (reply.Some? && reply.value != [] ==> RefInv(req, ref.(imageID := reply.value), created))
  {
    var create := CreateImage(ref.instanceID, reply);
    AllowedAppend(Guard(req), t, create);
    InvGrows(req, ref, t, [create]);
    assert create in t + [create];
  }

  lemma GoodFindOrCreate(req: Request, ref: Ref, env: Replies, t: Trace)
    requires Safe(req, t) && RefInv(req, ref, t) && ref.provisionerIndex == |req.provisioners|
    requires t != [] && t[|t| - 1] == DescribeInstance(ref.instanceID, Some(Some(Stopped)))
    ensures var (image, more) := FindOrCreateImage(ref, env);
      Safe(req, t + more) && RefInv(req, ref, t + more)
      && (image.Some? ==> RefInv(req, ref.(imageID := image.value), t + more))
  {
    var found := FindImage(env.existingImage);
    AllowedAppend(Guard(req), t, found);
    InvGrows(req, ref, t, [found]);
    if env.existingImage == Some([]) {
      GoodCreate(req, ref, t + [found], env.createImage);
      assert t + [found, CreateImage(ref.instanceID, env.createImage)]
        == t + [found] + [CreateImage(ref.instanceID, env.createImage)];
      assert [found] + [CreateImage(ref.instanceID, env.createImage)]
        == [found, CreateImage(ref.instanceID, env.createImage)];
    } else {
      assert found in t + [found];
    }
  }

  lemma GoodStopped(req: Request, ref: Ref, env: Replies, t: Trace)
    requires Safe(req, t) && RefInv(req, ref, t)
    requires t != [] && t[|t| - 1] == DescribeInstance(ref.instanceID, Some(Some(Stopped)))
    ensures GoodStep(req, ref, t, StoppedInstance(req, ref, env))
  {
    if ref.provisionerIndex < |req.provisioners| {
      GoodAbort(req, ref, env, t);
    } else {
      GoodFindOrCreate(req, ref, env, t);
      var (image, trace) := FindOrCreateImage(ref, env);
      if image.None? {
        GoodAbort(req, ref, env, t + trace);
        GoodPrefixed(req, ref, t, trace, Abort(ref, env));
      }
    }
  }

  lemma GoodRunning(req: Request, ref: Ref, env: Replies, t: Trace)
    requires Safe(req, t) && RefInv(req, ref, t) && ref.imageID == [] && ref.instanceID != []
    requires env.describeInstance == Some(Some(Running))
    ensures GoodStep(req, ref, t, ReconcileInstance(req, ref, env))
  {
    var asked := [DescribeInstance(ref.instanceID, env.describeInstance)];
    AllowedAnyTime(Guard(req), t, asked);
    InvGrows(req, ref, t, asked);
    if ref.provisionerIndex < |req.provisioners| {
      GoodProvisioning(req, ref, env, t + asked);
      GoodPrefixed(req, ref, t, asked, ReconcileProvisioning(req, ref, env));
    } else {
      GoodUnguarded(req, ref, t + asked, StopBuildInstance(ref, env));
      GoodPrefixed(req, ref, t, asked, StopBuildInstance(ref, env));
    }
  }

  lemma GoodSeenStopped(req: Request, ref: Ref, env: Replies, t: Trace)
    requires Safe(req, t) && RefInv(req, ref, t) && env.describeInstance == Some(Some(Stopped))
    ensures GoodStep(req, ref, t, ReconcileInstance(req, ref, env))
  {
    var asked := [DescribeInstance(ref.instanceID, env.describeInstance)];
    AllowedAnyTime(Guard(req), t, asked);
    InvGrows(req, ref, t, asked);
    GoodStopped(req, ref, env, t + asked);
    GoodPrefixed(req, ref, t, asked, StoppedInstance(req, ref, env));
  }

  /** In every other state the reference stays, or the build is given up. */
  lemma OtherStates(req: Request, ref: Ref, env: Replies)
    requires 0 <= ref.provisionerIndex
    requires env.describeInstance != Some(Some(Running)) && env.describeInstance != Some(Some(Stopped))
    ensures var asked := [DescribeInstance(ref.instanceID, env.describeInstance)];
      var step := ReconcileInstance(req, ref, env);
      step == (Progress(ref), asked) || step == (Retry, asked) || step == Prefixed(asked, Abort(ref, env))
  {
  }

  lemma GoodOther(req: Request, ref: Ref, env: Replies, t: Trace)
    requires RefInv(req, ref, t) && Safe(req, t)
    requires env.describeInstance != Some(Some(Running)) && env.describeInstance != Some(Some(Stopped))
    ensures GoodStep(req, ref, t, ReconcileInstance(req, ref, env))
  {
    var asked := [DescribeInstance(ref.instanceID, env.describeInstance)];
    OtherStates(req, ref, env);
    GoodUnguarded(req, ref, t, (Progress(ref), asked));
    GoodUnguarded(req, ref, t, Prefixed(asked, Abort(ref, env)));
  }

  lemma GoodInstance(req: Request, ref: Ref, env: Replies, t: Trace)
    requires Safe(req, t) && RefInv(req, ref, t) && ref.imageID == [] && ref.instanceID != []
    ensures GoodStep(req, ref, t, ReconcileInstance(req, ref, env))
  {
    if env.describeInstance == Some(Some(Running)) {
      GoodRunning(req, ref, env, t);
    } else if env.describeInstance == Some(Some(Stopped)) {
      GoodSeenStopped(req, ref, env, t);
    } else {
      GoodOther(req, ref, env, t);
    }
  }

  lemma GoodReconcile(req: Request, ref: Ref, env: Replies, t: Trace)
    requires Safe(req, t) && RefInv(req, ref, t)
    ensures GoodStep(req, ref, t, ReconcileRef(req, ref, env))
  {
    if ref.imageID != [] {
      GoodUnguarded(req, ref, t, ReconcileImage(ref, env));
    } else if ref.instanceID == [] {
      GoodStartInstance(req, ref, env, t);
    } else {
      GoodInstance(req, ref, env, t);
    }
  }

  /** No step of a run, finished or cut off, leaves the invariant or moves the persisted index back. */
  lemma StepKeepsInv(req: Request, w: World, attempt: Attempt)
    requires |req.provisioners| <= MAX_INT64
    requires Inv(req, w)
    ensures Inv(req, Step(req, w, attempt))
    ensures Parse(w.ref).value.provisionerIndex <= Parse(Step(req, w, attempt).ref).value.provisionerIndex
  {
    var ref := Parse(w.ref).value;
    var (outcome, effects) := Reconcile(req, w.ref, attempt.env);
    if effects == [] {
      assert w.trace + effects == w.trace;
      assert Upto(effects, if attempt.crash.Some? then attempt.crash.value else 0) == [];
    }
    if attempt.env.settingsValid {
      GoodReconcile(req, ref, attempt.env, w.trace);
      if attempt.crash.Some? {
        AllowedUpto(Guard(req), w.trace, effects, attempt.crash.value);
        InvGrows(req, ref, w.trace, Upto(effects, attempt.crash.value));
      } else if outcome.Progress? || outcome.Done? {
        ParseOfToString(outcome.ref);
      } else {
        InvGrows(req, ref, w.trace, effects);
      }
    }
  }

  /**
   Every run from the empty reference is safe: no provisioner is sent before all earlier ones were
   reported successful, only commands that were sent are polled, and CreateImage is called only after all
   provisioners succeeded on its instance, and right after that instance was described as stopped and no image
   of this build was found.
   */
  lemma RunIsSafe(req: Request, attempts: seq<Attempt>)
    requires |req.provisioners| <= MAX_INT64
    ensures Inv(req, Run(req, attempts))
  {
    forall w, attempt | Inv(req, w) ensures Inv(req, Step(req, w, attempt)) {
      StepKeepsInv(req, w, attempt);
    }
    RunKeeps(StepOf(req), World([], []), w => Inv(req, w), attempts);
  }

  /** Both references parse, and the second has an index as high as the first or higher. */
  predicate AtLeastAsFar(w: World, later: World) {
    var a, b := Parse(w.ref), Parse(later.ref);
    a.Some? && b.Some? && a.value.provisionerIndex <= b.value.provisionerIndex
  }

  lemma StepMovesOn(req: Request, start: World, w: World, attempt: Attempt)
    requires |req.provisioners| <= MAX_INT64 && Inv(req, w) && AtLeastAsFar(start, w)
    ensures AtLeastAsFar(start, Step(req, w, attempt))
  {
    StepKeepsInv(req, w, attempt);
  }

  /** The persisted provisioner index never decreases along a run. */
  lemma {:induction false} IndexNeverDecreases(req: Request, attempts: seq<Attempt>, k: nat)
    requires |req.provisioners| <= MAX_INT64 && k <= |attempts|
    ensures AtLeastAsFar(Run(req, attempts[..k]), Run(req, attempts))
  {
    if k < |attempts| {
      var before := attempts[..|attempts| - 1];
      RunIsSafe(req, before);
      IndexNeverDecreases(req, before, k);
      assert before[..k] == attempts[..k];
      StepMovesOn(req, Run(req, attempts[..k]), Run(req, before), attempts[|attempts| - 1]);
    } else {
      RunIsSafe(req, attempts);
      assert attempts[..k] == attempts;
    }
  }

  /** In any run, the index moves by at most one in a reconcile, and only when SSM reports it successful. */
  lemma AdvanceNeedsSuccess(req: Request, attempts: seq<Attempt>, env: Replies)
    requires |req.provisioners| <= MAX_INT64
    requires Reconcile(req, Run(req, attempts).ref, env).0.Progress?
    ensures var w := Run(req, attempts);
      var (outcome, effects) := Reconcile(req, w.ref, env);
      Parse(w.ref).Some? && Advances(Parse(w.ref).value, outcome.ref, effects)
  {
    RunIsSafe(req, attempts);
    var w := Run(req, attempts);
    GoodReconcile(req, Parse(w.ref).value, env, w.trace);
  }

  lemma DoneMeansAvailable(req: Request, ref: Ref, env: Replies)
    requires 0 <= ref.provisionerIndex && ReconcileRef(req, ref, env).0.Done?
    ensures var (outcome, effects) := ReconcileRef(req, ref, env);
      && ref.imageID != [] && outcome.ami == ref.imageID && DescribeImage(ref.imageID, Some(Some(Available))) in effects
      && (ref.instanceID != [] ==> TerminateInstances(ref.instanceID, true) in effects)
  {
  }

  /** What a reconcile from w that reported Done rests on. */
  ghost predicate EarnedDone(req: Request, w: World, outcome: Outcome, effects: Trace)
    requires Parse(w.ref).Some? && outcome.Done?
  {
    var instance := Parse(w.ref).value.instanceID;
    && outcome.ami != [] && ImageOfBuild(w.trace, outcome.ami) && AllSucceeded(w.trace, |req.provisioners|, instance)
    && DescribeImage(outcome.ami, Some(Some(Available))) in effects
    && (instance != [] ==> TerminateInstances(instance, true) in effects)
  }

  /**
   Done is reported, in any run, only for a non-empty image ID of this build that was seen available in
   the same reconcile, after every provisioner succeeded on one instance, and with that instance terminated.
   */
  lemma DoneIsEarned(req: Request, attempts: seq<Attempt>, env: Replies)
    requires |req.provisioners| <= MAX_INT64
    ensures Parse(Run(req, attempts).ref).Some?
    ensures var w := Run(req, attempts);
      var (outcome, effects) := Reconcile(req, w.ref, env);
      outcome.Done? ==> EarnedDone(req, w, outcome, effects)
  {
    var w := Run(req, attempts);
    RunIsSafe(req, attempts);
    if Reconcile(req, w.ref, env).0.Done? {
      DoneMeansAvailable(req, Parse(w.ref).value, env);
    }
  }

  /** Every exit through failRemoteBuild has tried to clean up the image and the instance the reference names. */
  lemma AbortCleansUp(req: Request, operationRef: Bytes, env: Replies)
    requires Reconcile(req, operationRef, env).0.Aborted?
    ensures Parse(operationRef).Some?
    ensures var ref, effects := Parse(operationRef).value, Reconcile(req, operationRef, env).1;
      && (ref.instanceID != [] ==> TerminateInstances(ref.instanceID, env.terminateInstances) in effects)
      && (ref.imageID != [] ==> DescribeForCleanup(ref.imageID, env.imageSnapshots) in effects)
      && (ref.imageID != [] && env.imageSnapshots.Some? ==>
            DeregisterImage(ref.imageID) in effects
            && forall s :: s in env.imageSnapshots.value ==> DeleteSnapshot(s) in effects)
  {
    var ref := Parse(operationRef).value;
    AbortsWithCleanup(req, ref, env);
    CleanupIsComplete(ref, env);
  }

  /** The search for an image failed, or found none and creating one brought none. */
  predicate NoImageID(env: Replies) {
    || env.existingImage.None?
    || (env.existingImage.value == [] && (env.createImage.None? || env.createImage.value == []))
  }

  /** The instance can no longer be turned into this build's image. */
  predicate InstanceIsLost(req: Request, ref: Ref, env: Replies) {
    || env.describeInstance == Some(Some(ShuttingDown)) || env.describeInstance == Some(Some(Terminated))
    || (env.describeInstance == Some(Some(Stopped))
        && (ref.provisionerIndex < |req.provisioners| || NoImageID(env)))
  }

  /** The provisioner that is due cannot be sent, or has ended without success. */
  predicate ProvisionerIsLost(req: Request, ref: Ref, env: Replies)
    requires 0 <= ref.provisionerIndex
  {
    && env.describeInstance == Some(Some(Running)) && ref.provisionerIndex < |req.provisioners|
    && env.ssmOnline == Some(true)
    && if ref.commandID == []
       then req.provisioners[ref.provisionerIndex].None? || env.sendCommand.None? || env.sendCommand.value == []
       else env.commandInvocation.Some?
            && env.commandInvocation.value !in {Waiting, InProgress, Delayed, CommandSucceeded}
  }

  /** A build is given up exactly when its image failed, its instance is lost or its provisioner is. */
  lemma AbortsIffLost(req: Request, ref: Ref, env: Replies)
    requires 0 <= ref.provisionerIndex
    ensures ReconcileRef(req, ref, env).0.Aborted? <==>
      if ref.imageID != []
      then env.describeImage == Some(Some(ImageFailed)) || env.describeImage == Some(Some(ImageError))
      else ref.instanceID != [] && (InstanceIsLost(req, ref, env) || ProvisionerIsLost(req, ref, env))
  {
  }

  /** An aborting reconcile ends with exactly the cleanup calls of its reference. */
  lemma AbortsWithCleanup(req: Request, ref: Ref, env: Replies)
    requires 0 <= ref.provisionerIndex && ReconcileRef(req, ref, env).0.Aborted?
    ensures exists before: Trace :: ReconcileRef(req, ref, env).1 == before + Cleanup(ref, env)
  {
    var trace := ReconcileRef(req, ref, env).1;
    var k := |trace| - |Cleanup(ref, env)|;
    if ref.imageID == [] && env.describeInstance == Some(Some(Stopped)) {
      if ref.provisionerIndex >= |req.provisioners| {
        assert trace == [DescribeInstance(ref.instanceID, env.describeInstance)]
          + FindOrCreateImage(ref, env).1 + Cleanup(ref, env);
      }
    } else if ref.imageID == [] && env.describeInstance == Some(Some(Running)) {
      var asked := [DescribeInstance(ref.instanceID, env.describeInstance), SsmReady(ref.instanceID, env.ssmOnline)];
      if ref.commandID != [] {
        assert trace == asked
          + [GetCommandInvocation(ref.provisionerIndex, ref.instanceID, ref.commandID, env.commandInvocation)]
          + Cleanup(ref, env);
      } else if req.provisioners[ref.provisionerIndex].None? {
        assert trace == asked + Cleanup(ref, env);
      } else {
        assert trace == asked
          + [SendCommand(ref.provisionerIndex, ref.instanceID, req.provisioners[ref.provisionerIndex].value,
                         env.sendCommand)]
          + Cleanup(ref, env);
      }
    }
    assert trace == trace[..k] + Cleanup(ref, env);
  }

  lemma CleanupIsComplete(ref: Ref, env: Replies)
    ensures var effects := Cleanup(ref, env);
      && (ref.instanceID != [] ==> TerminateInstances(ref.instanceID, env.terminateInstances) in effects)
      && (ref.imageID != [] ==> DescribeForCleanup(ref.imageID, env.imageSnapshots) in effects)
      && (ref.imageID != [] && env.imageSnapshots.Some? ==>
            DeregisterImage(ref.imageID) in effects
            && forall s :: s in env.imageSnapshots.value ==> DeleteSnapshot(s) in effects)
  {
    if ref.imageID != [] && env.imageSnapshots.Some? {
      var deletes := DeleteSnapshots(env.imageSnapshots.value);
      forall s | s in env.imageSnapshots.value ensures DeleteSnapshot(s) in deletes {
        var i :| 0 <= i < |deletes| && env.imageSnapshots.value[i] == s;
        assert deletes[i] == DeleteSnapshot(s);
      }
    }
  }

  // ---------------------------------------------------------------------------------------------
  // The same machine with the reference kept as a value instead of being printed and parsed.
  // ---------------------------------------------------------------------------------------------

  datatype Machine = Machine(ref: Ref, trace: Trace)

  function MachineReconcile(req: Request, ref: Ref, env: Replies): (Outcome, Trace) {
    if !env.settingsValid || ref.provisionerIndex < 0 then (Retry, []) else ReconcileRef(req, ref, env)
  }

  function MachineStep(req: Request, m: Machine, attempt: Attempt): Machine {
    var (outcome, effects) := MachineReconcile(req, m.ref, attempt.env);
    if attempt.crash.Some? then Machine(m.ref, m.trace + Upto(effects, attempt.crash.value))
    else Machine(if outcome.Progress? || outcome.Done? then outcome.ref else m.ref, m.trace + effects)
  }

  function MachineStepOf(req: Request): (Machine, Attempt) -> Machine {
    (m, attempt) => MachineStep(req, m, attempt)
  }

  function MachineRun(req: Request, attempts: seq<Attempt>): Machine {
    RunFrom(MachineStepOf(req), Machine(EMPTY_REF, []), attempts)
  }

  /** The string parses to the machine's reference, and the calls are its calls. */
  ghost predicate Refines(req: Request, w: World, m: Machine) {
    Inv(req, w) && Parse(w.ref) == Some(m.ref) && w.trace == m.trace
  }

  lemma StepRefines(req: Request, w: World, m: Machine, attempt: Attempt)
    requires |req.provisioners| <= MAX_INT64 && Inv(req, w) && Parse(w.ref) == Some(m.ref) && w.trace == m.trace
    ensures var next := MachineStep(req, m, attempt);
      Parse(Step(req, w, attempt).ref) == Some(next.ref) && Step(req, w, attempt).trace == next.trace
  {
    if attempt.env.settingsValid {
      GoodReconcile(req, m.ref, attempt.env, w.trace);
      var outcome := ReconcileRef(req, m.ref, attempt.env).0;
      if outcome.Progress? || outcome.Done? {
        ParseOfToString(outcome.ref);
      }
    }
  }

  /**
   Carrying the state in a printed reference loses nothing: in every run the string parses to the reference,
   and the calls are the calls, that a machine which never prints its reference would have.
   */
  lemma RunRefinesMachine(req: Request, attempts: seq<Attempt>)
    requires |req.provisioners| <= MAX_INT64
    ensures Parse(Run(req, attempts).ref) == Some(MachineRun(req, attempts).ref)
    ensures Run(req, attempts).trace == MachineRun(req, attempts).trace
  {
    forall w, m, attempt | Refines(req, w, m)
      ensures Refines(req, Step(req, w, attempt), MachineStep(req, m, attempt))
    {
      StepKeepsInv(req, w, attempt);
      StepRefines(req, w, m, attempt);
    }
    RunsSimulate(StepOf(req), World([], []), MachineStepOf(req), Machine(EMPTY_REF, []), (w, m) => Refines(req, w, m),
                 attempts);
  }

  /** Replies of a cloud in which everything works; only the instance's state depends on the moment. */
  function Working(instance: Bytes, command: Bytes, image: Bytes, state: InstanceState): Attempt {
    Attempt(
      Replies(true, Some(instance), Some(Some(state)), Some(true), Some(command), Some(CommandSucceeded), true,
              Some([]), Some(image), Some(Some(Available)), true, Some([])),
      None)
  }

  /** The reference after the start and k further reconciles of a running instance: two per provisioner. */
  function AfterRunning(req: Request, instance: Bytes, command: Bytes, k: nat): Ref {
    if k / 2 < |req.provisioners|
    then Ref(req.buildID, instance, [], k / 2, if k % 2 == 1 then command else [])
    else Ref(req.buildID, instance, [], |req.provisioners|, [])
  }

  /** The same attempt n times over. */
  function Repeated(attempt: Attempt, n: nat): (attempts: seq<Attempt>)
    ensures |attempts| == n
  {
    if n == 0 then [] else Repeated(attempt, n - 1) + [attempt]
  }

  lemma MachineRunOfOneMore(req: Request, attempts: seq<Attempt>, last: Attempt)
    ensures MachineRun(req, attempts + [last]) == MachineStep(req, MachineRun(req, attempts), last)
  {
    RunOfOneMore(MachineStepOf(req), Machine(EMPTY_REF, []), attempts, last);
  }

  lemma RunningStep(req: Request, instance: Bytes, command: Bytes, image: Bytes, k: nat)
    requires forall p :: p in req.provisioners ==> p.Some?
    requires instance != [] && command != []
    ensures ReconcileRef(req, AfterRunning(req, instance, command, k), Working(instance, command, image, Running).env).0
      == Progress(AfterRunning(req, instance, command, k + 1))
  {
    if k / 2 < |req.provisioners| {
      assert req.provisioners[k / 2] in req.provisioners;
    }
  }

  lemma FirstStep(req: Request, instance: Bytes, command: Bytes, image: Bytes)
    requires instance != []
    ensures ReconcileRef(req, EMPTY_REF, Working(instance, command, image, Running).env).0
      == Progress(AfterRunning(req, instance, command, 0))
  {
  }

  /** A reconcile that makes progress moves the machine to that reference. */
  lemma ProgressStep(req: Request, m: Machine, attempt: Attempt, next: Ref)
    requires attempt.crash.None? && attempt.env.settingsValid && 0 <= m.ref.provisionerIndex
    requires ReconcileRef(req, m.ref, attempt.env).0 == Progress(next)
    ensures MachineStep(req, m, attempt).ref == next
  {
  }

  /** The reference before reconcile n of a running instance. */
  function RunningRef(req: Request, instance: Bytes, command: Bytes, n: nat): Ref {
    if n == 0 then EMPTY_REF else AfterRunning(req, instance, command, n - 1)
  }

  lemma RunningMachineStep(req: Request, m: Machine, instance: Bytes, command: Bytes, image: Bytes, n: nat)
    requires forall p :: p in req.provisioners ==> p.Some?
    requires instance != [] && command != [] && m.ref == RunningRef(req, instance, command, n)
    ensures MachineStep(req, m, Working(instance, command, image, Running)).ref
      == RunningRef(req, instance, command, n + 1)
  {
    if n == 0 {
      FirstStep(req, instance, command, image);
    } else {
      RunningStep(req, instance, command, image, n - 1);
    }
    ProgressStep(req, m, Working(instance, command, image, Running), RunningRef(req, instance, command, n + 1));
  }

  lemma MachineRunOfRepeated(req: Request, attempt: Attempt, n: nat)
    ensures MachineRun(req, Repeated(attempt, 0)).ref == EMPTY_REF
    ensures MachineRun(req, Repeated(attempt, n + 1))
      == MachineStep(req, MachineRun(req, Repeated(attempt, n)), attempt)
  {
    MachineRunOfOneMore(req, Repeated(attempt, n), attempt);
  }

  lemma {:induction false} RunningReaches(req: Request, instance: Bytes, command: Bytes, image: Bytes, n: nat)
    requires forall p :: p in req.provisioners ==> p.Some?
    requires instance != [] && command != []
    ensures MachineRun(req, Repeated(Working(instance, command, image, Running), n)).ref
      == RunningRef(req, instance, command, n)
  {
    var attempt := Working(instance, command, image, Running);
    if n == 0 {
      MachineRunOfRepeated(req, attempt, 0);
    } else {
      RunningReaches(req, instance, command, image, n - 1);
      RunningMachineStep(req, MachineRun(req, Repeated(attempt, n - 1)), instance, command, image, n - 1);
      MachineRunOfRepeated(req, attempt, n - 1);
    }
  }

  /** The last of these reconciles stops the instance, together with the last provisioner if there is one. */
  function RunningSteps(req: Request): nat {
    if req.provisioners == [] then 2 else 2 * |req.provisioners| + 1
  }

  lemma LastRunningStepStops(req: Request, instance: Bytes, command: Bytes, image: Bytes)
    requires instance != [] && command != []
    ensures StopInstances(instance, true)
      in ReconcileRef(req, AfterRunning(req, instance, command, RunningSteps(req) - 2),
                      Working(instance, command, image, Running).env).1
  {
  }

  lemma StopIsRecorded(req: Request, instance: Bytes, command: Bytes, image: Bytes)
    requires forall p :: p in req.provisioners ==> p.Some?
    requires instance != [] && command != []
    ensures StopInstances(instance, true)
      in MachineRun(req, Repeated(Working(instance, command, image, Running), RunningSteps(req))).trace
  {
    var attempt, n := Working(instance, command, image, Running), RunningSteps(req);
    MachineRunOfOneMore(req, Repeated(attempt, n - 1), attempt);
    RunningReaches(req, instance, command, image, n - 1);
    LastRunningStepStops(req, instance, command, image);
  }

  lemma StoppedSteps(req: Request, instance: Bytes, command: Bytes, image: Bytes)
    requires instance != [] && image != []
    ensures var ref := Ref(req.buildID, instance, [], |req.provisioners|, []);
      var env := Working(instance, command, image, Stopped).env;
      && ReconcileRef(req, ref, env).0 == Progress(ref.(imageID := image))
      && ReconcileRef(req, ref.(imageID := image), env).0 == Done(ref.(imageID := image), image)
  {
  }

  /** The attempts of a build in a cloud in which everything works, up to the one before it is done. */
  function WorkingAttempts(req: Request, instance: Bytes, command: Bytes, image: Bytes): seq<Attempt> {
    Repeated(Working(instance, command, image, Running), RunningSteps(req))
      + [Working(instance, command, image, Stopped)]
  }

  lemma WorkingMachineReaches(req: Request, instance: Bytes, command: Bytes, image: Bytes)
    requires forall p :: p in req.provisioners ==> p.Some?
    requires instance != [] && command != [] && image != []
    ensures var m := MachineRun(req, WorkingAttempts(req, instance, command, image));
      m.ref == Ref(req.buildID, instance, image, |req.provisioners|, []) && StopInstances(instance, true) in m.trace
  {
    var running := Repeated(Working(instance, command, image, Running), RunningSteps(req));
    StopIsRecorded(req, instance, command, image);
    RunningReaches(req, instance, command, image, RunningSteps(req));
    StoppedSteps(req, instance, command, image);
    MachineRunOfOneMore(req, running, Working(instance, command, image, Stopped));
  }

  /**
   Nothing in the machine stands in its own way: with a cloud in which everything works, n provisioners, each
   of which compiles, take 2n + 1 reconciles of a running instance (two if there is none), which stop it, and
   one of the stopped instance; the next is done.
   */
  lemma WorkingCloudCompletes(req: Request, instance: Bytes, command: Bytes, image: Bytes)
    requires |req.provisioners| <= MAX_INT64 && forall p :: p in req.provisioners ==> p.Some?
    requires instance != [] && command != [] && image != []
    ensures var w := Run(req, WorkingAttempts(req, instance, command, image));
      var outcome := Reconcile(req, w.ref, Working(instance, command, image, Stopped).env).0;
      outcome.Done? && outcome.ami == image && StopInstances(instance, true) in w.trace
  {
    WorkingMachineReaches(req, instance, command, image);
    StoppedSteps(req, instance, command, image);
    RunRefinesMachine(req, WorkingAttempts(req, instance, command, image));
  }
}

/**
 The sequential provisioner runner: steps run one after the other, in this process or in an init container
 that is handed a config file and answers with a status file in the same step directory.
 */
module StepDirs {
  datatype Step = Step(initContainer: bool, needsGuest: bool)

  /** How many of the first n steps run in init containers; the runner's externalStep counter. */
  function InitCount(steps: seq<Step>, n: nat): (c: nat)
    requires n <= |steps|
    ensures c <= n
  {
    if n == 0 then 0 else InitCount(steps, n - 1) + if steps[n - 1].initContainer then 1 else 0
  }

  /** The number of the directory a step uses: init-container steps are counted on their own. */
  function DirOf(steps: seq<Step>, i: nat): nat
    requires i < |steps|
  {
    if steps[i].initContainer then InitCount(steps, i) else i
  }

  ghost predicate InitPrefix(steps: seq<Step>) {
    forall i, j :: 0 <= i < j < |steps| && steps[j].initContainer ==> steps[i].initContainer
  }

  ghost predicate DistinctDirs(steps: seq<Step>) {
    forall i: nat, j: nat :: i < j < |steps| ==> DirOf(steps, i) != DirOf(steps, j)
  }

  lemma {:induction false} CountOfInitSteps(steps: seq<Step>, n: nat)
    requires n <= |steps| && forall i :: 0 <= i < n ==> steps[i].initContainer
    ensures InitCount(steps, n) == n
  {
    if n > 0 {
      CountOfInitSteps(steps, n - 1);
    }
  }

  lemma PrefixDir(steps: seq<Step>, i: nat)
    requires InitPrefix(steps) && i < |steps|
    ensures DirOf(steps, i) == i
  {
    if steps[i].initContainer {
      CountOfInitSteps(steps, i);
    }
  }

  /** The first step outside an init container and the first init-container step after it. */
  ghost predicate Collides(steps: seq<Step>, p: nat, j: nat) {
    && p < j < |steps| && !steps[p].initContainer && steps[j].initContainer
    && (forall i :: 0 <= i < p ==> steps[i].initContainer)
    && (forall i :: p < i < j ==> !steps[i].initContainer)
  }

  lemma {:induction false} CountAfter(steps: seq<Step>, p: nat, n: nat)
    requires p < n <= |steps| && forall i :: 0 <= i < p ==> steps[i].initContainer
    requires forall i :: p <= i < n ==> !steps[i].initContainer
    ensures InitCount(steps, n) == p
  {
    if n == p + 1 {
      CountOfInitSteps(steps, p);
    } else {
      CountAfter(steps, p, n - 1);
    }
  }

  lemma CollisionSharesDir(steps: seq<Step>, p: nat, j: nat)
    requires Collides(steps, p, j)
    ensures DirOf(steps, p) == p == DirOf(steps, j)
  {
    CountAfter(steps, p, j);
  }

  lemma FindCollision(steps: seq<Step>) returns (p: nat, j: nat)
    requires !InitPrefix(steps)
    ensures Collides(steps, p, j)
  {
    var a: nat, b: nat :| a < b < |steps| && steps[b].initContainer && !steps[a].initContainer;
    p := 0;
    while steps[p].initContainer
      invariant p <= a && forall i :: 0 <= i < p ==> steps[i].initContainer
      decreases a - p
    {
      p := p + 1;
    }
    j := p + 1;
    while !steps[j].initContainer
      invariant p < j <= b && forall i :: p < i < j ==> !steps[i].initContainer
      decreases b - j
    {
      j := j + 1;
    }
  }

  /** No two steps share a directory exactly when the init-container steps come first. */
  lemma DirsAreDistinctIffInitFirst(steps: seq<Step>)
    ensures DistinctDirs(steps) <==> InitPrefix(steps)
  {
    if InitPrefix(steps) {
      forall i: nat, j: nat | i < j < |steps| ensures DirOf(steps, i) != DirOf(steps, j) {
        PrefixDir(steps, i);
        PrefixDir(steps, j);
      }
    } else {
      var p, j := FindCollision(steps);
      CollisionSharesDir(steps, p, j);
    }
  }
}

module ProvisionerRunner {
  import opened Wrappers
  import opened StepDirs

  /** Who wrote a status file: the runner for a step, or container k from the config it found for a step. */
  datatype Writer = Runner(step: nat) | Container(k: nat, forStep: nat)

  /** status.json; a container's write can be seen before it is complete. */
  datatype StatusFile = Absent | Partial | Output(success: bool, writer: Writer)

  /** One step directory: the step whose config.json was written there last, and status.json. */
  datatype StepDir = StepDir(config: Option<nat>, status: StatusFile)

  type Dirs = map<nat, StepDir>

  function DirAt(dirs: Dirs, d: nat): StepDir {
    if d in dirs then dirs[d] else StepDir(None, Absent)
  }

  /** writeProvisionerInput leaves an earlier status file where it is. */
  function WithConfig(dirs: Dirs, d: nat, step: nat): Dirs {
    dirs[d := DirAt(dirs, d).(config := Some(step))]
  }

  function WithStatus(dirs: Dirs, d: nat, success: bool, writer: Writer): Dirs {
    dirs[d := DirAt(dirs, d).(status := Output(success, writer))]
  }

  /** readProvisionerOutput: None when the file is missing, empty or does not parse. */
  function ReadOutput(dirs: Dirs, d: nat): Option<(bool, Writer)> {
    match DirAt(dirs, d).status
    case Output(success, writer) => Some((success, writer))
    case _ => None
  }

  datatype StepStatus = StepStatus(step: nat, success: bool)

  /** A status file taken as an answer: its directory, the step configured there then, and what it said. */
  datatype Taken = Taken(dir: nat, config: Option<nat>, success: bool, writer: Writer)

  /** What init containers can do: write the status of a directory that has a config, each in its own. */
  ghost predicate ContainerWrites(before: Dirs, after: Dirs) {
    && after.Keys == before.Keys
    && forall d :: d in after ==> ContainerWrote(d, before[d], after[d])
  }

  ghost predicate ContainerWrote(d: nat, before: StepDir, after: StepDir) {
    && after.config == before.config
    && (after.status == before.status
        || after.status.Partial?
        || (after.status.Output? && before.config.Some? && after.status.writer == Container(d, before.config.value)))
  }

  /** Every directory is used by the step of its own number only. */
  ghost predicate OwnFiles(dirs: Dirs) {
    forall d :: d in dirs ==> OwnFile(d, dirs[d])
  }

  ghost predicate OwnFile(d: nat, dir: StepDir) {
    && (dir.config.Some? ==> dir.config.value == d)
    && (dir.status.Output? ==> dir.status.writer == Container(d, d) || dir.status.writer == Runner(d))
  }

  /** Directories of steps that have not started do not exist yet. */
  ghost predicate NoneFrom(dirs: Dirs, i: nat) {
    forall d :: d in dirs ==> d < i
  }

  ghost predicate AllSucceeded(statuses: seq<StepStatus>, n: nat)
    requires n <= |statuses|
  {
    forall i :: 0 <= i < n ==> statuses[i] == StepStatus(i, true)
  }

  class Workspace {
    /** False when no workspace directory is configured: then nothing is written. */
    const present: bool
    var dirs: Dirs
    var results: Option<seq<StepStatus>>
    /** The steps whose provisioner was run in this process. */
    var ran: seq<nat>
    /** Some file could not be written. */
    var faulted: bool
    /** The status files taken as answers, in order. */
    ghost var taken: seq<Taken>

    constructor (present: bool)
      ensures this.present == present && dirs == map[] && results == None && ran == [] && !faulted && taken == []
    {
      this.present := present;
      dirs, results, ran, faulted, taken := map[], None, [], false, [];
    }

    method ContainersAct()
      modifies this`dirs
      ensures ContainerWrites(old(dirs), dirs)
    {
      var rounds: nat := *;
      while rounds > 0
        invariant ContainerWrites(old(dirs), dirs)
      {
        rounds := rounds - 1;
        var k: nat := *;
        var success: bool := *;
        var complete: bool := *;
        if k in dirs && dirs[k].config.Some? {
          var status := if complete then Output(success, Container(k, dirs[k].config.value)) else Partial;
          dirs := dirs[k := dirs[k].(status := status)];
        }
      }
    }

    method WriteInput(d: nat, step: nat) returns (ok: bool)
      modifies this`dirs, this`faulted
      ensures ok && present ==> dirs == WithConfig(old(dirs), d, step)
      ensures !ok || !present ==> dirs == old(dirs)
      ensures (!ok ==> faulted) && (old(faulted) ==> faulted)
    {
      if !present {
        return true;
      }
      if * {
        faulted := true;
        return false;
      }
      dirs := WithConfig(dirs, d, step);
      return true;
    }

    method WriteStepOutput(d: nat, step: nat, success: bool) returns (ok: bool)
      modifies this`dirs, this`faulted
      ensures ok && present ==> dirs == WithStatus(old(dirs), d, success, Runner(step))
      ensures !ok || !present ==> dirs == old(dirs)
      ensures (!ok ==> faulted) && (old(faulted) ==> faulted)
    {
      if !present {
        return true;
      }
      if * {
        faulted := true;
        return false;
      }
      dirs := WithStatus(dirs, d, success, Runner(step));
      return true;
    }

    method WriteStatuses(statuses: seq<StepStatus>) returns (ok: bool)
      modifies this`results, this`faulted
      ensures ok && present ==> results == Some(statuses)
      ensures !ok || !present ==> results == old(results)
      ensures (!ok ==> faulted) && (old(faulted) ==> faulted)
    {
      if !present {
        return true;
      }
      if * {
        faulted := true;
        return false;
      }
      results := Some(statuses);
      return true;
    }

    /** waitForInitContainerOutput: poll until a status can be read or the context ends. */
    method WaitForOutput(d: nat) returns (output: Option<(bool, Writer)>)
      modifies this`dirs, this`taken
      ensures ContainerWrites(old(dirs), dirs)
      ensures output.Some? ==> present && output == ReadOutput(dirs, d)
      ensures taken == old(taken)
        + if output.None? then [] else [Taken(d, DirAt(dirs, d).config, output.value.0, output.value.1)]
    {
      if !present {
        return None;
      }
      var patience: nat := *;
      while patience > 0
        invariant ContainerWrites(old(dirs), dirs) && taken == old(taken)
      {
        ContainersAct();
        if * {
          return None;
        }
        output := ReadOutput(dirs, d);
        if output.Some? {
          taken := taken + [Taken(d, DirAt(dirs, d).config, output.value.0, output.value.1)];
          return;
        }
        patience := patience - 1;
      }
      return None;
    }
  }

  lemma OwnAfterContainers(before: Dirs, after: Dirs, i: nat)
    requires ContainerWrites(before, after) && OwnFiles(before) && NoneFrom(before, i)
    ensures OwnFiles(after) && NoneFrom(after, i)
  {
    forall d | d in after ensures OwnFile(d, after[d]) {
      assert OwnFile(d, before[d]) && ContainerWrote(d, before[d], after[d]);
    }
  }

  /** The status an init-container step reads in its own fresh directory is its own container's. */
  lemma ReadsItsOwn(before: Dirs, after: Dirs, i: nat)
    requires OwnFiles(before) && NoneFrom(before, i) && ContainerWrites(WithConfig(before, i, i), after)
    ensures OwnFiles(after) && NoneFrom(after, i + 1)
    ensures ReadOutput(after, i).Some? ==> ReadOutput(after, i).value.1 == Container(i, i)
  {
    var written := WithConfig(before, i, i);
    assert OwnFiles(written) && NoneFrom(written, i + 1);
    OwnAfterContainers(written, after, i + 1);
    assert ContainerWrote(i, written[i], after[i]);
  }

  method FailStep(ws: Workspace, d: nat, step: nat, statuses: seq<StepStatus>)
    modifies ws`dirs, ws`results, ws`faulted
    ensures ws.results == old(ws.results) || ws.results == Some(statuses + [StepStatus(step, false)])
    ensures ws.present && !ws.faulted ==> ws.results == Some(statuses + [StepStatus(step, false)])
    ensures old(ws.faulted) ==> ws.faulted
  {
    var ignored := ws.WriteStepOutput(d, step, false);
    ignored := ws.WriteStatuses(statuses + [StepStatus(step, false)]);
  }

  /** The directories hold the files of the steps before i, each its own. */
  ghost predicate Separate(dirs: Dirs, i: nat) {
    OwnFiles(dirs) && NoneFrom(dirs, i)
  }

  /** The answer of step `step`, whose config was written to directory d, is the status file that is there. */
  ghost predicate IsAnswer(t: Taken, dirs: Dirs, step: nat, d: nat) {
    t.dir == d && t.config == Some(step) == DirAt(dirs, d).config && ReadOutput(dirs, d) == Some((t.success, t.writer))
  }

  /** The init-container branch of the runner's loop. */
  method RunInitStep(ws: Workspace, step: nat, d: nat, statuses: seq<StepStatus>) returns (ok: bool, success: bool)
    modifies ws`dirs, ws`results, ws`faulted, ws`taken
    ensures ok ==> success && ws.present && ws.results == Some(statuses + [StepStatus(step, true)])
    ensures ws.results == old(ws.results) || ws.results == Some(statuses + [StepStatus(step, success)])
    ensures ws.present && !ws.faulted ==> ws.results == Some(statuses + [StepStatus(step, success)])
    ensures old(ws.faulted) ==> ws.faulted
    ensures old(ws.taken) <= ws.taken && |ws.taken| <= |old(ws.taken)| + 1
    ensures success ==> |ws.taken| > |old(ws.taken)|
    ensures |ws.taken| > |old(ws.taken)| ==>
      var t := ws.taken[|old(ws.taken)|];
      IsAnswer(t, ws.dirs, step, d) && success == t.success
      && (old(Separate(ws.dirs, step)) && d == step ==> t.writer == Container(step, step))
    ensures old(Separate(ws.dirs, step)) && d == step && ok ==> Separate(ws.dirs, step + 1)
  {
    success := false;
    ghost var before := ws.dirs;
    ok := ws.WriteInput(d, step);
    if !ok {
      FailStep(ws, d, step, statuses);
      return;
    }
    ghost var configured := ws.dirs;
    var output := ws.WaitForOutput(d);
    assert ws.present && d in ws.dirs ==> ContainerWrote(d, configured[d], ws.dirs[d]);
    if output.None? {
      FailStep(ws, d, step, statuses);
      return false, false;
    }
    success := output.value.0;
    if Separate(before, step) && d == step {
      ReadsItsOwn(before, ws.dirs, step);
    }
    ok := ws.WriteStatuses(statuses + [StepStatus(step, success)]);
    ok := ok && success;
  }

  /** The in-process branch: every error, before or while the provisioner runs, ends the step the same way. */
  method RunInProcessStep(ws: Workspace, step: nat, statuses: seq<StepStatus>)
    returns (ok: bool, success: bool)
    modifies ws
    ensures ws.taken == old(ws.taken)
    ensures ok ==> success && (ws.present ==> ws.results == Some(statuses + [StepStatus(step, true)]))
    ensures ws.results == old(ws.results) || ws.results == Some(statuses + [StepStatus(step, success)])
    ensures ws.present && !ws.faulted ==> ws.results == Some(statuses + [StepStatus(step, success)])
    ensures old(ws.faulted) ==> ws.faulted
    ensures ok && ws.present ==> ReadOutput(ws.dirs, step) == Some((true, Runner(step)))
    ensures success ==> ws.ran == old(ws.ran) + [step]
    ensures ws.ran == old(ws.ran) || ws.ran == old(ws.ran) + [step]
    ensures ok && ws.present ==> DirAt(ws.dirs, step).config == Some(step)
    ensures old(Separate(ws.dirs, step)) && ok ==> Separate(ws.dirs, step + 1)
  {
    success := false;
    ok := ws.WriteInput(step, step);
    if !ok {
      FailStep(ws, step, step, statuses);
      return;
    }
    ghost var configured := ws.dirs;
    ws.ContainersAct();
    if old(Separate(ws.dirs, step)) {
      assert OwnFiles(configured) && NoneFrom(configured, step + 1);
      OwnAfterContainers(configured, ws.dirs, step + 1);
    }
    assert ws.present ==> ContainerWrote(step, configured[step], ws.dirs[step]);
    if * {
      FailStep(ws, step, step, statuses);
      return false, false;
    }
    ws.ran := ws.ran + [step];
    if * {
      FailStep(ws, step, step, statuses);
      return false, false;
    }
    success := true;
    ok := ws.WriteStepOutput(step, step, true);
    if !ok {
      return;
    }
    ok := ws.WriteStatuses(statuses + [StepStatus(step, true)]);
  }

  /** What a successful step adds to the provisioners run in this process. */
  function OwnRun(steps: seq<Step>, step: nat): seq<nat>
    requires step < |steps|
  {
    if steps[step].initContainer then [] else [step]
  }

  /** The steps before n that run in this process, in order. */
  function OwnRuns(steps: seq<Step>, n: nat): seq<nat>
    requires n <= |steps|
  {
    if n == 0 then [] else OwnRuns(steps, n - 1) + OwnRun(steps, n - 1)
  }

  /**
   What a step adds to the answers taken: an init-container step that succeeded took a success, from its own
   directory with its own config; one that failed may have taken an answer; no other step takes one.
   */
  ghost predicate Answered(steps: seq<Step>, step: nat, success: bool, before: seq<Taken>, after: seq<Taken>)
    requires step < |steps|
  {
    && before <= after && |after| <= |before| + 1
    && (|after| > |before| ==> steps[step].initContainer && TakenBy(after[|before|], steps, step, success))
    && (success && steps[step].initContainer ==> |after| > |before|)
  }

  predicate TakenBy(t: Taken, steps: seq<Step>, step: nat, success: bool)
    requires step < |steps|
  {
    t.dir == DirOf(steps, step) && t.config == Some(step) && t.success == success
  }

  /** One round of the runner's loop. `d` is the directory an init-container step gets. */
  method RunStep(ws: Workspace, steps: seq<Step>, step: nat, d: nat, guestKnown: bool, statuses: seq<StepStatus>)
    returns (ok: bool, success: bool)
    requires step < |steps| && (steps[step].initContainer ==> d == DirOf(steps, step))
    modifies ws
    ensures ok ==> success && (ws.present ==> ws.results == Some(statuses + [StepStatus(step, true)]))
    ensures ws.results == old(ws.results) || ws.results == Some(statuses + [StepStatus(step, success)])
    ensures ws.present && !ws.faulted ==> ws.results == Some(statuses + [StepStatus(step, success)])
    ensures old(ws.faulted) ==> ws.faulted
    ensures success && steps[step].needsGuest ==> guestKnown
    ensures success ==> ws.ran == old(ws.ran) + OwnRun(steps, step)
    ensures Answered(steps, step, success, old(ws.taken), ws.taken)
    ensures |ws.taken| > |old(ws.taken)| ==> IsAnswer(ws.taken[|old(ws.taken)|], ws.dirs, step, d)
    ensures InitPrefix(steps) && old(Separate(ws.dirs, step)) && |ws.taken| > |old(ws.taken)| ==>
      ws.taken[|old(ws.taken)|].writer == Container(step, step)
    ensures InitPrefix(steps) && old(Separate(ws.dirs, step)) && ok ==> Separate(ws.dirs, step + 1)
  {
    ghost var dirs := ws.dirs;
    ws.ContainersAct();
    if Separate(dirs, step) {
      OwnAfterContainers(dirs, ws.dirs, step);
    }
    if steps[step].needsGuest && !guestKnown {
      FailStep(ws, step, step, statuses);
      return false, false;
    }
    if InitPrefix(steps) {
      PrefixDir(steps, step);
    }
    if steps[step].initContainer {
      ok, success := RunInitStep(ws, step, d, statuses);
    } else {
      ok, success := RunInProcessStep(ws, step, statuses);
    }
  }

  /** A step that succeeded was allowed to run, and if it runs in a container, its k-th answer says so. */
  ghost predicate Justified(steps: seq<Step>, i: nat, success: bool, taken: seq<Taken>, guestKnown: bool)
    requires i < |steps|
  {
    success ==>
      && (steps[i].needsGuest ==> guestKnown)
      && (steps[i].initContainer ==>
            InitCount(steps, i) < |taken| && TakenBy(taken[InitCount(steps, i)], steps, i, true))
  }

  ghost predicate AllJustified(steps: seq<Step>, statuses: seq<StepStatus>, taken: seq<Taken>, guestKnown: bool) {
    && |statuses| <= |steps| && |taken| <= InitCount(steps, |statuses|)
    && forall i :: 0 <= i < |statuses| ==> Justified(steps, i, statuses[i].success, taken, guestKnown)
  }

  /** The k-th answer is that of container k, for a config written for step k. */
  ghost predicate TakenFromOwn(taken: seq<Taken>) {
    forall k: nat :: k < |taken| ==> taken[k].writer == Container(k, k)
  }

  ghost predicate ResultsAreRecorded(results: Option<seq<StepStatus>>, statuses: seq<StepStatus>) {
    results.None? || results.value <= statuses
  }

  lemma RecordOne(steps: seq<Step>, statuses: seq<StepStatus>, before: seq<Taken>, after: seq<Taken>, guestKnown: bool,
                  success: bool)
    requires AllJustified(steps, statuses, before, guestKnown) && |statuses| < |steps|
    requires |before| == InitCount(steps, |statuses|)
    requires Answered(steps, |statuses|, success, before, after)
    requires success && steps[|statuses|].needsGuest ==> guestKnown
    ensures AllJustified(steps, statuses + [StepStatus(|statuses|, success)], after, guestKnown)
    ensures success ==> |after| == InitCount(steps, |statuses| + 1)
  {
    var n := |statuses|;
    forall i | 0 <= i <= n
      ensures Justified(steps, i, (statuses + [StepStatus(n, success)])[i].success, after, guestKnown)
    {
      if i < n {
        assert Justified(steps, i, statuses[i].success, before, guestKnown);
        assert forall k :: 0 <= k < |before| ==> after[k] == before[k];
      }
    }
  }

  /** SequentialProvisionerRunner.Run, for `steps` as they were expanded from the spec. */
  method Run(ws: Workspace, steps: seq<Step>, guestKnown: bool) returns (ok: bool, statuses: seq<StepStatus>)
    requires ws.results == None && ws.ran == [] && ws.taken == []
    modifies ws
    ensures ok ==> ws.ran == OwnRuns(steps, |steps|)
    ensures ok ==> |statuses| == |steps| && AllSucceeded(statuses, |steps|)
    ensures ok && ws.present && steps != [] ==> ws.results == Some(statuses)
    ensures !ok ==>
      0 < |statuses| && AllSucceeded(statuses, |statuses| - 1) && statuses[|statuses| - 1].step == |statuses| - 1
    ensures ResultsAreRecorded(ws.results, statuses)
    ensures ws.present && !ws.faulted && steps != [] ==> ws.results == Some(statuses)
    ensures AllJustified(steps, statuses, ws.taken, guestKnown)
    ensures InitPrefix(steps) && old(ws.dirs) == map[] ==> TakenFromOwn(ws.taken)
  {
    statuses := [];
    var externalStep := 0;
    for step := 0 to |steps|
      invariant |statuses| == step && AllSucceeded(statuses, step)
      invariant externalStep == InitCount(steps, step) == |ws.taken| && ws.ran == OwnRuns(steps, step)
      invariant ws.present && step > 0 ==> ws.results == Some(statuses)
      invariant ResultsAreRecorded(ws.results, statuses)
      invariant AllJustified(steps, statuses, ws.taken, guestKnown)
      invariant InitPrefix(steps) && old(ws.dirs) == map[] ==> Separate(ws.dirs, step) && TakenFromOwn(ws.taken)
    {
      var configStep := externalStep;
      if steps[step].initContainer {
        externalStep := externalStep + 1;
      }
      ghost var before := ws.taken;
      var success;
      ok, success := RunStep(ws, steps, step, configStep, guestKnown, statuses);
      RecordOne(steps, statuses, before, ws.taken, guestKnown, success);
      if InitPrefix(steps) && old(ws.dirs) == map[] {
        OwnAnswers(steps, step, before, ws.taken);
      }
      statuses := statuses + [StepStatus(step, success)];
      if !ok {
        return;
      }
    }
    return true, statuses;
  }

  lemma OwnAnswers(steps: seq<Step>, step: nat, before: seq<Taken>, after: seq<Taken>)
    requires step < |steps| && InitPrefix(steps) && |before| == InitCount(steps, step) && TakenFromOwn(before)
    requires before <= after && |after| <= |before| + 1
    requires |after| > |before| ==> steps[step].initContainer && after[|before|].writer == Container(step, step)
    ensures TakenFromOwn(after)
  {
    PrefixDir(steps, step);
    assert forall k :: 0 <= k < |before| ==> after[k] == before[k];
  }

  /**
   When an init-container step comes after another kind of step, the first such step finds the status that
   the runner itself wrote for the earlier step, and writing its config leaves that status readable: without
   any container having run it is taken for the container's success.
   */
  lemma EarlierStatusIsTaken(steps: seq<Step>, dirs: Dirs)
    requires !InitPrefix(steps)
    ensures exists p: nat, j: nat :: Collides(steps, p, j) && TakenFromRunner(steps, dirs, p, j)
  {
    var p, j := FindCollision(steps);
    CollisionSharesDir(steps, p, j);
    assert TakenFromRunner(steps, dirs, p, j);
  }

  ghost predicate TakenFromRunner(steps: seq<Step>, dirs: Dirs, p: nat, j: nat)
    requires p < |steps| && j < |steps|
  {
    var finished := WithStatus(WithConfig(dirs, DirOf(steps, p), p), DirOf(steps, p), true, Runner(p));
    ReadOutput(WithConfig(finished, DirOf(steps, j), j), DirOf(steps, j)) == Some((true, Runner(p)))
  }
}

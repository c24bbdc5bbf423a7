/** The ISO build: which provisioners run when, and the order in which the build touches disk, VM and artifact. */
module ProvisionerPhases {
  datatype Kind = CloudInit | Sysprep | OtherType(name: string)

  datatype Spec = Spec(kind: Kind, id: nat)

  /** What runPrebootProvisioners runs itself. */
  function BeforeBoot(specs: seq<Spec>): seq<Spec> {
    Only(specs, 0)
  }

  /** What runPrebootProvisioners hands on. */
  function AfterBoot(specs: seq<Spec>): seq<Spec> {
    if specs == [] then []
    else AfterBoot(specs[..|specs| - 1]) + if specs[|specs| - 1].kind == CloudInit then [] else [specs[|specs| - 1]]
  }

  /** provisionersBeforeSysprep */
  function BeforeSysprep(specs: seq<Spec>): seq<Spec> {
    if specs == [] then []
    else BeforeSysprep(specs[..|specs| - 1]) + if specs[|specs| - 1].kind == Sysprep then [] else [specs[|specs| - 1]]
  }

  /** The part of the build a provisioner belongs to: before boot, in the guest, last. */
  function Phase(spec: Spec): nat {
    match spec.kind
    case CloudInit => 0
    case OtherType(_) => 1
    case Sysprep => 2
  }

  function Only(specs: seq<Spec>, phase: nat): seq<Spec> {
    if specs == [] then []
    else Only(specs[..|specs| - 1], phase) + if Phase(specs[|specs| - 1]) == phase then [specs[|specs| - 1]] else []
  }

  /** sysprepProvisioner: only the first one. */
  function FirstSysprep(specs: seq<Spec>): (r: seq<Spec>)
    ensures |r| <= 1
  {
    if specs == [] then [] else if specs[0].kind == Sysprep then [specs[0]] else FirstSysprep(specs[1..])
  }

  /** The order in which a build that succeeds has run the provisioners of an expanded list. */
  function Executed(specs: seq<Spec>): seq<Spec> {
    BeforeBoot(specs) + BeforeSysprep(AfterBoot(specs)) + FirstSysprep(AfterBoot(specs))
  }

  /** runPrebootProvisioners: `ran` are the specs whose provisioner was run here. */
  method RunPreboot(specs: seq<Spec>) returns (ok: bool, postBoot: seq<Spec>, ran: seq<Spec>)
    ensures ok ==> ran == BeforeBoot(specs) && postBoot == AfterBoot(specs)
    ensures exists n :: 0 <= n <= |specs| && ran == BeforeBoot(specs[..n])
  {
    postBoot, ran := [], [];
    for i := 0 to |specs|
      invariant ran == BeforeBoot(specs[..i]) && postBoot == AfterBoot(specs[..i])
    {
      assert specs[..i + 1][..i] == specs[..i];
      if specs[i].kind != CloudInit {
        postBoot := postBoot + [specs[i]];
      } else {
        if * {
          return false, postBoot, ran;
        }
        ran := ran + [specs[i]];
      }
    }
    assert specs[..|specs|] == specs;
    return true, postBoot, ran;
  }

  lemma OnlyAppended(specs: seq<Spec>, last: Spec, phase: nat)
    ensures Only(specs + [last], phase) == Only(specs, phase) + if Phase(last) == phase then [last] else []
  {
    assert (specs + [last])[..|specs|] == specs;
  }

  lemma BeforeSysprepAppended(specs: seq<Spec>, last: Spec)
    ensures BeforeSysprep(specs + [last]) == BeforeSysprep(specs) + if Phase(last) == 2 then [] else [last]
  {
    assert (specs + [last])[..|specs|] == specs;
  }

  lemma AfterBootAppended(specs: seq<Spec>, last: Spec)
    ensures AfterBoot(specs + [last]) == AfterBoot(specs) + if Phase(last) == 0 then [] else [last]
  {
    assert (specs + [last])[..|specs|] == specs;
  }

  lemma {:induction false} PartsByPhase(specs: seq<Spec>)
    ensures BeforeSysprep(AfterBoot(specs)) == Only(specs, 1)
    ensures Only(AfterBoot(specs), 2) == Only(specs, 2)
  {
    if specs != [] {
      var before, x := specs[..|specs| - 1], specs[|specs| - 1];
      PartsByPhase(before);
      PartsByPhaseStep(before, x);
      assert before + [x] == specs;
    }
  }

  lemma PartsByPhaseStep(before: seq<Spec>, x: Spec)
    requires BeforeSysprep(AfterBoot(before)) == Only(before, 1) && Only(AfterBoot(before), 2) == Only(before, 2)
    ensures BeforeSysprep(AfterBoot(before + [x])) == Only(before + [x], 1)
    ensures Only(AfterBoot(before + [x]), 2) == Only(before + [x], 2)
  {
    var rest := AfterBoot(before);
    AfterBootAppended(before, x);
    OnlyAppended(before, x, 1);
    OnlyAppended(before, x, 2);
    BeforeSysprepAppended(rest, x);
    OnlyAppended(rest, x, 2);
    assert rest + [] == rest && Only(before, 1) + [] == Only(before, 1) && Only(before, 2) + [] == Only(before, 2);
  }

  lemma {:induction false} FirstOfSyspreps(specs: seq<Spec>)
    ensures FirstSysprep(specs) == if Only(specs, 2) == [] then [] else [Only(specs, 2)[0]]
  {
    if specs != [] {
      var n := |specs| - 1;
      FirstOfSyspreps(specs[..n]);
      FirstOfAppended(specs[..n], specs[n]);
      assert specs[..n] + [specs[n]] == specs;
    }
  }

  lemma {:induction false} FirstOfAppended(specs: seq<Spec>, last: Spec)
    ensures FirstSysprep(specs + [last]) ==
      if FirstSysprep(specs) != [] then FirstSysprep(specs) else if last.kind == Sysprep then [last] else []
  {
    if specs == [] {
      assert (specs + [last])[1..] == [];
    } else {
      FirstOfAppended(specs[1..], last);
      assert (specs + [last])[1..] == specs[1..] + [last];
    }
  }

  /** A successful build runs the phases one after the other, and of the syspreps the first. */
  lemma ExecutedByPhase(specs: seq<Spec>)
    ensures Executed(specs)
      == Only(specs, 0) + Only(specs, 1) + if |Only(specs, 2)| <= 1 then Only(specs, 2) else [Only(specs, 2)[0]]
  {
    PartsByPhase(specs);
    FirstOfSyspreps(AfterBoot(specs));
    if |Only(specs, 2)| == 1 {
      assert [Only(specs, 2)[0]] == Only(specs, 2);
    }
  }

  ghost predicate Partitioned(specs: seq<Spec>) {
    multiset(specs) == multiset(Only(specs, 0)) + multiset(Only(specs, 1)) + multiset(Only(specs, 2))
  }

  lemma PartitionFromEnd(specs: seq<Spec>)
    requires specs != [] && Partitioned(specs[..|specs| - 1])
    ensures Partitioned(specs)
  {
    PartitionGrows(specs[..|specs| - 1], specs[|specs| - 1]);
    assert specs[..|specs| - 1] + [specs[|specs| - 1]] == specs;
  }

  lemma {:induction false} PhasesPartition(specs: seq<Spec>)
    ensures Partitioned(specs)
  {
    if specs != [] {
      PhasesPartition(specs[..|specs| - 1]);
      PartitionFromEnd(specs);
    }
  }

  lemma PartitionGrows(before: seq<Spec>, x: Spec)
    requires Partitioned(before)
    ensures Partitioned(before + [x])
  {
    PartitionStep(before, x, Only(before, 0), Only(before, 1), Only(before, 2));
    OnlyAppended(before, x, 0);
    OnlyAppended(before, x, 1);
    OnlyAppended(before, x, 2);
  }

  lemma PartitionStep(before: seq<Spec>, x: Spec, a: seq<Spec>, b: seq<Spec>, c: seq<Spec>)
    requires multiset(before) == multiset(a) + multiset(b) + multiset(c)
    ensures multiset(before + [x])
      == multiset(a + if Phase(x) == 0 then [x] else []) + multiset(b + if Phase(x) == 1 then [x] else [])
       + multiset(c + if Phase(x) == 2 then [x] else [])
  {
  }

  /** Every provisioner of the list is run, each once, exactly when at most one of them is a sysprep. */
  lemma AllRunIffOneSysprep(specs: seq<Spec>)
    ensures multiset(Executed(specs)) == multiset(specs) <==> |Only(specs, 2)| <= 1
  {
    ExecutedByPhase(specs);
    PhasesPartition(specs);
    var others, all := Only(specs, 0) + Only(specs, 1), Only(specs, 2);
    assert multiset(specs) == multiset(others) + multiset(all);
    if |all| > 1 {
      assert Executed(specs) == others + [all[0]];
      assert |multiset(specs)| == |others| + |all| && |multiset(Executed(specs))| == |others| + 1;
    } else {
      assert Executed(specs) == others + all;
    }
  }

  ghost predicate Phased(specs: seq<Spec>) {
    forall i, j :: 0 <= i < j < |specs| ==> Phase(specs[i]) <= Phase(specs[j])
  }

  lemma {:induction false} OnlyHasPhase(specs: seq<Spec>, phase: nat)
    ensures forall s :: s in Only(specs, phase) ==> Phase(s) == phase && s in specs
  {
    if specs != [] {
      OnlyHasPhase(specs[..|specs| - 1], phase);
    }
  }

  lemma {:induction false} NoneOfPhase(specs: seq<Spec>, phase: nat)
    requires forall s :: s in specs ==> Phase(s) != phase
    ensures Only(specs, phase) == []
  {
    if specs != [] {
      NoneOfPhase(specs[..|specs| - 1], phase);
    }
  }

  lemma ConcatenationGrows(before: seq<Spec>, x: Spec)
    requires forall s :: s in before ==> Phase(s) <= Phase(x)
    requires before == Only(before, 0) + Only(before, 1) + Only(before, 2)
    ensures before + [x] == Only(before + [x], 0) + Only(before + [x], 1) + Only(before + [x], 2)
  {
    if Phase(x) < 2 {
      NoneOfPhase(before, 2);
    }
    if Phase(x) < 1 {
      NoneOfPhase(before, 1);
    }
    AppendedToLast(Only(before, 0), Only(before, 1), Only(before, 2), x);
    OnlyAppended(before, x, 0);
    OnlyAppended(before, x, 1);
    OnlyAppended(before, x, 2);
  }

  lemma AppendedToLast(a: seq<Spec>, b: seq<Spec>, c: seq<Spec>, x: Spec)
    requires (Phase(x) < 2 ==> c == []) && (Phase(x) < 1 ==> b == [])
    ensures a + b + c + [x] == (a + if Phase(x) == 0 then [x] else []) + (b + if Phase(x) == 1 then [x] else [])
      + (c + if Phase(x) == 2 then [x] else [])
  {
  }

  lemma {:induction false} PhasedIsConcatenation(specs: seq<Spec>)
    requires Phased(specs)
    ensures specs == Only(specs, 0) + Only(specs, 1) + Only(specs, 2)
  {
    if specs != [] {
      var n := |specs| - 1;
      PhasedIsConcatenation(specs[..n]);
      ConcatenationGrows(specs[..n], specs[n]);
      assert specs[..n] + [specs[n]] == specs;
    }
  }

  lemma PartsArePhased(a: seq<Spec>, b: seq<Spec>, c: seq<Spec>)
    requires forall s :: s in a ==> Phase(s) == 0
    requires forall s :: s in b ==> Phase(s) == 1
    requires forall s :: s in c ==> Phase(s) == 2
    ensures Phased(a + b + c)
  {
    var all := a + b + c;
    forall i | 0 <= i < |all| ensures Phase(all[i]) == if i < |a| then 0 else if i < |a| + |b| then 1 else 2 {
      assert all[i] == if i < |a| then a[i] else if i < |a| + |b| then b[i - |a|] else c[i - |a| - |b|];
    }
  }

  /** The list is run in its own order exactly when it is phased already and names one sysprep at most. */
  lemma OwnOrderIffPhased(specs: seq<Spec>)
    ensures Executed(specs) == specs <==> Phased(specs) && |Only(specs, 2)| <= 1
  {
    ExecutedByPhase(specs);
    if Phased(specs) && |Only(specs, 2)| <= 1 {
      PhasedIsConcatenation(specs);
    }
    if Executed(specs) == specs {
      AllRunIffOneSysprep(specs);
      OnlyHasPhase(specs, 0);
      OnlyHasPhase(specs, 1);
      OnlyHasPhase(specs, 2);
      PartsArePhased(Only(specs, 0), Only(specs, 1), Only(specs, 2));
    }
  }
}

module IsoBuild {
  import opened ProvisionerPhases

  datatype Stage =
    | CreateDisk | StartVM | BootKeys | Readiness | Provision | Sanitize | Hygiene | SysprepRun | Finalize
    | WaitExit | Convert | Archive | Checksum

  function Rank(stage: Stage): (r: nat)
    ensures r < 13 && StageAt(r) == stage
  {
    match stage
    case CreateDisk => 0 case StartVM => 1 case BootKeys => 2 case Readiness => 3 case Provision => 4
    case Sanitize => 5 case Hygiene => 6 case SysprepRun => 7 case Finalize => 8 case WaitExit => 9
    case Convert => 10 case Archive => 11 case Checksum => 12
  }

  function StageAt(r: nat): Stage
    requires r < 13
  {
    if r < 6 then
      if r == 0 then CreateDisk else if r == 1 then StartVM else if r == 2 then BootKeys else if r == 3 then Readiness
      else if r == 4 then Provision else Sanitize
    else if r == 6 then Hygiene else if r == 7 then SysprepRun else if r == 8 then Finalize else if r == 9 then WaitExit
    else if r == 10 then Convert else if r == 11 then Archive else Checksum
  }

  /** What one build is asked for; `postBoot` is what is left after the pre-boot provisioners. */
  datatype Config = Config(guest: bool, credentials: bool, tarball: bool, postBoot: seq<Spec>)

  predicate Needed(stage: Stage, c: Config) {
    match stage
    case Readiness => c.guest
    case Hygiene => c.guest
    case Sanitize => c.credentials
    case Provision => BeforeSysprep(c.postBoot) != []
    case SysprepRun => FirstSysprep(c.postBoot) != []
    case Finalize => c.postBoot != [] || c.credentials
    case Archive => c.tarball
    case _ => true
  }

  /** An effect of the build: a stage and how it went, or one of the steps that undo or clean up. */
  datatype Effect =
    | Did(stage: Stage, ok: bool)
    | StopVM | RemoveDisk | RemoveArtifact | RemoveRaw | CleanCredentials | CleanWorkspace

  /** The needed stages of rank below r, all successful. */
  function Done(c: Config, r: nat): (trace: seq<Effect>)
    requires r <= 13
    ensures |trace| <= r
  {
    if r == 0 then []
    else Done(c, r - 1) + if Needed(StageAt(r - 1), c) then [Did(StageAt(r - 1), true)] else []
  }

  /** What an error return does about a stage that failed. */
  function Undo(stage: Stage): seq<Effect> {
    if Rank(stage) <= 1 || stage == WaitExit then [RemoveDisk]
    else if Rank(stage) <= 8 then [StopVM, RemoveDisk]
    else if stage == Convert then [RemoveArtifact]
    else []
  }

  /** The deferred calls, last registered first. */
  function Deferred(c: Config, converted: bool): seq<Effect> {
    (if converted && c.tarball then [RemoveRaw] else [])
    + (if c.credentials then [CleanCredentials] else []) + [CleanWorkspace]
  }

  /** The whole trace when the stage of rank r is the one that failed. */
  function FailedAt(c: Config, r: nat): seq<Effect>
    requires r < 13
  {
    Done(c, r) + [Did(StageAt(r), false)] + Undo(StageAt(r)) + Deferred(c, r > 10)
  }

  /** The build came to the stage of rank r and failed there; r is 13 when it never failed. */
  ghost predicate StoppedAt(c: Config, trace: seq<Effect>, r: nat) {
    if r == 13 then trace == Done(c, r) + Deferred(c, true)
    else r < 13 && Needed(StageAt(r), c) && trace == FailedAt(c, r)
  }

  /** Everything a build can have done when it returns. */
  ghost predicate BuildTrace(c: Config, trace: seq<Effect>, ok: bool) {
    || (!ok && trace == Deferred(c, false))
    || exists r: nat :: StoppedAt(c, trace, r) && (ok <==> r == 13)
  }

  class Host {
    var trace: seq<Effect>
    /** The provisioners whose run has succeeded, in order. */
    var provisioned: seq<Spec>

    constructor ()
      ensures trace == [] && provisioned == []
    {
      trace, provisioned := [], [];
    }

    /** Any external step can fail. */
    method Attempt(stage: Stage) returns (ok: bool)
      modifies this`trace
      ensures trace == old(trace) + [Did(stage, ok)]
    {
      ok := *;
      trace := trace + [Did(stage, ok)];
    }

    method Record(effects: seq<Effect>)
      modifies this`trace
      ensures trace == old(trace) + effects
    {
      trace := trace + effects;
    }
  }

  /** From the create command to the process's exit; `reached` is the stage that failed. */
  method InstallGuest(host: Host, c: Config) returns (ok: bool, ghost reached: nat)
    requires host.trace == []
    modifies host
    ensures ok ==> host.trace == Done(c, 10)
    ensures ok ==> host.provisioned == old(host.provisioned) + BeforeSysprep(c.postBoot) + FirstSysprep(c.postBoot)
    ensures !ok ==> reached < 10 && Needed(StageAt(reached), c)
    ensures !ok ==> host.trace == Done(c, reached) + [Did(StageAt(reached), false)] + Undo(StageAt(reached))
  {
    reached := 0;
    ok := host.Attempt(CreateDisk);
    if !ok {
      host.Record([RemoveDisk]);
      return;
    }
    reached := 1;
    ok := host.Attempt(StartVM);
    if !ok {
      host.Record([RemoveDisk]);
      return;
    }
    assert host.trace == Done(c, 2);
    ok, reached := DriveGuest(host, c);
    if !ok {
      return;
    }
    reached := 9;
    ok := host.Attempt(WaitExit);
    if !ok {
      host.Record([RemoveDisk]);
    }
  }

  /** A stage with the VM running: its failure stops the process and removes the disk. */
  method TryInGuest(host: Host, stage: Stage, specs: seq<Spec>, ghost c: Config) returns (ok: bool)
    requires 2 <= Rank(stage) <= 8 && Needed(stage, c) && host.trace == Done(c, Rank(stage))
    modifies host
    ensures ok ==> host.trace == Done(c, Rank(stage) + 1) && host.provisioned == old(host.provisioned) + specs
    ensures !ok ==> host.trace == Done(c, Rank(stage)) + [Did(stage, false)] + Undo(stage)
  {
    ok := host.Attempt(stage);
    if !ok {
      host.Record([StopVM, RemoveDisk]);
      return;
    }
    host.provisioned := host.provisioned + specs;
  }

  /** A stage that is not needed leaves no effect. */
  lemma NotNeeded(c: Config, stage: Stage)
    requires !Needed(stage, c)
    ensures Done(c, Rank(stage) + 1) == Done(c, Rank(stage))
  {
  }

  /** Boot keys and, with guest access, waiting for the guest. */
  method BootGuest(host: Host, c: Config) returns (ok: bool, ghost reached: nat)
    requires host.trace == Done(c, 2)
    modifies host
    ensures ok ==> host.trace == Done(c, 4) && host.provisioned == old(host.provisioned)
    ensures !ok ==> 2 <= reached < 4 && Needed(StageAt(reached), c)
    ensures !ok ==> host.trace == Done(c, reached) + [Did(StageAt(reached), false)] + Undo(StageAt(reached))
  {
    reached := 2;
    ok := TryInGuest(host, BootKeys, [], c);
    if !ok {
      return;
    }
    if c.guest {
      reached := 3;
      ok := TryInGuest(host, Readiness, [], c);
    } else {
      NotNeeded(c, Readiness);
    }
  }

  /** Provisioners up to sysprep, then the removal of the build's own credentials. */
  method ProvisionGuest(host: Host, c: Config) returns (ok: bool, ghost reached: nat)
    requires host.trace == Done(c, 4)
    modifies host
    ensures ok ==> host.trace == Done(c, 6) && host.provisioned == old(host.provisioned) + BeforeSysprep(c.postBoot)
    ensures !ok ==> 4 <= reached < 6 && Needed(StageAt(reached), c)
    ensures !ok ==> host.trace == Done(c, reached) + [Did(StageAt(reached), false)] + Undo(StageAt(reached))
  {
    reached := 4;
    if |c.postBoot| > 0 && |BeforeSysprep(c.postBoot)| > 0 {
      ok := TryInGuest(host, Provision, BeforeSysprep(c.postBoot), c);
      if !ok {
        return;
      }
    } else {
      NotNeeded(c, Provision);
    }
    reached := 5;
    ok := true;
    if c.credentials {
      ok := TryInGuest(host, Sanitize, [], c);
    } else {
      NotNeeded(c, Sanitize);
    }
  }

  /** Everything between the start of the VM and waiting for it to exit. */
  method DriveGuest(host: Host, c: Config) returns (ok: bool, ghost reached: nat)
    requires host.trace == Done(c, 2)
    modifies host
    ensures ok ==> host.trace == Done(c, 9)
    ensures ok ==> host.provisioned == old(host.provisioned) + BeforeSysprep(c.postBoot) + FirstSysprep(c.postBoot)
    ensures !ok ==> 2 <= reached < 9 && Needed(StageAt(reached), c)
    ensures !ok ==> host.trace == Done(c, reached) + [Did(StageAt(reached), false)] + Undo(StageAt(reached))
  {
    ok, reached := BootGuest(host, c);
    if !ok {
      return;
    }
    ok, reached := ProvisionGuest(host, c);
    if !ok {
      return;
    }
    ok, reached := SealGuest(host, c);
  }

  /** Hygiene check, sysprep and shutdown. */
  method SealGuest(host: Host, c: Config) returns (ok: bool, ghost reached: nat)
    requires host.trace == Done(c, 6)
    modifies host
    ensures ok ==> host.trace == Done(c, 9) && host.provisioned == old(host.provisioned) + FirstSysprep(c.postBoot)
    ensures !ok ==> 6 <= reached < 9 && Needed(StageAt(reached), c)
    ensures !ok ==> host.trace == Done(c, reached) + [Did(StageAt(reached), false)] + Undo(StageAt(reached))
  {
    ok, reached := true, 6;
    if c.guest {
      ok := TryInGuest(host, Hygiene, [], c);
      if !ok {
        return;
      }
    } else {
      NotNeeded(c, Hygiene);
    }
    if FirstSysprep(c.postBoot) != [] {
      reached := 7;
      ok := TryInGuest(host, SysprepRun, FirstSysprep(c.postBoot), c);
      if !ok {
        return;
      }
    } else {
      NotNeeded(c, SysprepRun);
    }
    if |c.postBoot| > 0 || c.credentials {
      reached := 8;
      ok := TryInGuest(host, Finalize, [], c);
      if !ok {
        return;
      }
    } else {
      NotNeeded(c, Finalize);
    }
  }

  /** From conversion to the artifact's checksum; the raw file's removal is deferred once it exists. */
  method MakeArtifact(host: Host, c: Config) returns (ok: bool, converted: bool, ghost reached: nat)
    requires host.trace == Done(c, 10)
    modifies host`trace
    ensures ok ==> host.trace == Done(c, 13) && converted
    ensures !ok ==> 10 <= reached < 13 && Needed(StageAt(reached), c) && (converted <==> reached > 10)
    ensures !ok ==> host.trace == Done(c, reached) + [Did(StageAt(reached), false)] + Undo(StageAt(reached))
  {
    reached := 10;
    ok := host.Attempt(Convert);
    converted := ok;
    if !ok {
      host.Record([RemoveArtifact]);
      return;
    }
    assert host.trace == Done(c, 11);
    if c.tarball {
      reached := 11;
      ok := host.Attempt(Archive);
      if !ok {
        return;
      }
    }
    assert host.trace == Done(c, 12);
    reached := 12;
    ok := host.Attempt(Checksum);
  }

  /**
   QEMUISOBackend.Build for the expanded provisioners `specs`. What fails while the installer media are made
   leaves nothing of the effects above; a bad boot command or a missing guest access ends the build before
   the disk is created.
   */
  method Build(host: Host, specs: seq<Spec>, guest: bool, credentials: bool, tarball: bool, inputsValid: bool)
    returns (ok: bool)
    requires host.trace == [] && host.provisioned == []
    modifies host
    ensures host.trace == [] || BuildTrace(Config(guest, credentials, tarball, AfterBoot(specs)), host.trace, ok)
    ensures ok ==> host.trace != [] && inputsValid && host.provisioned == Executed(specs)
  {
    var preboot, postBoot, ran := RunPreboot(specs);
    host.provisioned := ran;
    if !preboot {
      return false;
    }
    if * {
      return false;
    }
    var c := Config(guest, credentials, tarball, postBoot);
    if !inputsValid {
      host.Record(Deferred(c, false));
      return false;
    }
    ghost var reached;
    ok, reached := InstallGuest(host, c);
    if !ok {
      host.Record(Deferred(c, false));
      assert StoppedAt(c, host.trace, reached);
      return;
    }
    var converted;
    ok, converted, reached := MakeArtifact(host, c);
    host.Record(Deferred(c, converted));
    assert StoppedAt(c, host.trace, if ok then 13 else reached);
  }

  lemma {:induction false} DoneIsSuccess(c: Config, r: nat, e: Effect)
    requires r <= 13 && e in Done(c, r)
    ensures e.Did? && e.ok && Rank(e.stage) < r && Needed(e.stage, c)
  {
    if r > 0 && e in Done(c, r - 1) {
      DoneIsSuccess(c, r - 1, e);
    }
  }

  lemma {:induction false} DoneGrows(c: Config, low: nat, high: nat)
    requires low <= high <= 13
    ensures Done(c, low) <= Done(c, high)
  {
    if low < high {
      DoneGrows(c, low, high - 1);
    }
  }

  /** A needed stage of rank k is the effect after those of lower rank. */
  lemma DoneAt(c: Config, k: nat, r: nat)
    requires k < r <= 13 && Needed(StageAt(k), c)
    ensures |Done(c, k)| < |Done(c, r)| && Done(c, r)[|Done(c, k)|] == Did(StageAt(k), true)
  {
    DoneGrows(c, k + 1, r);
    assert Done(c, k + 1)[|Done(c, k)|] == Did(StageAt(k), true);
  }

  lemma {:induction false} DoneIsAscending(c: Config, r: nat, i: nat, j: nat)
    requires r <= 13 && i < j < |Done(c, r)|
    ensures Done(c, r)[i].Did? && Done(c, r)[j].Did? && Rank(Done(c, r)[i].stage) < Rank(Done(c, r)[j].stage)
  {
    var before := Done(c, r - 1);
    if j < |before| {
      DoneIsAscending(c, r - 1, i, j);
    } else {
      assert before[i] in before;
      DoneIsSuccess(c, r - 1, before[i]);
    }
  }

  /** The same trace, seen as its stages, the failed stage if any, and what undoes and cleans up. */
  ghost predicate Shape(c: Config, trace: seq<Effect>, r: nat, rest: seq<Effect>) {
    && r <= 13 && trace == Done(c, r) + rest
    && (forall i :: 0 <= i < |rest| && rest[i].Did? ==> i == 0 && r < 13 && rest[i] == Did(StageAt(r), false))
  }

  lemma StoppedShape(c: Config, trace: seq<Effect>, r: nat)
    requires StoppedAt(c, trace, r)
    ensures Shape(c, trace, r, trace[|Done(c, r)|..])
  {
    var tail := (if r == 13 then [] else Undo(StageAt(r))) + Deferred(c, r > 10);
    assert forall i :: 0 <= i < |tail| ==> !tail[i].Did?;
    assert trace == Done(c, r) + ((if r == 13 then [] else [Did(StageAt(r), false)]) + tail);
  }

  lemma TraceShape(c: Config, trace: seq<Effect>, ok: bool) returns (r: nat, rest: seq<Effect>)
    requires BuildTrace(c, trace, ok)
    ensures Shape(c, trace, r, rest)
  {
    if !ok && trace == Deferred(c, false) {
      r, rest := 0, trace;
    } else {
      r :| StoppedAt(c, trace, r);
      StoppedShape(c, trace, r);
      rest := trace[|Done(c, r)|..];
    }
  }

  lemma LastStage(c: Config, trace: seq<Effect>, r: nat, rest: seq<Effect>)
    requires Shape(c, trace, r, rest)
    ensures forall k :: |Done(c, r)| < k < |trace| ==> !trace[k].Did?
    ensures |trace| > |Done(c, r)| && trace[|Done(c, r)|].Did? ==>
      r < 13 && trace[|Done(c, r)|] == Did(StageAt(r), false)
  {
    assert forall k :: |Done(c, r)| <= k < |trace| ==> trace[k] == rest[k - |Done(c, r)|];
  }

  lemma ShapeInOrder(c: Config, trace: seq<Effect>, r: nat, rest: seq<Effect>, i: nat, j: nat)
    requires Shape(c, trace, r, rest) && i < j < |trace| && trace[i].Did? && trace[j].Did?
    ensures i < |Done(c, r)| && trace[i].ok && Rank(trace[i].stage) < Rank(trace[j].stage)
  {
    var done := Done(c, r);
    LastStage(c, trace, r, rest);
    DoneIsSuccess(c, r, done[i]);
    if j < |done| {
      DoneIsAscending(c, r, i, j);
    }
  }

  /** On every path the stages come in the fixed order, none twice, and nothing follows a failed one. */
  lemma StagesInOrder(c: Config, trace: seq<Effect>, ok: bool, i: nat, j: nat)
    requires BuildTrace(c, trace, ok) && i < j < |trace| && trace[i].Did? && trace[j].Did?
    ensures trace[i].ok && Rank(trace[i].stage) < Rank(trace[j].stage)
  {
    var r, rest := TraceShape(c, trace, ok);
    ShapeInOrder(c, trace, r, rest, i, j);
  }

  lemma ShapeConvertsAfterExit(c: Config, trace: seq<Effect>, r: nat, rest: seq<Effect>, i: nat)
    requires Shape(c, trace, r, rest) && i < |trace| && trace[i].Did? && trace[i].stage == Convert
    ensures Did(WaitExit, true) in trace[..i] && forall e :: e in trace[..i] ==> e.Did?
  {
    var done := Done(c, r);
    assert r > 9 && i <= |done| by {
      LastStage(c, trace, r, rest);
      if i < |done| {
        DoneIsSuccess(c, r, done[i]);
      }
    }
    var w := |Done(c, 9)|;
    DoneAt(c, 9, r);
    if i < w {
      ShapeInOrder(c, trace, r, rest, i, w);
    }
    assert trace[..i][w] == Did(WaitExit, true);
    forall k | 0 <= k < i ensures trace[k].Did? {
      DoneIsSuccess(c, r, done[k]);
    }
  }

  /** Conversion never starts unless the VM process has exited cleanly, with the disk still in place. */
  lemma ConversionNeedsCleanExit(c: Config, trace: seq<Effect>, ok: bool, i: nat)
    requires BuildTrace(c, trace, ok) && i < |trace| && trace[i].Did? && trace[i].stage == Convert
    ensures Did(WaitExit, true) in trace[..i] && RemoveDisk !in trace[..i] && StopVM !in trace[..i]
  {
    var r, rest := TraceShape(c, trace, ok);
    ShapeConvertsAfterExit(c, trace, r, rest, i);
  }

  function IndexOf(trace: seq<Effect>, e: Effect): (i: nat)
    requires e in trace
    ensures i < |trace| && trace[i] == e
  {
    if trace[0] == e then 0 else 1 + IndexOf(trace[1..], e)
  }

  lemma ExitIsRecorded(c: Config, trace: seq<Effect>, r: nat)
    requires StoppedAt(c, trace, r) && r >= 9
    ensures Did(WaitExit, r > 9) in trace
  {
    if r > 9 {
      DoneAt(c, 9, r);
      assert trace[|Done(c, 9)|] == Did(WaitExit, true);
    } else {
      assert trace[|Done(c, r)|] == Did(WaitExit, false);
    }
  }

  lemma StartIsRecorded(c: Config, trace: seq<Effect>, r: nat)
    requires StoppedAt(c, trace, r) && Did(StartVM, true) in trace
    ensures r >= 2
  {
    StoppedShape(c, trace, r);
    var at := IndexOf(trace, Did(StartVM, true));
    LastStage(c, trace, r, trace[|Done(c, r)|..]);
    DoneIsSuccess(c, r, Done(c, r)[at]);
  }

  lemma UndoIsRecorded(c: Config, trace: seq<Effect>, r: nat)
    requires StoppedAt(c, trace, r) && 2 <= r <= 8
    ensures exists i :: 0 < i < |trace| && trace[i - 1] == StopVM && trace[i] == RemoveDisk
  {
    var n := |Done(c, r)|;
    assert Undo(StageAt(r)) == [StopVM, RemoveDisk];
    assert trace[n + 1] == StopVM && trace[n + 2] == RemoveDisk;
  }

  /** A build that gives up with the VM running stops the process and removes the disk. */
  lemma GivingUpStopsTheVM(c: Config, trace: seq<Effect>)
    requires BuildTrace(c, trace, false)
    requires Did(StartVM, true) in trace && Did(WaitExit, true) !in trace && Did(WaitExit, false) !in trace
    ensures exists i :: 0 < i < |trace| && trace[i - 1] == StopVM && trace[i] == RemoveDisk
  {
    DeferredHasNoStages(c, false);
    var r: nat :| StoppedAt(c, trace, r) && r != 13;
    StartIsRecorded(c, trace, r);
    if r >= 9 {
      ExitIsRecorded(c, trace, r);
    } else {
      UndoIsRecorded(c, trace, r);
    }
  }

  lemma DeferredHasNoStages(c: Config, converted: bool)
    ensures forall e :: e in Deferred(c, converted) ==> !e.Did?
  {
  }

  lemma EndsClean(c: Config, trace: seq<Effect>, ok: bool)
    requires BuildTrace(c, trace, ok)
    ensures trace != [] && trace[|trace| - 1] == CleanWorkspace
  {
    if ok || trace != Deferred(c, false) {
      var r: nat :| StoppedAt(c, trace, r);
      var tail := Deferred(c, r > 10);
      assert trace[|trace| - 1] == tail[|tail| - 1];
    }
  }

  /** A build succeeds only with every needed stage done, and every return ends with the workspace cleaned. */
  lemma SuccessDidEverything(c: Config, trace: seq<Effect>, ok: bool)
    requires BuildTrace(c, trace, ok)
    ensures ok ==> forall s: Stage :: Needed(s, c) ==> Did(s, true) in trace
    ensures ok ==> forall e :: e in trace && e.Did? ==> e.ok
    ensures trace != [] && trace[|trace| - 1] == CleanWorkspace
  {
    EndsClean(c, trace, ok);
    if ok {
      var r: nat :| StoppedAt(c, trace, r) && r == 13;
      StoppedShape(c, trace, r);
      forall s: Stage | Needed(s, c) ensures Did(s, true) in trace {
        DoneAt(c, Rank(s), r);
        assert trace[|Done(c, Rank(s))|] == Did(s, true);
      }
      forall e | e in trace && e.Did? ensures e.ok {
        var i :| 0 <= i < |trace| && trace[i] == e;
        assert i < |Done(c, r)|;
        DoneIsSuccess(c, r, e);
      }
    }
  }
}

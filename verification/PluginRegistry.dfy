/**
 External adapters in the plugin registry. Each call holds the lock for one step and closes what it took out
 afterwards, so other calls can come in between.
 */
module PluginRegistry {
  import opened Wrappers
  import opened ByteStrings

  datatype Adapter = Adapter(id: nat, name: Bytes)

  datatype Entry = Entry(plugin: Adapter, ownerUID: Bytes)

  /** `pending` are adapters some call has taken out and has not closed yet. */
  datatype State = State(external: map<Bytes, Entry>, pending: multiset<Adapter>, closed: multiset<Adapter>)

  const START: State := State(map[], multiset{}, multiset{})

  /** What happens atomically: the locked part of a call, or the close after it. */
  datatype Step =
    | Register(owner: Bytes, uid: Bytes, plugin: Adapter)
    | Deregister(owner: Bytes, uid: Bytes)
    | Close(plugin: Adapter)

  predicate Enabled(s: State, step: Step) {
    match step
    case Register(owner, _, _) => owner != []
    case Deregister(_, _) => true
    case Close(plugin) => plugin in s.pending
  }

  function TakenOut(s: State, owner: Bytes): multiset<Adapter> {
    if owner in s.external then multiset{s.external[owner].plugin} else multiset{}
  }

  function Next(s: State, step: Step): State {
    match step
    case Register(owner, uid, plugin) =>
      State(s.external[owner := Entry(plugin, uid)], s.pending + TakenOut(s, owner), s.closed)
    case Deregister(owner, uid) =>
      if owner in s.external && s.external[owner].ownerUID == uid
      then State(s.external - {owner}, s.pending + TakenOut(s, owner), s.closed)
      else s
    case Close(plugin) =>
      State(s.external, s.pending - multiset{plugin}, s.closed + multiset{plugin})
  }

  class Registry {
    var external: map<Bytes, Entry>
    ghost var pending: multiset<Adapter>
    ghost var closed: multiset<Adapter>

    constructor ()
      ensures Now() == START
    {
      external, pending, closed := map[], multiset{}, multiset{};
    }

    ghost function Now(): State
      reads this
    {
      State(external, pending, closed)
    }

    /** RegisterExternal up to the unlock; the caller closes what it gets back. */
    method RegisterLocked(owner: Bytes, uid: Bytes, plugin: Adapter, contractHolds: bool)
      returns (r: Result<Option<Adapter>, ()>)
      modifies this
      ensures r.Failure? <==> owner == [] || !contractHolds
      ensures r.Failure? ==> Now() == old(Now())
      ensures r.Success? ==> Now() == Next(old(Now()), Register(owner, uid, plugin))
      ensures r.Success? ==> r.value == if owner in old(external) then Some(old(external)[owner].plugin) else None
    {
      if owner == [] || !contractHolds {
        return Failure(());
      }
      var replaced := if owner in external then Some(external[owner].plugin) else None;
      external := external[owner := Entry(plugin, uid)];
      if replaced.Some? {
        pending := pending + multiset{replaced.value};
      }
      return Success(replaced);
    }

    /** DeregisterExternal up to the unlock. */
    method DeregisterLocked(owner: Bytes, uid: Bytes) returns (taken: Option<Adapter>)
      modifies this
      ensures Now() == Next(old(Now()), Deregister(owner, uid))
      ensures taken.Some? <==> owner in old(external) && old(external)[owner].ownerUID == uid
      ensures taken.Some? ==> taken.value == old(external)[owner].plugin && taken.value in pending
    {
      if owner !in external || external[owner].ownerUID != uid {
        return None;
      }
      var entry := external[owner];
      external := external - {owner};
      pending := pending + multiset{entry.plugin};
      return Some(entry.plugin);
    }

    /** closePlugin, after the unlock. */
    method ClosePlugin(plugin: Adapter)
      requires plugin in pending
      modifies this
      ensures Now() == Next(old(Now()), Close(plugin))
    {
      pending, closed := pending - multiset{plugin}, closed + multiset{plugin};
    }

    method RegisterExternal(owner: Bytes, uid: Bytes, plugin: Adapter, contractHolds: bool) returns (ok: bool)
      modifies this
      ensures ok <==> owner != [] && contractHolds
      ensures pending == old(pending)
      ensures !ok ==> Now() == old(Now())
      ensures ok ==> external == old(external)[owner := Entry(plugin, uid)]
      ensures ok ==> closed == old(closed) + TakenOut(old(Now()), owner)
    {
      var replaced := RegisterLocked(owner, uid, plugin, contractHolds);
      if replaced.Failure? {
        return false;
      }
      if replaced.value.Some? {
        ClosePlugin(replaced.value.value);
      }
      return true;
    }

    method DeregisterExternal(owner: Bytes, uid: Bytes) returns (ok: bool)
      modifies this
      ensures pending == old(pending)
      ensures ok <==> owner in old(external) && old(external)[owner].ownerUID == uid
      ensures !ok ==> Now() == old(Now())
      ensures ok ==> external == old(external) - {owner} && closed == old(closed) + TakenOut(old(Now()), owner)
    {
      var taken := DeregisterLocked(owner, uid);
      if taken.None? {
        return false;
      }
      ClosePlugin(taken.value);
      return true;
    }

    /** External: the entry is looked up under the lock and checked after it. */
    method External(owner: Bytes, uid: Bytes, providerName: Bytes) returns (r: Option<Adapter>)
      ensures r ==
        if owner in external && external[owner].ownerUID == uid && external[owner].plugin.name == providerName
        then Some(external[owner].plugin) else None
    {
      if owner !in external {
        return None;
      }
      var entry := external[owner];
      if entry.ownerUID != uid || entry.plugin.name != providerName {
        return None;
      }
      return Some(entry.plugin);
    }
  }

  function Run(s: State, steps: seq<Step>): State
    decreases steps
  {
    if steps == [] then s else Run(Next(s, steps[0]), steps[1..])
  }

  /** Every step can happen when it does. */
  ghost predicate Possible(s: State, steps: seq<Step>)
    decreases steps
  {
    steps == [] || (Enabled(s, steps[0]) && Possible(Next(s, steps[0]), steps[1..]))
  }

  /** No adapter is handed to the registry twice. */
  ghost predicate DistinctAdapters(steps: seq<Step>) {
    forall i, j :: 0 <= i < j < |steps| && steps[i].Register? && steps[j].Register? ==>
      steps[i].plugin != steps[j].plugin
  }

  function Adapters(step: Step): set<Adapter> {
    if step.Register? then {step.plugin} else {}
  }

  function Registered(steps: seq<Step>): set<Adapter> {
    if steps == [] then {} else Adapters(steps[0]) + Registered(steps[1..])
  }

  ghost predicate InMap(s: State, a: Adapter) {
    exists owner :: owner in s.external && s.external[owner].plugin == a
  }

  /** No adapter under two owners, and none that is in the map is being closed or has been. */
  ghost predicate Live(s: State) {
    && (forall o, p :: o in s.external && p in s.external && o != p ==> s.external[o].plugin != s.external[p].plugin)
    && (forall o :: o in s.external ==> s.pending[s.external[o].plugin] == 0 && s.closed[s.external[o].plugin] == 0)
  }

  /** Every adapter ever registered is in the map, about to be closed, or closed, and only one of these, once. */
  ghost predicate Accounted(s: State, registered: set<Adapter>) {
    && Live(s)
    && (forall o :: o in s.external ==> s.external[o].plugin in registered)
    && (forall a :: a !in registered ==> s.pending[a] + s.closed[a] == 0)
    && (forall a :: a in registered && !InMap(s, a) ==> s.pending[a] + s.closed[a] == 1)
  }

  /** Whatever is done about one owner, the adapters of the others stay in the map. */
  lemma OthersStay(s: State, t: State, owner: Bytes)
    requires forall o :: o in s.external && o != owner ==> o in t.external && t.external[o] == s.external[o]
    ensures forall a :: InMap(s, a) && !(owner in s.external && s.external[owner].plugin == a) ==> InMap(t, a)
  {
    forall a | InMap(s, a) && !(owner in s.external && s.external[owner].plugin == a) ensures InMap(t, a) {
      var o :| o in s.external && s.external[o].plugin == a;
      assert t.external[o].plugin == a;
    }
  }

  lemma RegisterKeepsAccount(s: State, owner: Bytes, uid: Bytes, plugin: Adapter, registered: set<Adapter>)
    requires Accounted(s, registered) && plugin !in registered
    ensures Accounted(Next(s, Register(owner, uid, plugin)), registered + {plugin})
  {
    var t := Next(s, Register(owner, uid, plugin));
    assert t.external[owner].plugin == plugin;
    RegisterKeepsLiveIffFresh(s, owner, uid, plugin);
    OthersStay(s, t, owner);
  }

  lemma DeregisterKeepsAccount(s: State, owner: Bytes, uid: Bytes, registered: set<Adapter>)
    requires Accounted(s, registered) && owner in s.external && s.external[owner].ownerUID == uid
    ensures Accounted(Next(s, Deregister(owner, uid)), registered)
  {
    var t := Next(s, Deregister(owner, uid));
    OthersStay(s, t, owner);
  }

  lemma CloseKeepsAccount(s: State, plugin: Adapter, registered: set<Adapter>)
    requires Accounted(s, registered) && plugin in s.pending
    ensures Accounted(Next(s, Close(plugin)), registered)
  {
    var t := Next(s, Close(plugin));
    forall a
      ensures t.pending[a] + t.closed[a] == s.pending[a] + s.closed[a]
      ensures t.closed[a] > 0 ==> s.closed[a] + s.pending[a] > 0
    {
    }
  }

  lemma StepKeepsAccount(s: State, step: Step, registered: set<Adapter>)
    requires Accounted(s, registered) && Enabled(s, step)
    requires step.Register? ==> step.plugin !in registered
    ensures Accounted(Next(s, step), registered + Adapters(step))
  {
    assert registered + {} == registered;
    match step
    case Register(owner, uid, plugin) => RegisterKeepsAccount(s, owner, uid, plugin, registered);
    case Deregister(owner, uid) =>
      if owner in s.external && s.external[owner].ownerUID == uid {
        DeregisterKeepsAccount(s, owner, uid, registered);
      }
    case Close(plugin) => CloseKeepsAccount(s, plugin, registered);
  }

  lemma {:induction false} RegisteredBy(steps: seq<Step>, a: Adapter)
    ensures a in Registered(steps) <==> exists i :: 0 <= i < |steps| && a in Adapters(steps[i])
  {
    if steps != [] {
      RegisteredBy(steps[1..], a);
      forall i | 0 <= i < |steps| - 1 ensures steps[1..][i] == steps[i + 1] {
      }
      if a in Registered(steps[1..]) {
        var i :| 0 <= i < |steps| - 1 && a in Adapters(steps[1..][i]);
        assert a in Adapters(steps[i + 1]);
      }
    }
  }

  lemma FirstIsFresh(steps: seq<Step>)
    requires steps != [] && DistinctAdapters(steps)
    ensures Adapters(steps[0]) !! Registered(steps[1..]) && DistinctAdapters(steps[1..])
  {
    var rest := steps[1..];
    assert forall i :: 0 <= i < |rest| ==> rest[i] == steps[i + 1];
    forall a | a in Adapters(steps[0]) ensures a !in Registered(rest) {
      RegisteredBy(rest, a);
    }
  }

  /** Whatever the interleaving of registrations, deregistrations and closes. */
  lemma {:induction false} RunIsAccounted(s: State, steps: seq<Step>, registered: set<Adapter>)
    requires Accounted(s, registered) && Possible(s, steps) && DistinctAdapters(steps)
    requires registered !! Registered(steps)
    ensures Accounted(Run(s, steps), registered + Registered(steps))
    decreases steps
  {
    if steps == [] {
      assert registered + {} == registered;
    } else {
      var rest := steps[1..];
      StepKeepsAccount(s, steps[0], registered);
      FirstIsFresh(steps);
      RunIsAccounted(Next(s, steps[0]), rest, registered + Adapters(steps[0]));
      assert registered + Adapters(steps[0]) + Registered(rest) == registered + Registered(steps);
    }
  }

  /** Once every call has returned, what left the map is closed exactly once and what is in it not at all. */
  lemma ClosedExactlyOnce(steps: seq<Step>, a: Adapter)
    requires Possible(START, steps) && DistinctAdapters(steps) && Run(START, steps).pending == multiset{}
    ensures Run(START, steps).closed[a] == if a in Registered(steps) && !InMap(Run(START, steps), a) then 1 else 0
  {
    RunIsAccounted(START, steps, {});
    assert {} + Registered(steps) == Registered(steps);
  }

  /** Every point of a run ends a run of its own. */
  lemma {:induction false} PrefixIsPossible(s: State, steps: seq<Step>, n: nat)
    requires Possible(s, steps) && n <= |steps|
    ensures Possible(s, steps[..n])
    decreases steps
  {
    if n > 0 {
      PrefixIsPossible(Next(s, steps[0]), steps[1..], n - 1);
      assert steps[..n][1..] == steps[1..][..n - 1];
    }
  }

  /** At no point of any interleaving is an adapter closed while the map still holds it. */
  lemma NeverClosedWhileRegistered(steps: seq<Step>, n: nat, owner: Bytes)
    requires Possible(START, steps) && DistinctAdapters(steps)
    requires n <= |steps| && owner in Run(START, steps[..n]).external
    ensures var s := Run(START, steps[..n]); s.closed[s.external[owner].plugin] == 0
  {
    PrefixIsPossible(START, steps, n);
    RunIsAccounted(START, steps[..n], {});
  }

  /** The step can end the registration of this owner and UID. */
  predicate Ends(step: Step, owner: Bytes, uid: Bytes) {
    match step
    case Register(o, _, _) => o == owner
    case Deregister(o, u) => o == owner && u == uid
    case Close(_) => false
  }

  ghost predicate Holds(s: State, owner: Bytes, entry: Entry) {
    owner in s.external && s.external[owner] == entry
  }

  lemma OtherStepsKeep(s: State, step: Step, owner: Bytes, entry: Entry)
    requires Holds(s, owner, entry) && !Ends(step, owner, entry.ownerUID)
    ensures Holds(Next(s, step), owner, entry)
  {
  }

  /**
   An entry stays until its owner registers again or is deregistered under the entry's own UID: however many
   deregistrations carrying older UIDs come in between, none removes it.
   */
  lemma {:induction false} StaleDeregisterKeeps(s: State, steps: seq<Step>, owner: Bytes, entry: Entry)
    requires Holds(s, owner, entry) && forall step :: step in steps ==> !Ends(step, owner, entry.ownerUID)
    ensures Holds(Run(s, steps), owner, entry)
    decreases steps
  {
    if steps != [] {
      OtherStepsKeep(s, steps[0], owner, entry);
      StaleDeregisterKeeps(Next(s, steps[0]), steps[1..], owner, entry);
    }
  }

  /** A registration keeps the map apart from what is closed exactly when the adapter is new to the registry. */
  lemma RegisterKeepsLiveIffFresh(s: State, owner: Bytes, uid: Bytes, a: Adapter)
    requires Live(s)
    ensures Live(Next(s, Register(owner, uid, a))) <==> !InMap(s, a) && s.pending[a] == 0 && s.closed[a] == 0
  {
    var t := Next(s, Register(owner, uid, a));
    assert t.external[owner].plugin == a;
    if InMap(s, a) {
      var o :| o in s.external && s.external[o].plugin == a;
      if o == owner {
        assert t.pending[a] > 0;
      } else {
        assert t.external[o].plugin == a;
      }
    }
  }
}

/** Built-in plugins: prototypes by name, and for some of them a factory that makes fresh instances. */
module BuiltinRegistry {
  import opened Wrappers
  import opened ByteStrings
  import opened PluginRegistry

  /** What a call of some factory gives: an instance, or None for one that breaks the plugin contract. */
  type Product = Option<Adapter>

  /** The instance keeps the contract and carries the name it was registered under. */
  predicate Makes(product: Product, name: Bytes) {
    product.Some? && product.value.name == name
  }

  datatype Tables = Tables(plugins: map<Bytes, Adapter>, factories: map<Bytes, nat>)

  /** What one of the callers does while it holds the lock. */
  datatype Part =
    | RegisterPart(p: Adapter, contractHolds: bool)
    | DeregisterPart(name: Bytes)
    | InstallPart(name: Bytes, factory: nat)

  function Apply(t: Tables, part: Part): Tables {
    match part
    case RegisterPart(p, contractHolds) =>
      if contractHolds && p.name !in t.plugins then t.(plugins := t.plugins[p.name := p]) else t
    case DeregisterPart(name) => Tables(t.plugins - {name}, t.factories - {name})
    case InstallPart(name, factory) => t.(factories := t.factories[name := factory])
  }

  /** The tables after locked parts of any callers in any order. */
  function After(parts: seq<Part>): Tables {
    if parts == [] then Tables(map[], map[]) else Apply(After(parts[..|parts| - 1]), parts[|parts| - 1])
  }

  /** A factory without a plugin. */
  predicate Orphan(t: Tables, name: Bytes) {
    name in t.factories && name !in t.plugins
  }

  predicate Touches(part: Part, name: Bytes) {
    part == DeregisterPart(name) || (part.RegisterPart? && part.contractHolds && part.p.name == name)
  }

  /** Part i installed a factory for a name that was not registered, and it has not been touched since. */
  ghost predicate OrphanedAt(parts: seq<Part>, i: nat, name: Bytes)
    requires i < |parts|
  {
    && parts[i].InstallPart? && parts[i].name == name && name !in After(parts[..i]).plugins
    && forall j :: i < j < |parts| ==> !Touches(parts[j], name)
  }

  lemma OrphanedBefore(before: seq<Part>, last: Part, i: nat, name: Bytes)
    requires i < |before|
    ensures OrphanedAt(before + [last], i, name) <==> OrphanedAt(before, i, name) && !Touches(last, name)
  {
    var parts := before + [last];
    assert parts[..i] == before[..i] && parts[|before|] == last;
    assert forall j :: 0 <= j < |before| ==> parts[j] == before[j];
  }

  /**
   In any interleaving, a factory has no plugin exactly when it was installed after the plugin it was made for
   had been deregistered, and its name was neither registered nor deregistered again.
   */
  lemma {:induction false} OrphanIff(parts: seq<Part>, name: Bytes)
    ensures Orphan(After(parts), name) <==> exists i :: 0 <= i < |parts| && OrphanedAt(parts, i, name)
  {
    if parts != [] {
      var before, last := parts[..|parts| - 1], parts[|parts| - 1];
      assert before + [last] == parts;
      OrphanIff(before, name);
      forall i | 0 <= i < |before|
        ensures OrphanedAt(parts, i, name) <==> OrphanedAt(before, i, name) && !Touches(last, name)
      {
        OrphanedBefore(before, last, i, name);
      }
      assert OrphanedAt(parts, |before|, name)
        <==> last.InstallPart? && last.name == name && name !in After(before).plugins;
    }
  }

  class Builtins {
    var plugins: map<Bytes, Adapter>
    /** Factories by identity; what one makes is seen only when it is called. */
    var factories: map<Bytes, nat>

    constructor ()
      ensures plugins == map[] && factories == map[]
    {
      plugins, factories := map[], map[];
    }

    function State(): Tables
      reads this
    {
      Tables(plugins, factories)
    }

    /** Every plugin is stored under its own name. */
    predicate Keyed()
      reads this
    {
      forall name :: name in plugins ==> plugins[name].name == name
    }

    /** Every factory belongs to a plugin that is registered. */
    predicate Paired()
      reads this
    {
      factories.Keys <= plugins.Keys
    }

    method Register(p: Adapter, contractHolds: bool) returns (ok: bool)
      modifies this`plugins
      ensures ok <==> contractHolds && p.name !in old(plugins)
      ensures State() == Apply(old(State()), RegisterPart(p, contractHolds))
      ensures plugins == if ok then old(plugins)[p.name := p] else old(plugins)
      ensures old(Keyed()) ==> Keyed()
    {
      if !contractHolds || p.name in plugins {
        return false;
      }
      plugins := plugins[p.name := p];
      return true;
    }

    method Deregister(name: Bytes)
      modifies this
      ensures plugins == old(plugins) - {name} && factories == old(factories) - {name}
      ensures State() == Apply(old(State()), DeregisterPart(name))
    {
      plugins := plugins - {name};
      factories := factories - {name};
    }

    /** The last, locked part of RegisterFactory. */
    method Install(name: Bytes, factory: nat)
      modifies this`factories
      ensures factories == old(factories)[name := factory]
      ensures State() == Apply(old(State()), InstallPart(name, factory))
      ensures old(Paired()) ==> (Paired() <==> name in plugins)
    {
      factories := factories[name := factory];
    }

    /** RegisterFactory when nothing comes between its three locked parts; `first` is its trial instance. */
    method RegisterFactory(prototype: Adapter, factory: Option<nat>, contractHolds: bool, first: Product)
      returns (ok: bool)
      modifies this
      ensures ok <==> factory.Some? && contractHolds && prototype.name !in old(plugins) && Makes(first, prototype.name)
      ensures ok ==> plugins == old(plugins)[prototype.name := prototype]
      ensures ok ==> factories == old(factories)[prototype.name := factory.value]
      ensures !ok && old(Paired()) ==> plugins == old(plugins) && factories == old(factories)
      ensures old(Keyed()) ==> Keyed()
      ensures old(Paired()) ==> Paired()
    {
      if factory.None? {
        return false;
      }
      ok := Register(prototype, contractHolds);
      if !ok {
        return false;
      }
      if !Makes(first, prototype.name) {
        Deregister(prototype.name);
        return false;
      }
      Install(prototype.name, factory.value);
    }

    /** New: an instance under the right name, or none; `made` is what the factory makes if there is one. */
    method New(name: Bytes, made: Product) returns (r: Option<Adapter>)
      ensures Keyed() && r.Some? ==> r.value.name == name
      ensures name !in plugins ==> r == None
      ensures name in plugins && name !in factories ==> r == Some(plugins[name])
      ensures name in plugins && name in factories ==> r == if Makes(made, name) then made else None
    {
      if name !in plugins {
        return None;
      }
      if name !in factories {
        return Some(plugins[name]);
      }
      if !Makes(made, name) {
        return None;
      }
      return made;
    }
  }

  /**
   A deregistration between the parts of RegisterFactory leaves a factory without a plugin. A plugin that is
   registered under the name later, without a factory of its own, is then never handed out: New calls the
   factory that was left behind.
   */
  method OrphanedFactory(b: Builtins, prototype: Adapter, factory: nat, later: Adapter, made: Product)
    returns (r: Option<Adapter>)
    requires prototype.name !in b.plugins && later.name == prototype.name && b.Paired()
    modifies b
    ensures b.plugins == old(b.plugins)[later.name := later] && b.factories == old(b.factories)[later.name := factory]
    ensures r == if Makes(made, later.name) then made else None
    ensures Orphan(Apply(Apply(Apply(old(b.State()), RegisterPart(prototype, true)), DeregisterPart(prototype.name)),
                         InstallPart(prototype.name, factory)), prototype.name)
  {
    var ok := b.Register(prototype, true);
    b.Deregister(prototype.name);
    b.Install(prototype.name, factory);
    ok := b.Register(later, true);
    r := b.New(later.name, made);
  }
}

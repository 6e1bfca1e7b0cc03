/**
 * The agent container: it walks the modules of the agents package, asks
 * every eligible class's factory for an agent and registers the agents
 * whose ids are new. Module discovery and `dir`/`getattr` reflection are
 * replaced by an explicit list of modules, each listing its attributes in
 * the order `dir` returns them.
 */
module AgentRegistry {
  import opened Wrappers

  /** A registered agent, as far as the container looks at it. */
  datatype Agent = Agent(id: string, name: string)

  /** What calling `factory` does: raise, return something falsy, or build an agent. */
  datatype FactoryResult = Raises | Falsy | Made(agent: Agent)

  /** One attribute of a module and the facts the eligibility test asks about it. */
  datatype Attr = Attr(isClass: bool, subclassOfIAgent: bool, isIAgent: bool, hasFactory: bool, factory: FactoryResult)

  /** A module of the agents package; `loads` is false when importing it raises. */
  datatype AgentModule = AgentModule(name: string, loads: bool, attrs: seq<Attr>)

  /** Only classes implementing the agent interface, other than the interface itself, with a factory. */
  predicate Eligible(a: Attr) {
    a.isClass && a.subclassOfIAgent && !a.isIAgent && a.hasFactory
  }

  function Ids(agents: seq<Agent>): (r: seq<string>)
    ensures |r| == |agents| && forall i :: 0 <= i < |agents| ==> r[i] == agents[i].id
  {
    seq(|agents|, i requires 0 <= i < |agents| => agents[i].id)
  }

  predicate DistinctIds(agents: seq<Agent>) {
    forall i, j :: 0 <= i < j < |agents| ==> agents[i].id != agents[j].id
  }

  /**
   * The agents after scanning the attributes `attrs` of one module, starting
   * from `registered`. A raising factory or a duplicate id raises inside the
   * module's `try`, so the rest of that module is skipped, and what was
   * registered before stays.
   */
  function ModuleOutcome(registered: seq<Agent>, attrs: seq<Attr>): (r: seq<Agent>)
    ensures |registered| <= |r| <= |registered| + |attrs|
    decreases |attrs|
  {
    if attrs == [] then registered
    else if !Eligible(attrs[0]) then ModuleOutcome(registered, attrs[1..])
    else match attrs[0].factory
      case Raises => registered
      case Falsy => ModuleOutcome(registered, attrs[1..])
      case Made(agent) =>
        if agent.id in Ids(registered) then registered
        else ModuleOutcome(registered + [agent], attrs[1..])
  }

  /**
   * The agents registered after scanning `modules` in order; the duplicate-id
   * check keeps their ids pairwise distinct.
   */
  function Registered(modules: seq<AgentModule>): (r: seq<Agent>)
    ensures DistinctIds(r)
  {
    if modules == [] then []
    else
      var before := Registered(modules[..|modules| - 1]);
      var last := modules[|modules| - 1];
      if last.loads then ModuleOutcomeExtends(before, last.attrs); ModuleOutcome(before, last.attrs) else before
  }

  /** Scanning a module only appends, and only agents with fresh ids. */
  lemma {:induction false} ModuleOutcomeExtends(registered: seq<Agent>, attrs: seq<Attr>)
    requires DistinctIds(registered)
    ensures var r := ModuleOutcome(registered, attrs);
            |registered| <= |r| && r[..|registered|] == registered && DistinctIds(r)
    decreases |attrs|
  {
    if attrs != [] && Eligible(attrs[0]) && attrs[0].factory.Made? {
      var agent := attrs[0].factory.agent;
      if agent.id !in Ids(registered) {
        var next := registered + [agent];
        forall i, j | 0 <= i < j < |next|
          ensures next[i].id != next[j].id
        {
          if j == |registered| {
            assert Ids(registered)[i] == registered[i].id;
          }
        }
        ModuleOutcomeExtends(next, attrs[1..]);
        var r := ModuleOutcome(next, attrs[1..]);
        assert r[..|registered|] == r[..|next|][..|registered|];
      }
    } else if attrs != [] && !(Eligible(attrs[0]) && attrs[0].factory.Raises?) {
      ModuleOutcomeExtends(registered, attrs[1..]);
    }
  }

  /**
   * A raising factory ends the module's `try`: the attributes after it are
   * never looked at, whatever they hold.
   */
  lemma {:induction false} SkipAfterRaise(registered: seq<Agent>, attrs: seq<Attr>, k: nat)
    requires k < |attrs| && Eligible(attrs[k]) && attrs[k].factory.Raises?
    ensures ModuleOutcome(registered, attrs) == ModuleOutcome(registered, attrs[..k])
    decreases k
  {
    if k > 0 {
      assert attrs[1..][..k - 1] == attrs[..k][1..];
      if Eligible(attrs[0]) && attrs[0].factory.Made? && attrs[0].factory.agent.id !in Ids(registered) {
        SkipAfterRaise(registered + [attrs[0].factory.agent], attrs[1..], k - 1);
      } else if !Eligible(attrs[0]) || attrs[0].factory.Falsy? {
        SkipAfterRaise(registered, attrs[1..], k - 1);
      }
    }
  }

  /**
   * An agent whose id is already registered raises in the module's `try`:
   * the attributes after it are never looked at, and it is not added.
   */
  lemma {:induction false} SkipAfterDuplicate(registered: seq<Agent>, attrs: seq<Attr>, k: nat)
    requires k < |attrs| && Eligible(attrs[k]) && attrs[k].factory.Made?
    requires attrs[k].factory.agent.id in Ids(ModuleOutcome(registered, attrs[..k]))
    ensures ModuleOutcome(registered, attrs) == ModuleOutcome(registered, attrs[..k])
    decreases k
  {
    if k == 0 {
      assert attrs[..0] == [];
    } else {
      assert attrs[1..][..k - 1] == attrs[..k][1..];
      if Eligible(attrs[0]) && attrs[0].factory.Made? && attrs[0].factory.agent.id !in Ids(registered) {
        SkipAfterDuplicate(registered + [attrs[0].factory.agent], attrs[1..], k - 1);
      } else if !Eligible(attrs[0]) || attrs[0].factory.Falsy? {
        assert attrs[..k][0] == attrs[0];
        SkipAfterDuplicate(registered, attrs[1..], k - 1);
      }
    }
  }

  /** Modules scanned later never remove or replace an agent registered earlier. */
  lemma {:induction false} RegisteredPrefix(modules: seq<AgentModule>, more: seq<AgentModule>)
    ensures var r := Registered(modules + more);
            |Registered(modules)| <= |r| && r[..|Registered(modules)|] == Registered(modules)
    decreases |more|
  {
    if more == [] {
      assert modules + more == modules;
    } else {
      var init := more[..|more| - 1];
      assert (modules + more)[..|modules + more| - 1] == modules + init;
      RegisteredPrefix(modules, init);
      var last := more[|more| - 1];
      var mid := Registered(modules + init);
      if last.loads {
        ModuleOutcomeExtends(mid, last.attrs);
        var r := ModuleOutcome(mid, last.attrs);
        assert r[..|Registered(modules)|] == r[..|mid|][..|Registered(modules)|];
      }
    }
  }

  /** Every registered agent was built by the factory of an eligible attribute of a loaded module. */
  lemma {:induction false} ModuleOutcomeFromFactories(registered: seq<Agent>, attrs: seq<Attr>, a: Agent)
    requires a in ModuleOutcome(registered, attrs)
    ensures a in registered || exists k :: 0 <= k < |attrs| && Eligible(attrs[k]) && attrs[k].factory == Made(a)
    decreases |attrs|
  {
    if attrs != [] && !(Eligible(attrs[0]) && attrs[0].factory.Raises?) {
      if Eligible(attrs[0]) && attrs[0].factory.Made? {
        var agent := attrs[0].factory.agent;
        if agent.id !in Ids(registered) {
          ModuleOutcomeFromFactories(registered + [agent], attrs[1..], a);
          if a !in registered && a != agent {
            var k :| 0 <= k < |attrs[1..]| && Eligible(attrs[1..][k]) && attrs[1..][k].factory == Made(a);
            assert attrs[k + 1] == attrs[1..][k];
          }
        }
      } else {
        ModuleOutcomeFromFactories(registered, attrs[1..], a);
        if a !in registered {
          var k :| 0 <= k < |attrs[1..]| && Eligible(attrs[1..][k]) && attrs[1..][k].factory == Made(a);
          assert attrs[k + 1] == attrs[1..][k];
        }
      }
    }
  }

  lemma {:induction false} RegisteredFromFactories(modules: seq<AgentModule>, a: Agent)
    requires a in Registered(modules)
    ensures exists m, k :: 0 <= m < |modules| && modules[m].loads && 0 <= k < |modules[m].attrs| &&
                           Eligible(modules[m].attrs[k]) && modules[m].attrs[k].factory == Made(a)
    decreases |modules|
  {
    var init := modules[..|modules| - 1];
    var last := modules[|modules| - 1];
    if last.loads {
      ModuleOutcomeFromFactories(Registered(init), last.attrs, a);
    }
    if a in Registered(init) {
      RegisteredFromFactories(init, a);
      var m, k :| 0 <= m < |init| && init[m].loads && 0 <= k < |init[m].attrs| &&
                  Eligible(init[m].attrs[k]) && init[m].attrs[k].factory == Made(a);
      assert modules[m] == init[m];
    } else {
      var k :| 0 <= k < |last.attrs| && Eligible(last.attrs[k]) && last.attrs[k].factory == Made(a);
      assert modules[|modules| - 1] == last;
    }
  }

  /** Position of the first agent with id `agentId`. */
  function FirstIndexWithId(agents: seq<Agent>, agentId: string): (r: Option<nat>)
    ensures r.Some? ==> r.value < |agents| && agents[r.value].id == agentId &&
                        forall j :: 0 <= j < r.value ==> agents[j].id != agentId
    ensures r.None? <==> forall j :: 0 <= j < |agents| ==> agents[j].id != agentId
  {
    if agents == [] then None
    else if agents[0].id == agentId then Some(0)
    else match FirstIndexWithId(agents[1..], agentId)
      case None => None
      case Some(k) => Some(k + 1)
  }

  /** The first agent with id `agentId`, as `next(...)` over the registration order finds it. */
  function FirstWithId(agents: seq<Agent>, agentId: string): (r: Option<Agent>)
    ensures r.Some? ==> r.value.id == agentId &&
                        exists k :: 0 <= k < |agents| && agents[k] == r.value &&
                                    forall j :: 0 <= j < k ==> agents[j].id != agentId
    ensures r.None? <==> forall j :: 0 <= j < |agents| ==> agents[j].id != agentId
  {
    match FirstIndexWithId(agents, agentId)
    case None => None
    case Some(k) => Some(agents[k])
  }

  /** With distinct ids, looking up the id of any registered agent returns exactly that agent. */
  lemma FirstWithIdOfMember(agents: seq<Agent>, k: nat)
    requires DistinctIds(agents) && k < |agents|
    ensures FirstWithId(agents, agents[k].id) == Some(agents[k])
  {
    var r := FirstWithId(agents, agents[k].id);
    var i :| 0 <= i < |agents| && agents[i] == r.value && forall j :: 0 <= j < i ==> agents[j].id != agents[k].id;
    if i < k {
      assert agents[i].id != agents[k].id;
    }
  }

  /**
   * Once an agent with a given id is registered, later modules cannot shadow
   * it: the lookup keeps returning the first one.
   */
  lemma FirstRegisteredWins(modules: seq<AgentModule>, more: seq<AgentModule>, agentId: string)
    requires FirstWithId(Registered(modules), agentId).Some?
    ensures FirstWithId(Registered(modules + more), agentId) == FirstWithId(Registered(modules), agentId)
  {
    var before := Registered(modules);
    var after := Registered(modules + more);
    RegisteredPrefix(modules, more);
    var a := FirstWithId(before, agentId).value;
    var k :| 0 <= k < |before| && before[k] == a && forall j :: 0 <= j < k ==> before[j].id != agentId;
    assert after[k] == before[k];
    FirstWithIdOfMember(after, k);
  }

  class AgentContainer {
    /** The registered agents, in registration order; `all()` returns this list. */
    var agents: seq<Agent>

    /** Builds the container and registers the agents of `modules`. */
    constructor(modules: seq<AgentModule>)
      ensures agents == Registered(modules)
    {
      agents := [];
      new;
      var agentsId: seq<string> := [];
      var m := 0;
      while m < |modules|
        invariant 0 <= m <= |modules|
        invariant agents == Registered(modules[..m])
        invariant agentsId == Ids(agents)
      {
        assert modules[..m + 1][..m] == modules[..m];
        var mod := modules[m];
        if mod.loads {
          RegisterModule(mod.attrs, agentsId);
          agentsId := Ids(agents);
        }
        m := m + 1;
      }
      assert modules[..|modules|] == modules;
    }

    /** The body of the per-module `try`: scan the attributes until one raises. */
    method RegisterModule(attrs: seq<Attr>, agentsId: seq<string>)
      requires agentsId == Ids(agents)
      modifies this
      ensures agents == ModuleOutcome(old(agents), attrs)
    {
      var ids := agentsId;
      var k := 0;
      var raised := false;
      while k < |attrs| && !raised
        invariant 0 <= k <= |attrs|
        invariant ids == Ids(agents)
        invariant !raised ==> ModuleOutcome(agents, attrs[k..]) == ModuleOutcome(old(agents), attrs)
        invariant raised ==> agents == ModuleOutcome(old(agents), attrs)
        decreases |attrs| - k, !raised
      {
        var a := attrs[k];
        assert attrs[k..][1..] == attrs[k + 1..];
        if Eligible(a) {
          match a.factory
          case Raises =>
            raised := true;
          case Falsy =>
            k := k + 1;
          case Made(agent) =>
            if agent.id in ids {
              raised := true;
            } else {
              ids := ids + [agent.id];
              agents := agents + [agent];
              k := k + 1;
            }
        } else {
          k := k + 1;
        }
      }
    }

    /** `get(agent_id)`: the first registered agent with that id, or nothing. */
    function Get(agentId: string): (r: Option<Agent>)
      reads this
      ensures r.Some? ==> r.value.id == agentId && r.value in agents
      ensures r.None? <==> forall j :: 0 <= j < |agents| ==> agents[j].id != agentId
      ensures r == FirstWithId(agents, agentId)
    {
      FirstWithId(agents, agentId)
    }
  }
}

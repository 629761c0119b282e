/**
 Plugin redirects: a bounded walk over the redirect graph, with loop detection.
 */
module PluginRouting {
  import opened Wrappers

  const MAX_REDIRECT_CHAIN_LEN := 10

  type Name = string
  type Metadata = map<string, string>

  // What the runtime file says about one plugin.
  datatype Plugin = Plugin(deprecation: Option<Metadata>, tombstone: Option<Metadata>, redirect: Option<Name>)

  // What looking a name up yields: no routing data for its collection, data of
  // the wrong shape, or the entry of the plugin.
  datatype Routing = NoRouting | BadRouting | Routed(plugin: Plugin)

  // Every name there is, with its routing.
  type Graph = Name -> Routing

  datatype Outcome =
    | Resolved(name: Name)
    | Tombstoned(name: Name)
    | Loop(path: seq<Name>)
    | TooLong
    | Malformed(name: Name)

  // Empty metadata and an empty redirect count as none.
  predicate IsTombstoned(p: Plugin) {
    p.tombstone.Some? && p.tombstone.value != map[]
  }

  predicate Redirects(p: Plugin) {
    p.redirect.Some? && p.redirect.value != ""
  }

  // A name that sends on to the next one.
  predicate SendsTo(graph: Graph, from: Name, to: Name) {
    && graph(from).Routed? && graph(from).plugin.tombstone in {None, Some(map[])}
    && graph(from).plugin.redirect == Some(to) && to != ""
  }

  // A name the chain ends at in peace.
  predicate IsEnd(graph: Graph, name: Name) {
    graph(name).NoRouting?
    || (graph(name).Routed? && graph(name).plugin.tombstone in {None, Some(map[])}
        && graph(name).plugin.redirect in {None, Some("")})
  }

  predicate Distinct(chain: seq<Name>) {
    forall i, j :: 0 <= i < j < |chain| ==> chain[i] != chain[j]
  }

  // Names that redirect one to the next, none twice.
  predicate IsChain(graph: Graph, start: Name, chain: seq<Name>) {
    && chain != [] && chain[0] == start && Distinct(chain)
    && (forall i :: 0 <= i < |chain| - 1 ==> SendsTo(graph, chain[i], chain[i + 1]))
  }

  function Last(chain: seq<Name>): Name
    requires chain != []
  {
    chain[|chain| - 1]
  }

  // A chain decides the outcome.
  ghost predicate Decides(graph: Graph, chain: seq<Name>, outcome: Outcome)
    requires chain != []
  {
    match outcome
    case Resolved(name) => |chain| <= 10 && name == Last(chain) && IsEnd(graph, name)
    case Tombstoned(name) =>
      && |chain| <= 10 && name == Last(chain)
      && graph(name).Routed? && graph(name).plugin.tombstone !in {None, Some(map[])}
    case Malformed(name) => |chain| <= 10 && name == Last(chain) && graph(name).BadRouting?
    case Loop(path) =>
      |chain| <= 10 && exists back :: back in chain && SendsTo(graph, Last(chain), back) && path == chain + [back]
    case TooLong => |chain| == 11
  }

  lemma {:induction false} ChainsComparable(graph: Graph, start: Name, a: seq<Name>, b: seq<Name>)
    requires IsChain(graph, start, a) && IsChain(graph, start, b) && |a| <= |b|
    ensures a == b[..|a|]
    decreases |a|
  {
    if |a| == 1 {
      assert a == [start] == b[..1];
    } else {
      ChainsComparable(graph, start, a[..|a| - 1], b);
      assert SendsTo(graph, a[|a| - 2], a[|a| - 1]) && SendsTo(graph, b[|a| - 2], b[|a| - 1]);
    }
  }

  // The longer of two chains leaves the shorter one for a name not on it.
  lemma LongerChainLeaves(graph: Graph, start: Name, a: seq<Name>, b: seq<Name>)
    requires IsChain(graph, start, a) && IsChain(graph, start, b) && |a| < |b|
    ensures SendsTo(graph, Last(a), b[|a|]) && b[|a|] !in a
  {
    ChainsComparable(graph, start, a, b);
    assert b[|a| - 1] == Last(a) && SendsTo(graph, b[|a| - 1], b[|a| - 1 + 1]);
  }

  // A chain that decides anything but TooLong cannot be continued.
  lemma DecidedIsMaximal(graph: Graph, start: Name, a: seq<Name>, b: seq<Name>, outcome: Outcome)
    requires IsChain(graph, start, a) && IsChain(graph, start, b) && Decides(graph, a, outcome)
    requires !outcome.TooLong?
    ensures |b| <= |a|
  {
    if |a| < |b| {
      LongerChainLeaves(graph, start, a, b);
    }
  }

  // The outcome is a function of the graph: no two chains decide differently.
  lemma OutcomeUnique(graph: Graph, start: Name, a: seq<Name>, x: Outcome, b: seq<Name>, y: Outcome)
    requires IsChain(graph, start, a) && Decides(graph, a, x)
    requires IsChain(graph, start, b) && Decides(graph, b, y)
    ensures x == y && a == b
  {
    if !x.TooLong? {
      DecidedIsMaximal(graph, start, a, b, x);
    }
    if !y.TooLong? {
      DecidedIsMaximal(graph, start, b, a, y);
    }
    assert |a| == |b|;
    ChainsComparable(graph, start, a, b);
    assert b[..|a|] == b;
  }

  // A chain grown by one more name that is not on it.
  lemma ChainGrows(graph: Graph, start: Name, chain: seq<Name>, next: Name)
    requires IsChain(graph, start, chain) && SendsTo(graph, Last(chain), next) && next !in chain
    ensures IsChain(graph, start, chain + [next])
  {
    var longer := chain + [next];
    forall i | 0 <= i < |longer| - 1 ensures SendsTo(graph, longer[i], longer[i + 1]) {
      if i < |chain| - 1 {
        assert SendsTo(graph, chain[i], chain[i + 1]);
      }
    }
  }

  // apply_plugin_routing past the legacy map: for every graph the walk ends,
  // with an outcome some chain decides.
  method FollowRedirects(pluginName: Name, graph: Graph) returns (outcome: Outcome)
    ensures exists chain :: IsChain(graph, pluginName, chain) && Decides(graph, chain, outcome)
  {
    var redirectChain := [pluginName];
    var currentName := pluginName;
    var jumpCount := 0;
    while jumpCount < MAX_REDIRECT_CHAIN_LEN
      invariant 0 <= jumpCount <= MAX_REDIRECT_CHAIN_LEN
      invariant |redirectChain| == jumpCount + 1 && Last(redirectChain) == currentName
      invariant IsChain(graph, pluginName, redirectChain)
    {
      var routing := graph(currentName);
      if routing.NoRouting? {
        assert Decides(graph, redirectChain, Resolved(currentName));
        return Resolved(currentName);
      }
      if routing.BadRouting? {
        assert Decides(graph, redirectChain, Malformed(currentName));
        return Malformed(currentName);
      }
      if IsTombstoned(routing.plugin) {
        assert Decides(graph, redirectChain, Tombstoned(currentName));
        return Tombstoned(currentName);
      }
      assert routing.plugin.tombstone == None || routing.plugin.tombstone == Some(map[]);
      if Redirects(routing.plugin) {
        var redirect := routing.plugin.redirect.value;
        assert SendsTo(graph, Last(redirectChain), redirect);
        if redirect in redirectChain {
          assert Decides(graph, redirectChain, Loop(redirectChain + [redirect]));
          return Loop(redirectChain + [redirect]);
        }
        ChainGrows(graph, pluginName, redirectChain, redirect);
        redirectChain := redirectChain + [redirect];
        currentName := redirect;
      } else {
        assert routing.plugin.redirect == None || routing.plugin.redirect == Some("");
        assert Decides(graph, redirectChain, Resolved(currentName));
        return Resolved(currentName);
      }
      jumpCount := jumpCount + 1;
    }
    assert Decides(graph, redirectChain, TooLong);
    return TooLong;
  }

  // apply_plugin_routing
  method ApplyPluginRouting(pluginName: Name, legacy: map<Name, Name>, graph: Graph) returns (outcome: Outcome)
    ensures pluginName in legacy ==> outcome == Resolved(legacy[pluginName])
    ensures pluginName !in legacy ==>
      forall chain, o :: IsChain(graph, pluginName, chain) && Decides(graph, chain, o) ==> o == outcome
    ensures pluginName !in legacy ==> exists chain :: IsChain(graph, pluginName, chain) && Decides(graph, chain, outcome)
  {
    if pluginName in legacy {
      return Resolved(legacy[pluginName]);
    }
    outcome := FollowRedirects(pluginName, graph);
    ghost var chain :| IsChain(graph, pluginName, chain) && Decides(graph, chain, outcome);
    forall other, o | IsChain(graph, pluginName, other) && Decides(graph, other, o) ensures o == outcome {
      OutcomeUnique(graph, pluginName, other, o, chain, outcome);
    }
  }

  // A cycle of redirects through at most ten names is always reported as a
  // loop, from wherever in front of it the walk starts, if it is reached within
  // the limit.
  lemma CycleIsLoop(graph: Graph, start: Name, chain: seq<Name>, back: nat, outcome: Outcome, decided: seq<Name>)
    requires IsChain(graph, start, chain) && |chain| <= 10 && back < |chain|
    requires SendsTo(graph, Last(chain), chain[back])
    requires IsChain(graph, start, decided) && Decides(graph, decided, outcome)
    ensures outcome == Loop(chain + [chain[back]])
  {
    assert chain[back] in chain;
    assert Decides(graph, chain, Loop(chain + [chain[back]]));
    OutcomeUnique(graph, start, chain, Loop(chain + [chain[back]]), decided, outcome);
  }
}

/**
 * The route table of `BaseHandler` (src/httpsvr/httpsvr.py, `SetCtrlInfo` and
 * the `ctrl_map.get(path)` lookup in `__do`): a map from the exact request
 * path to the controller class and method name registered for it.
 */
module Routing {
  import opened Wrappers
  import Assoc

  /**
   * A controller class as dispatch sees it: a name, and the attribute names
   * `getattr` finds on an instance (its methods, inherited ones included).
   */
  datatype ControllerClass = ControllerClass(name: string, attributes: set<string>)

  /** One `[path, controller class, method]` entry of the registration list. */
  datatype Route = Route(path: string, controller: ControllerClass, methodName: string)

  /** The `{"class": ..., "method": ...}` value stored for a path. */
  datatype Target = Target(controller: ControllerClass, methodName: string)

  type RouteTable = map<string, Target>

  function TargetOf(r: Route): Target
  {
    Target(r.controller, r.methodName)
  }

  function Pairs(routes: seq<Route>): (ps: seq<(string, Target)>)
    ensures |ps| == |routes|
    ensures forall i :: 0 <= i < |routes| ==> ps[i] == (routes[i].path, TargetOf(routes[i]))
  {
    seq(|routes|, i requires 0 <= i < |routes| => (routes[i].path, TargetOf(routes[i])))
  }

  /** `SetCtrlInfo`: the table is keyed by exactly the registered paths; the last registration of a path wins. */
  function SetCtrlInfo(routes: seq<Route>): (table: RouteTable)
    ensures table.Keys == set i | 0 <= i < |routes| :: routes[i].path
    ensures |routes| > 0 ==> table[routes[|routes| - 1].path] == TargetOf(routes[|routes| - 1])
  {
    var ps := Pairs(routes);
    var table := Assoc.FromPairs(ps);
    assert forall k :: k in table ==> exists i :: 0 <= i < |routes| && routes[i].path == k by {
      forall k | k in table
        ensures exists i :: 0 <= i < |routes| && routes[i].path == k
      {
        var i :| 0 <= i < |ps| && ps[i].0 == k;
        assert routes[i].path == k;
      }
    }
    table
  }

  /** `ctrl_map.get(path, None)`: exact key lookup, no normalisation of the path. */
  function Resolve(table: RouteTable, path: string): Option<Target>
  {
    if path in table then Some(table[path]) else None
  }

  /** Reference reading of the registration list: the last entry for `path`, if any. */
  function LastRegistration(routes: seq<Route>, path: string): Option<Target>
  {
    if |routes| == 0 then None
    else if routes[|routes| - 1].path == path then Some(TargetOf(routes[|routes| - 1]))
    else LastRegistration(routes[..|routes| - 1], path)
  }

  lemma {:induction false} LastValueOfPairs(routes: seq<Route>, path: string)
    ensures Assoc.LastValue(Pairs(routes), path) == LastRegistration(routes, path)
  {
    if |routes| > 0 {
      var front := routes[..|routes| - 1];
      assert Pairs(routes)[..|routes| - 1] == Pairs(front);
      LastValueOfPairs(front, path);
    }
  }

  /** Resolving a path in the built table finds its last registration, and nothing for an unregistered path. */
  lemma {:induction false} ResolveIsLastRegistration(routes: seq<Route>, path: string)
    ensures Resolve(SetCtrlInfo(routes), path) == LastRegistration(routes, path)
  {
    Assoc.FromPairsIsLastValue(Pairs(routes), path);
    LastValueOfPairs(routes, path);
  }

  /** A path resolves exactly when some entry carries that very string. */
  lemma ResolveFindsOnlyRegisteredPaths(routes: seq<Route>, path: string)
    ensures Resolve(SetCtrlInfo(routes), path).Some? <==> exists i :: 0 <= i < |routes| && routes[i].path == path
  {
    var table := SetCtrlInfo(routes);
    if exists i :: 0 <= i < |routes| && routes[i].path == path {
      var i :| 0 <= i < |routes| && routes[i].path == path;
      assert path in table;
    }
  }

  /** An entry that is not registered again later decides its path's target. */
  lemma LaterRegistrationWins(routes: seq<Route>, i: nat)
    requires i < |routes|
    requires forall j :: i < j < |routes| ==> routes[j].path != routes[i].path
    ensures Resolve(SetCtrlInfo(routes), routes[i].path) == Some(TargetOf(routes[i]))
  {
    Assoc.LastOccurrenceWins(Pairs(routes), i);
  }
}

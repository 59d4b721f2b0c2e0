/** Starting the sandbox's services, each after the services it depends on. */
module SandboxStart {
  import opened DependencyOrder
  import opened Wrappers

  function Ended(order: seq<string>, err: Option<string>): Outcome {
    match err
    case None => Done(order)
    case Some(culprit) => Failed(order, culprit)
  }

  class Runtime {
    const services: Graph
    /** The services whose containers cannot be started. */
    const broken: set<string>
    var started: set<string>
    /** The services in the order in which they were started. */
    ghost var order: seq<string>

    ghost predicate Valid()
      reads this
    {
      started == set n | n in order
    }

    constructor (services: Graph, broken: set<string>)
      ensures this.services == services && this.broken == broken && order == [] && Valid()
    {
      this.services, this.broken, started, order := services, broken, {}, [];
    }

    /** The recursion of startServiceWithDeps, as deep as the search needs. */
    method StartServiceWithDeps(name: string, ghost depth: nat) returns (err: Option<string>)
      requires Valid() && !Visit(services, broken, name, order, depth).TooDeep?
      modifies this
      ensures Valid() && Ended(order, err) == Visit(services, broken, name, old(order), depth)
      decreases depth
    {
      if name in started {
        return None;
      }
      var deps := if name in services then services[name] else [];
      var i := 0;
      while i < |deps|
        invariant 0 <= i <= |deps| && Valid()
        invariant VisitAll(services, broken, deps[..i], old(order), depth - 1) == Done(order)
      {
        assert deps[..i + 1] == deps[..i] + [deps[i]];
        VisitOneMore(services, broken, deps[..i], deps[i], old(order), depth - 1);
        PrefixDecides(services, broken, deps, old(order), depth - 1, i + 1);
        err := StartServiceWithDeps(deps[i], depth - 1);
        if err.Some? {
          return;
        }
        i := i + 1;
      }
      assert deps[..|deps|] == deps;
      if name in broken {
        return Some(name);
      }
      started := started + {name};
      order := order + [name];
      err := None;
    }

    /**
     Every service in the configuration, in any order: each is started once, after all it depends on, or a start has
     failed.
     */
    method StartServices(ghost names: set<string>, ghost rank: map<string, nat>) returns (err: Option<string>)
      requires order == [] && Valid() && Ranked(services, names, rank) && services.Keys <= names
      modifies this
      ensures Distinct(order) && InOrder(services, order)
      ensures forall n :: n in order ==> n !in broken
      ensures err.None? ==> forall n :: n in services ==> n in order
      ensures err.Some? ==> err.value in broken && err.value !in order && DepsIn(services, err.value, order)
    {
      ghost var depth := MaxRank(names, rank);
      ghost var roots: seq<string> := [];
      var todo := services.Keys;
      while todo != {}
        invariant Valid() && todo <= services.Keys && Within(roots, names)
        invariant VisitAll(services, broken, roots, [], depth) == Done(order)
        invariant forall n :: n in services && n !in todo ==> n in roots
        decreases |todo|
      {
        var name :| name in todo;
        VisitEnds(services, broken, name, order, depth, names, rank);
        VisitOneMore(services, broken, roots, name, [], depth);
        err := StartServiceWithDeps(name, depth);
        roots := roots + [name];
        if err.Some? {
          StartsEverythingOnce(services, broken, roots, depth);
          return;
        }
        todo := todo - {name};
      }
      StartsEverythingOnce(services, broken, roots, depth);
      err := None;
    }
  }
}

/**
 * The Taskfile graph: vertices keyed by location, each holding its Taskfile
 * (absent while it is being read), and directed edges keyed by
 * (source, destination) carrying the includes that produced them and a
 * weight. Edge insertion refuses any edge that would close a cycle.
 */
module Dag {
  import opened Wrappers
  import opened Ast
  import opened Errors

  type Edges = set<(string, string)>

  /** `p` is a non-empty walk along edges of `E`. */
  ghost predicate IsPath(E: Edges, p: seq<string>) {
    |p| > 0 && forall i :: 0 <= i < |p| - 1 ==> (p[i], p[i + 1]) in E
  }

  /** `b` can be reached from `a` in zero or more steps. */
  ghost predicate Reaches(E: Edges, a: string, b: string) {
    exists p :: IsPath(E, p) && p[0] == a && p[|p| - 1] == b
  }

  /** No edge can be followed back to its source. */
  ghost predicate Acyclic(E: Edges) {
    forall a, b :: (a, b) in E ==> !Reaches(E, b, a)
  }

  /** Every location mentioned by an edge. */
  function Endpoints(E: Edges): set<string> {
    (set e | e in E :: e.0) + (set e | e in E :: e.1)
  }

  lemma ReachesSelf(E: Edges, a: string)
    ensures Reaches(E, a, a)
  {
    assert IsPath(E, [a]);
  }

  lemma PrependEdge(E: Edges, u: string, v: string, t: string)
    requires (u, v) in E && Reaches(E, v, t)
    ensures Reaches(E, u, t)
  {
    var p :| IsPath(E, p) && p[0] == v && p[|p| - 1] == t;
    var q := [u] + p;
    assert forall i :: 0 < i < |q| ==> q[i] == p[i - 1];
    assert IsPath(E, q);
  }

  lemma {:induction false} ReachesTrans(E: Edges, a: string, b: string, c: string)
    requires Reaches(E, a, b) && Reaches(E, b, c)
    ensures Reaches(E, a, c)
  {
    var p :| IsPath(E, p) && p[0] == a && p[|p| - 1] == b;
    var q :| IsPath(E, q) && q[0] == b && q[|q| - 1] == c;
    var r := p + q[1..];
    assert forall i :: 0 <= i < |p| ==> r[i] == p[i];
    assert forall i :: |p| <= i < |r| ==> r[i] == q[i - |p| + 1];
    assert IsPath(E, r);
  }

  /**
   * A set that holds the last vertex of a path and every predecessor of
   * each of its members holds the first vertex of the path.
   */
  lemma {:induction false} ClosedSetHoldsPathStart(E: Edges, R: set<string>, p: seq<string>)
    requires IsPath(E, p) && p[|p| - 1] in R
    requires forall u, v :: (u, v) in E && v in R ==> u in R
    ensures p[0] in R
  {
    if |p| > 1 {
      ClosedSetHoldsPathStart(E, R, p[1..]);
    }
  }

  /** Without edges a vertex reaches only itself. */
  lemma NoEdgesReachOnlySelf(a: string, b: string)
    ensures Reaches({}, a, b) ==> a == b
  {
    if Reaches({}, a, b) {
      var p :| IsPath({}, p) && p[0] == a && p[|p| - 1] == b;
      ClosedSetHoldsPathStart({}, {b}, p);
    }
  }

  /**
   * A path that may use the extra edge (s, d) is either a path of E, or
   * reaches s in E and continues from d in E.
   */
  lemma {:induction false} PathWithNewEdge(E: Edges, s: string, d: string, p: seq<string>)
    requires IsPath(E + {(s, d)}, p)
    ensures Reaches(E, p[0], p[|p| - 1])
         || (Reaches(E, p[0], s) && Reaches(E, d, p[|p| - 1]))
  {
    var x, y := p[0], p[|p| - 1];
    if |p| == 1 {
      ReachesSelf(E, x);
    } else {
      var q := p[1..];
      PathWithNewEdge(E, s, d, q);
      if (x, q[0]) in E {
        if Reaches(E, q[0], y) {
          PrependEdge(E, x, q[0], y);
        } else {
          PrependEdge(E, x, q[0], s);
        }
      } else {
        assert x == s && q[0] == d;
        ReachesSelf(E, s);
        if Reaches(E, q[0], y) {
        }
      }
    }
  }

  /** Adding an edge whose destination does not reach its source keeps the graph acyclic. */
  lemma AddEdgeKeepsAcyclic(E: Edges, s: string, d: string)
    requires Acyclic(E) && !Reaches(E, d, s)
    ensures Acyclic(E + {(s, d)})
  {
    var E' := E + {(s, d)};
    forall a, b | (a, b) in E'
      ensures !Reaches(E', b, a)
    {
      if Reaches(E', b, a) {
        var p :| IsPath(E', p) && p[0] == b && p[|p| - 1] == a;
        PathWithNewEdge(E, s, d, p);
        if (a, b) == (s, d) {
          if !Reaches(E, b, a) {
            ReachesSelf(E, s);
            ReachesTrans(E, d, a, s);
          }
          assert false;
        } else {
          assert (a, b) in E;
          if !Reaches(E, b, a) {
            PrependEdge(E, a, b, s);
            ReachesTrans(E, d, a, s);
          }
          assert false;
        }
      }
    }
  }

  /**
   * The library's cycle test for a new edge source -> target: it walks the
   * predecessors of `source` and answers whether `target` is among them
   * (a self-loop counts as a cycle).
   */
  method CreatesCycle(E: Edges, source: string, target: string) returns (cycle: bool)
    ensures cycle <==> Reaches(E, target, source)
  {
    if source == target {
      ReachesSelf(E, source);
      return true;
    }
    var visited: set<string> := {};
    var todo: set<string> := {source};
    ReachesSelf(E, source);
    while todo != {}
      invariant todo !! visited
      invariant target !in visited
      invariant source in visited + todo
      invariant visited + todo <= Endpoints(E) + {source}
      invariant forall v :: v in visited ==> Reaches(E, v, source)
      invariant forall v :: v in todo ==> Reaches(E, v, source)
      invariant forall u, v :: (u, v) in E && v in visited ==> u in visited + todo
      decreases Endpoints(E) + {source} - visited
    {
      var cur :| cur in todo;
      if cur == target {
        return true;
      }
      var preds := set e | e in E && e.1 == cur :: e.0;
      forall u | u in preds
        ensures Reaches(E, u, source)
      {
        PrependEdge(E, u, cur, source);
      }
      visited := visited + {cur};
      todo := (todo - {cur}) + (preds - visited);
    }
    if Reaches(E, target, source) {
      var p :| IsPath(E, p) && p[0] == target && p[|p| - 1] == source;
      ClosedSetHoldsPathStart(E, visited, p);
    }
    return false;
  }

  /** `ast.TaskfileGraph`'s edge properties. */
  datatype EdgeProperties = EdgeProperties(data: seq<Include>, weight: int)

  class TaskfileGraph {
    /** URI -> Taskfile, `None` while the vertex is claimed but not yet read. */
    var vertices: map<string, Option<Taskfile>>
    var edges: map<(string, string), EdgeProperties>

    ghost predicate Valid()
      reads this
    {
      && (forall e :: e in edges ==> e.0 in vertices && e.1 in vertices)
      && Acyclic(edges.Keys)
    }

    constructor ()
      ensures Valid() && vertices == map[] && edges == map[]
    {
      vertices := map[];
      edges := map[];
    }

    /** Adds a vertex with no Taskfile yet; fails if the URI is already a vertex. */
    method AddVertex(uri: string) returns (err: Option<GraphError>)
      requires Valid()
      modifies this
      ensures Valid() && edges == old(edges)
      ensures uri in old(vertices) ==> err == Some(VertexAlreadyExists) && vertices == old(vertices)
      ensures uri !in old(vertices) ==> err == None && vertices == old(vertices)[uri := None]
    {
      if uri in vertices {
        return Some(VertexAlreadyExists);
      }
      vertices := vertices[uri := None];
      return None;
    }

    /** The properties of the edge source -> target, if there is one. */
    function Edge(source: string, target: string): (r: Option<EdgeProperties>)
      reads this
      ensures r.Some? <==> (source, target) in edges
      ensures r.Some? ==> r.value == edges[(source, target)]
    {
      if (source, target) in edges then Some(edges[(source, target)]) else None
    }

    /**
     * Adds the edge source -> target. Both ends must be vertices, the edge
     * must be new, and it must not close a cycle.
     */
    method AddEdge(source: string, target: string, data: seq<Include>, weight: int)
      returns (err: Option<GraphError>)
      requires Valid()
      modifies this
      ensures Valid() && vertices == old(vertices)
      ensures source !in vertices ==> err == Some(VertexNotFound(source))
      ensures source in vertices && target !in vertices ==> err == Some(VertexNotFound(target))
      ensures source in vertices && target in vertices && (source, target) in old(edges)
              ==> err == Some(EdgeAlreadyExists)
      ensures source in vertices && target in vertices && (source, target) !in old(edges)
              ==> err == (if Reaches(old(edges).Keys, target, source) then Some(EdgeCreatesCycle) else None)
      ensures err.Some? ==> edges == old(edges)
      ensures err.None? ==> edges == old(edges)[(source, target) := EdgeProperties(data, weight)]
    {
      if source !in vertices {
        return Some(VertexNotFound(source));
      }
      if target !in vertices {
        return Some(VertexNotFound(target));
      }
      if (source, target) in edges {
        return Some(EdgeAlreadyExists);
      }
      var cycle := CreatesCycle(edges.Keys, source, target);
      if cycle {
        return Some(EdgeCreatesCycle);
      }
      AddEdgeKeepsAcyclic(edges.Keys, source, target);
      assert edges[(source, target) := EdgeProperties(data, weight)].Keys == edges.Keys + {(source, target)};
      edges := edges[(source, target) := EdgeProperties(data, weight)];
      return None;
    }

    /** Replaces the properties of an existing edge; no cycle test is made. */
    method UpdateEdge(source: string, target: string, data: seq<Include>, weight: int)
      returns (err: Option<GraphError>)
      requires Valid()
      modifies this
      ensures Valid() && vertices == old(vertices)
      ensures (source, target) !in old(edges) ==> err == Some(EdgeNotFound) && edges == old(edges)
      ensures (source, target) in old(edges) ==>
                err == None && edges == old(edges)[(source, target) := EdgeProperties(data, weight)]
    {
      if (source, target) !in edges {
        return Some(EdgeNotFound);
      }
      assert edges[(source, target) := EdgeProperties(data, weight)].Keys == edges.Keys;
      edges := edges[(source, target) := EdgeProperties(data, weight)];
      return None;
    }
  }
}

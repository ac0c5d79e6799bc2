/**
 * A concrete run of the reader: two local Taskfiles that include each
 * other.
 */
module Scenarios {
  import opened Wrappers
  import opened Ast
  import opened Errors
  import opened Dag
  import opened External
  import opened Trust
  import opened TaskfileReader

  /** An include of the Taskfile at `target`, with every flag off. */
  function IncludeOf(target: string): Include {
    Include(target, target, "", false, false, false, [], false, map[])
  }

  /** A versioned Taskfile with no tasks that includes `target`. */
  function Including(target: string): Taskfile {
    Taskfile(Some("3"), map[], [], [IncludeOf(target)], "")
  }

  /** Local Taskfiles "A" and "B", where "A" includes "B" and "B" includes "A"; nothing is remote. */
  function MutualWorld(): World {
    World(
      {"A", "B"},
      map[],
      (x: string, v: Vars) => Success(x),
      (p: Node, x: string) => Success(x),
      (p: Node, x: string) => Success(x),
      (e: string, d: string, i: bool, t: nat, p: Node) =>
        if e == "A" || e == "B" then Success(Local(e)) else Failure(External("no such file")),
      (n: Node) => Failure(External("no network")),
      (n: Node) => Success(Source(if n.location == "A" then [0] else [1], "")),
      (b: Bytes) => Success(Including(if b == [0] then "B" else "A")),
      (dir: string) => None,
      (l: string) => None,
      (src: Source) => Success(""),
      (prompt: string) => false,
      (n: Node, src: Source) => Failure(External("read-only")))
  }

  lemma MutualWorldIsClosed()
    ensures MutualWorld().Closed()
  {
  }

  /** The Taskfiles as stored: "A" including "B" and "B" including "A". */
  function StoredA(): Taskfile { Populate(Parsed(Including("B").(location := "A"), "")) }
  function StoredB(): Taskfile { Populate(Parsed(Including("A").(location := "B"), "")) }

  /** The snapshot once both are read and the edge B -> A is in. */
  function BothRead(): Snapshot {
    Snapshot(map["A" := Some(StoredA()), "B" := Some(StoredB())],
             map[("B", "A") := EdgeProperties([IncludeOf("A")], 1)], map[])
  }

  lemma ReadsOfMutualWorld(s: Settings)
    ensures ReadOutcome(MutualWorld(), s, map[], Local("A")) == Success((Parsed(Including("B").(location := "A"), ""), Local("A")))
    ensures ReadOutcome(MutualWorld(), s, map[], Local("B")) == Success((Parsed(Including("A").(location := "B"), ""), Local("B")))
    ensures StoreWrite(map[], Local("A"), LoadNode(MutualWorld(), s, map[], Local("A"))) == map[]
    ensures StoreWrite(map[], Local("B"), LoadNode(MutualWorld(), s, map[], Local("B"))) == map[]
    ensures ResolveInclude(MutualWorld(), s, Local("A"), map[], IncludeOf("B")) == Resolved(IncludeOf("B"), Local("B"))
    ensures ResolveInclude(MutualWorld(), s, Local("B"), map[], IncludeOf("A")) == Resolved(IncludeOf("A"), Local("A"))
  {
  }

  /** "A" and "B" each claimed and read, with no edge yet. */
  function BothStored(): Snapshot {
    Snapshot(map["A" := Some(StoredA()), "B" := Some(StoredB())], map[], map[])
  }

  lemma NoEdgesNoPath()
    ensures !Reaches({}, "A", "B")
  {
    NoEdgesReachOnlySelf("A", "B");
    assert "A"[0] != "B"[0];
  }

  /** Inside "B": "A" is already claimed, so it is not read again and B -> A goes in. */
  lemma EdgeFromB(s: Settings)
    ensures MutualWorld().Closed()
    ensures FollowSpec(MutualWorld(), s, BothStored(), Local("B"), IncludeOf("A"), Local("A")) == (BothRead(), None)
  {
    MutualWorldIsClosed();
    NoEdgesNoPath();
    assert IncludeSpec(MutualWorld(), s, BothStored(), Local("A")) == (BothStored(), None);
  }

  /** Reading "B" while "A" is claimed and stored. */
  lemma InsideB(s: Settings)
    ensures MutualWorld().Closed()
    ensures ReadClaimedSpec(MutualWorld(), s, Snapshot(map["A" := Some(StoredA()), "B" := None], map[], map[]), Local("B"))
            == (BothRead(), None)
  {
    var w := MutualWorld();
    EdgeFromB(s);
    ReadsOfMutualWorld(s);
    var stB := BothStored();
    assert map["A" := Some(StoredA()), "B" := None]["B" := Some(StoredB())] == stB.vertices;
    assert StoredB().includes == [IncludeOf("A")] && w.environ + StoredB().vars == map[];
    assert BranchSpec(w, s, stB, Local("B"), map[], IncludeOf("A")) == (BothRead(), None);
    assert EachSpec(w, s, BothRead(), Local("B"), map[], [IncludeOf("A")], 1) == (BothRead(), None);
    assert EachSpec(w, s, stB, Local("B"), map[], [IncludeOf("A")], 0) == (BothRead(), None);
  }

  /** Back in "A": with B -> A in place the edge A -> B closes a cycle. */
  lemma InsideA(s: Settings)
    ensures MutualWorld().Closed()
    ensures ReadClaimedSpec(MutualWorld(), s, Snapshot(map["A" := None], map[], map[]), Local("A"))
            == (BothRead(), Some(TaskfileCycle("A", "B")))
  {
    var w := MutualWorld();
    InsideB(s);
    ReadsOfMutualWorld(s);
    var stA := Snapshot(map["A" := Some(StoredA())], map[], map[]);
    assert map["A" := None]["A" := Some(StoredA())] == stA.vertices;
    assert StoredA().includes == [IncludeOf("B")] && w.environ + StoredA().vars == map[];
    assert stA.vertices["B" := None] == map["A" := Some(StoredA()), "B" := None];
    assert IncludeSpec(w, s, stA, Local("B")) == (BothRead(), None);
    assert IsPath(BothRead().edges.Keys, ["B", "A"]);
    assert FollowSpec(w, s, stA, Local("A"), IncludeOf("B"), Local("B")) == (BothRead(), Some(TaskfileCycle("A", "B")));
  }

  /**
   * Edges go in after the recursion: reading "A" claims "A", reads "B",
   * finds "A" already claimed and adds B -> A; the closing edge A -> B is
   * then refused as a cycle from "A" to "B".
   */
  lemma MutualIncludesAreACycle(s: Settings)
    ensures MutualWorld().Closed()
    ensures var r := IncludeSpec(MutualWorld(), s, Snapshot(map[], map[], map[]), Local("A"));
      && r.1 == Some(TaskfileCycle("A", "B"))
      && r.0.edges.Keys == {("B", "A")}
      && r.0.vertices.Keys == {"A", "B"}
  {
    InsideA(s);
    var empty: map<string, Option<Taskfile>> := map[];
    assert empty["A" := None] == map["A" := None];
  }

  /** Reading "A" with a fresh reader fails with the cycle from "A" to "B" and returns no graph. */
  method ReadMutualIncludes(s: Settings) returns (g: TaskfileGraph?, err: Option<Error>)
    ensures g == null && err == Some(TaskfileCycle("A", "B"))
  {
    MutualIncludesAreACycle(s);
    var reader := new Reader(Local("A"), s, MutualWorld(), map[]);
    g, err := reader.Read();
  }
}

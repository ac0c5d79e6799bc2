/**
 * The reader (`taskfile.Reader`): starting from a root node it claims a
 * vertex per location, reads and checks the Taskfile there, resolves each
 * of its includes, recurses into them and records an edge per include.
 * The concurrent fan-out over includes is modelled as an in-order loop
 * that returns the first error.
 */
module TaskfileReader {
  import opened Wrappers
  import opened Ast
  import opened Errors
  import opened Dag
  import opened External
  import opened Trust

  // ---------------------------------------------------------------------------
  // Resolving one include

  datatype Resolution =
    /** The include with `taskfile` templated and `dir` resolved, and the node it names. */
    | Resolved(resolved: Include, child: Node)
    /** An optional include whose node could not be built. */
    | Skipped
    | Failed(error: Error)

  /**
   * Templating and resolution: the include's `taskfile` and `dir` templated
   * over `vars`, the entrypoint resolved from the templated `taskfile` and
   * the templated `dir` resolved, both against the parent node. Yields the
   * entrypoint and the include with the templated `taskfile` and resolved
   * `dir`.
   */
  function Locate(w: World, parent: Node, vars: Vars, inc: Include): (r: Result<(string, Include), Error>)
    ensures r.Success? ==> r.value.1.(taskfile := inc.taskfile, dir := inc.dir) == inc
    ensures r.Success? ==>
              && w.template(inc.taskfile, vars).Success? && w.template(inc.dir, vars).Success?
              && r.value.1.taskfile == w.template(inc.taskfile, vars).value
              && w.resolveEntrypoint(parent, r.value.1.taskfile) == Success(r.value.0)
              && w.resolveDir(parent, w.template(inc.dir, vars).value) == Success(r.value.1.dir)
    ensures r.Failure? ==>
              || w.template(inc.taskfile, vars) == Failure(r.error)
              || w.template(inc.dir, vars) == Failure(r.error)
              || (&& w.template(inc.taskfile, vars).Success? && w.template(inc.dir, vars).Success?
                  && (|| w.resolveEntrypoint(parent, w.template(inc.taskfile, vars).value) == Failure(r.error)
                      || w.resolveDir(parent, w.template(inc.dir, vars).value) == Failure(r.error)))
  {
    var taskfile := w.template(inc.taskfile, vars);
    var dir := w.template(inc.dir, vars);
    if taskfile.Failure? then Failure(taskfile.error)
    else if dir.Failure? then Failure(dir.error)
    else
      var templated := inc.(taskfile := taskfile.value, dir := dir.value);
      var entrypoint := w.resolveEntrypoint(parent, templated.taskfile);
      if entrypoint.Failure? then Failure(entrypoint.error)
      else
        var resolvedDir := w.resolveDir(parent, templated.dir);
        if resolvedDir.Failure? then Failure(resolvedDir.error)
        else Success((entrypoint.value, templated.(dir := resolvedDir.value)))
  }

  /**
   * One include branch up to the recursion: locate the include, then build
   * the child node; an optional include whose node cannot be built is
   * skipped.
   */
  function ResolveInclude(w: World, s: Settings, parent: Node, vars: Vars, inc: Include): (r: Resolution)
    ensures r.Resolved? ==> r.resolved.(taskfile := inc.taskfile, dir := inc.dir) == inc
    ensures r.Resolved? && w.Closed() ==> r.child.location in w.universe
    ensures r.Skipped? ==> inc.optional
  {
    var located := Locate(w, parent, vars, inc);
    if located.Failure? then Failed(located.error)
    else
      var child := w.NewNode(located.value.0, located.value.1.dir, s.insecure, s.timeout, parent);
      if child.Failure? then
        if inc.optional then Skipped else Failed(child.error)
      else
        Resolved(located.value.1, child.value)
  }

  /**
   * Each outcome of a branch against the collaborators' results: a
   * templating or resolution error fails the branch; otherwise a failure
   * of `NewNode` skips an optional include and fails any other with that
   * error; otherwise the child is the node `NewNode` built from the
   * entrypoint and the resolved directory.
   */
  lemma ResolutionOutcomes(w: World, s: Settings, parent: Node, vars: Vars, inc: Include)
    ensures var located := Locate(w, parent, vars, inc);
      var r := ResolveInclude(w, s, parent, vars, inc);
      && (located.Failure? ==> r == Failed(located.error))
      && (located.Success? ==>
            var child := w.NewNode(located.value.0, located.value.1.dir, s.insecure, s.timeout, parent);
            && (child.Failure? && inc.optional ==> r == Skipped)
            && (child.Failure? && !inc.optional ==> r == Failed(child.error))
            && (child.Success? ==> r == Resolved(located.value.1, child.value)))
  {
  }

  /** Templating and resolution do not depend on `optional`. */
  lemma LocateIgnoresOptional(w: World, parent: Node, vars: Vars, inc: Include, optional: bool)
    ensures var yes := Locate(w, parent, vars, inc.(optional := optional));
      var no := Locate(w, parent, vars, inc);
      && (yes.Failure? <==> no.Failure?)
      && (yes.Failure? ==> yes.error == no.error)
      && (yes.Success? ==> yes.value.0 == no.value.0 && yes.value.1 == no.value.1.(optional := optional))
  {
  }

  /**
   * `optional` forgives exactly a failure to build the child node: with
   * templating and resolution succeeding and `NewNode` failing, the
   * optional include is skipped where the other one fails with `NewNode`'s
   * error; every other outcome is the same either way.
   */
  lemma OptionalOnlyForgivesNewNode(w: World, s: Settings, parent: Node, vars: Vars, inc: Include)
    ensures var yes := ResolveInclude(w, s, parent, vars, inc.(optional := true));
      var no := ResolveInclude(w, s, parent, vars, inc.(optional := false));
      var located := Locate(w, parent, vars, inc.(optional := false));
      var newNodeFails := located.Success? &&
        w.NewNode(located.value.0, located.value.1.dir, s.insecure, s.timeout, parent).Failure?;
      && !no.Skipped?
      && (newNodeFails ==>
            (yes == Skipped &&
             no == Failed(w.NewNode(located.value.0, located.value.1.dir, s.insecure, s.timeout, parent).error)))
      && (!newNodeFails ==> !yes.Skipped? && (yes.Failed? ==> no == yes))
      && (yes.Resolved? <==> no.Resolved?)
      && (yes.Resolved? ==> no.child == yes.child && no.resolved == yes.resolved.(optional := false))
  {
    LocateIgnoresOptional(w, parent, vars, inc.(optional := false), true);
  }

  // ---------------------------------------------------------------------------
  // Reading one Taskfile

  /** A decoded and version-checked Taskfile with the directory it was read from. */
  datatype Parsed = Parsed(taskfile: Taskfile, directory: string)

  /** Reads the loaded node, decodes it and checks that it has a version. */
  function DecodeNode(w: World, node: Node): (r: Result<Parsed, Error>)
    ensures w.read(node).Failure? ==> r == Failure(w.read(node).error)
    ensures r.Success? ==> r.value.taskfile.version.Some? && r.value.taskfile.location == node.location
    ensures r.Success? ==> w.read(node).Success? && r.value.directory == w.read(node).value.directory
    ensures r.Success? ==> w.decode(w.read(node).value.content).Success?
    ensures r.Success? ==> r.value.taskfile == w.decode(w.read(node).value.content).value.(location := node.location)
  {
    var src := w.read(node);
    if src.Failure? then Failure(src.error)
    else
      match w.decode(src.value.content)
      case Failure(Syntax(message)) => Failure(TaskfileDecode(node.location, message))
      case Failure(Other(message)) => Failure(TaskfileInvalid(node.location, message))
      case Success(tf) =>
        if tf.version.None? then Failure(TaskfileVersionCheck(node.location))
        else Success(Parsed(tf.(location := node.location), src.value.directory))
  }

  /** A decoded Taskfile without a version is `TaskfileVersionCheckError` for the node's location. */
  lemma MissingVersionIsRejected(w: World, node: Node)
    requires w.read(node).Success? && w.decode(w.read(node).value.content).Success?
    requires w.decode(w.read(node).value.content).value.version.None?
    ensures DecodeNode(w, node) == Failure(TaskfileVersionCheck(node.location))
  {
  }

  /** A syntax error becomes a decode error and any other decode failure an invalid-Taskfile error. */
  lemma DecodeFailuresAreClassified(w: World, node: Node)
    requires w.read(node).Success? && w.decode(w.read(node).value.content).Failure?
    ensures var e := w.decode(w.read(node).value.content).error;
      DecodeNode(w, node) == Failure(if e.Syntax? then TaskfileDecode(node.location, e.message)
                                     else TaskfileInvalid(node.location, e.message))
  {
  }

  /** Stamps a task's location fields that are still empty. */
  function StampTask(t: Task, taskfile: string, dir: string): Task {
    t.(location := t.location.(
      taskfile := if t.location.taskfile == "" then taskfile else t.location.taskfile,
      taskfileDir := if t.location.taskfileDir == "" then dir else t.location.taskfileDir))
  }

  /** A nil task is stamped only in a local copy, so its entry stays nil. */
  function StampEntry(e: Option<Task>, taskfile: string, dir: string): Option<Task> {
    if e.Some? then Some(StampTask(e.value, taskfile, dir)) else None
  }

  function StampAll(tasks: seq<Option<Task>>, taskfile: string, dir: string): seq<Option<Task>> {
    seq(|tasks|, i requires 0 <= i < |tasks| => StampEntry(tasks[i], taskfile, dir))
  }

  /**
   * First write wins: a location field already set is kept, an empty one
   * takes the given value, and nothing else about the task changes.
   */
  lemma StampTaskFirstWriteWins(t: Task, taskfile: string, dir: string)
    ensures var r := StampTask(t, taskfile, dir);
      && r.name == t.name && r.location.line == t.location.line && r.location.column == t.location.column
      && (t.location.taskfile != "" ==> r.location.taskfile == t.location.taskfile)
      && (t.location.taskfile == "" ==> r.location.taskfile == taskfile)
      && (t.location.taskfileDir != "" ==> r.location.taskfileDir == t.location.taskfileDir)
      && (t.location.taskfileDir == "" ==> r.location.taskfileDir == dir)
  {
  }

  /** Stamping again, with any values, changes nothing once non-empty values were stamped. */
  lemma StampAllIsIdempotent(tasks: seq<Option<Task>>, taskfile: string, dir: string, taskfile': string, dir': string)
    requires taskfile != "" && dir != ""
    ensures StampAll(StampAll(tasks, taskfile, dir), taskfile', dir') == StampAll(tasks, taskfile, dir)
  {
  }

  /** Nil entries stay nil and the task list keeps its length and order. */
  lemma StampAllKeepsEntries(tasks: seq<Option<Task>>, taskfile: string, dir: string)
    ensures var r := StampAll(tasks, taskfile, dir);
      && |r| == |tasks|
      && (forall i :: 0 <= i < |tasks| ==> (r[i].None? <==> tasks[i].None?))
      && (forall i :: 0 <= i < |tasks| && tasks[i].Some? ==> r[i].value.name == tasks[i].value.name)
  {
  }

  /** The loop of `readNode` that stamps each task's location. */
  method StampLocations(tasks: seq<Option<Task>>, taskfile: string, dir: string) returns (r: seq<Option<Task>>)
    ensures r == StampAll(tasks, taskfile, dir)
  {
    r := tasks;
    for i := 0 to |r|
      invariant |r| == |tasks|
      invariant forall k :: 0 <= k < i ==> r[k] == StampEntry(tasks[k], taskfile, dir)
      invariant forall k :: i <= k < |r| ==> r[k] == tasks[k]
    {
      // A nil entry is replaced by an empty task in the loop variable only.
      var task := if r[i].Some? then r[i].value else EmptyTask;
      if task.location.taskfile == "" {
        task := task.(location := task.location.(taskfile := taskfile));
      }
      if task.location.taskfileDir == "" {
        task := task.(location := task.location.(taskfileDir := dir));
      }
      if r[i].Some? {
        r := r[i := Some(task)];
      }
    }
  }

  /** The Taskfile stored in its vertex: the parsed one with its tasks stamped. */
  function Populate(p: Parsed): Taskfile {
    p.taskfile.(tasks := StampAll(p.taskfile.tasks, p.taskfile.location, p.directory))
  }

  /** What `readNode` yields from a cache state: the parsed Taskfile and the loaded node, or the error. */
  function ReadOutcome(w: World, s: Settings, cache: Cache, n: Node): Result<(Parsed, Node), Error> {
    var loaded := LoadNode(w, s, cache, n);
    if loaded.result.Failure? then Failure(loaded.result.error)
    else
      var decoded := DecodeNode(w, loaded.result.value);
      if decoded.Failure? then Failure(decoded.error)
      else Success((decoded.value, loaded.result.value))
  }

  /**
   * After a fetch whose checksum matches the cached one, the remote node
   * itself is handed on and read again: what is parsed comes from that
   * second read, whose bytes are not checksummed, and its error is
   * returned as it is, with no fallback to the cache.
   */
  lemma MatchedRemoteIsReadAgain(w: World, s: Settings, cache: Cache, n: Node)
    requires n.Remote? && !s.offline && w.newCache(s.tempDir).None?
    requires w.fetch(n).Success? && w.checksum(w.fetch(n).value).Success?
    requires ReadChecksum(cache, n) != "" && ReadChecksum(cache, n) == w.checksum(w.fetch(n).value).value
    ensures var o := ReadOutcome(w, s, cache, n);
      && (w.read(n).Failure? ==> o == Failure(w.read(n).error))
      && (w.read(n).Success? ==> (o.Success? <==> DecodeNode(w, n).Success?))
      && (o.Success? ==> o.value.1 == n && o.value.0 == DecodeNode(w, n).value)
  {
  }

  // ---------------------------------------------------------------------------
  // The graph as the reader grows it

  /** Existing vertices keep their Taskfile. */
  ghost predicate VerticesGrow(before: map<string, Option<Taskfile>>, after: map<string, Option<Taskfile>>) {
    forall l :: l in before ==> l in after && after[l] == before[l]
  }

  /** Existing edges keep their includes, in order, as a prefix. */
  ghost predicate EdgesGrow(before: map<(string, string), EdgeProperties>, after: map<(string, string), EdgeProperties>) {
    forall e :: e in before ==>
      e in after && |before[e].data| <= |after[e].data| && after[e].data[..|before[e].data|] == before[e].data
  }

  lemma EdgesGrowTransitive(a: map<(string, string), EdgeProperties>, b: map<(string, string), EdgeProperties>,
                            c: map<(string, string), EdgeProperties>)
    requires EdgesGrow(a, b) && EdgesGrow(b, c)
    ensures EdgesGrow(a, c)
  {
    forall e | e in a
      ensures e in c && |a[e].data| <= |c[e].data| && c[e].data[..|a[e].data|] == a[e].data
    {
      assert c[e].data[..|a[e].data|] == c[e].data[..|b[e].data|][..|a[e].data|];
    }
  }

  ghost predicate NewVerticesPopulated(before: map<string, Option<Taskfile>>, after: map<string, Option<Taskfile>>) {
    forall l :: l in after && l !in before ==> after[l].Some?
  }

  /** The include is either a skipped optional one or carried by the edge from its parent to its target. */
  ghost predicate Recorded(w: World, s: Settings, edges: map<(string, string), EdgeProperties>, parent: Node, vars: Vars, inc: Include) {
    var r := ResolveInclude(w, s, parent, vars, inc);
    && !r.Failed?
    && (r.Resolved? ==>
          (parent.location, r.child.location) in edges && r.resolved in edges[(parent.location, r.child.location)].data)
  }

  /** The first `n` includes of `incs` are all recorded. */
  ghost predicate AllRecorded(w: World, s: Settings, edges: map<(string, string), EdgeProperties>, parent: Node, vars: Vars,
                              incs: seq<Include>, n: nat)
    requires n <= |incs|
  {
    forall k :: 0 <= k < n ==> Recorded(w, s, edges, parent, vars, incs[k])
  }

  /** Growing the edges keeps recorded includes recorded. */
  lemma RecordedStaysRecorded(w: World, s: Settings, before: map<(string, string), EdgeProperties>,
                              after: map<(string, string), EdgeProperties>, parent: Node, vars: Vars,
                              incs: seq<Include>, n: nat)
    requires n <= |incs| && EdgesGrow(before, after)
    requires AllRecorded(w, s, before, parent, vars, incs, n)
    ensures AllRecorded(w, s, after, parent, vars, incs, n)
  {
    forall k | 0 <= k < n
      ensures Recorded(w, s, after, parent, vars, incs[k])
    {
      var r := ResolveInclude(w, s, parent, vars, incs[k]);
      if r.Resolved? {
        var e := (parent.location, r.child.location);
        var i :| 0 <= i < |before[e].data| && before[e].data[i] == r.resolved;
        assert after[e].data[i] == r.resolved;
      }
    }
  }

  /** One more include recorded after the edges grew extends the recorded prefix. */
  lemma RecordedExtends(w: World, s: Settings, before: map<(string, string), EdgeProperties>,
                        after: map<(string, string), EdgeProperties>, parent: Node, vars: Vars,
                        incs: seq<Include>, n: nat)
    requires n < |incs| && EdgesGrow(before, after)
    requires AllRecorded(w, s, before, parent, vars, incs, n)
    requires Recorded(w, s, after, parent, vars, incs[n])
    ensures AllRecorded(w, s, after, parent, vars, incs, n + 1)
  {
    RecordedStaysRecorded(w, s, before, after, parent, vars, incs, n);
  }

  // ---------------------------------------------------------------------------
  // The reader as functions over a snapshot of its state

  /** What the reader changes: the graph's vertices and edges, and the cache. */
  datatype Snapshot = Snapshot(
    vertices: map<string, Option<Taskfile>>,
    edges: map<(string, string), EdgeProperties>,
    cache: Cache)

  /** Recording the edge source -> target for `inc`: the new edges and the branch's error. */
  ghost function RecordSpec(edges: map<(string, string), EdgeProperties>, vertices: map<string, Option<Taskfile>>,
                            source: string, target: string, inc: Include): (map<(string, string), EdgeProperties>, Option<Error>)
  {
    if (source, target) in edges then
      var data := edges[(source, target)].data + [inc];
      (edges[(source, target) := EdgeProperties(data, |data|)], None)
    else if source !in vertices then (edges, Some(Graph(VertexNotFound(source))))
    else if target !in vertices then (edges, Some(Graph(VertexNotFound(target))))
    else if Reaches(edges.Keys, target, source) then (edges, Some(TaskfileCycle(source, target)))
    else (edges[(source, target) := EdgeProperties([inc], 1)], None)
  }

  /**
   * Edge recording: a new edge carries `[inc]` with weight 1, an existing
   * one gets `inc` appended and its new length as weight, and nothing
   * else changes; a new edge between vertices is refused exactly when it
   * closes a cycle, as `TaskfileCycleError{source, destination}`, and a
   * refusal leaves the edges as they were.
   */
  lemma EdgeRecording(edges: map<(string, string), EdgeProperties>, vertices: map<string, Option<Taskfile>>,
                      source: string, target: string, inc: Include)
    ensures var (after, err) := RecordSpec(edges, vertices, source, target, inc);
      && (err.Some? ==> after == edges)
      && ((source, target) in edges ==>
            var data := edges[(source, target)].data + [inc];
            err.None? && after == edges[(source, target) := EdgeProperties(data, |data|)])
      && ((source, target) !in edges && source in vertices && target in vertices ==>
            (err == Some(TaskfileCycle(source, target)) <==> Reaches(edges.Keys, target, source)))
      && ((source, target) !in edges && err.None? ==> after == edges[(source, target) := EdgeProperties([inc], 1)])
      && ((source, target) !in edges && source !in vertices ==> err == Some(Graph(VertexNotFound(source))))
      && ((source, target) !in edges && source in vertices && target !in vertices ==>
            err == Some(Graph(VertexNotFound(target))))
  {
  }

  /** `Reader.include` from a snapshot: the snapshot after it and its error. */
  ghost function IncludeSpec(w: World, s: Settings, st: Snapshot, n: Node): (r: (Snapshot, Option<Error>))
    requires w.Closed() && n.location in w.universe
    decreases w.universe - st.vertices.Keys, 0, 0
    ensures st.vertices.Keys <= r.0.vertices.Keys
  {
    if n.location in st.vertices then (st, None)
    else
      var claimed := st.(vertices := st.vertices[n.location := None]);
      assert n.location in (w.universe - st.vertices.Keys) - (w.universe - claimed.vertices.Keys);
      ReadClaimedSpec(w, s, claimed, n)
  }

  /** A claimed location read: its Taskfile stored and its includes followed, or the read error. */
  ghost function ReadClaimedSpec(w: World, s: Settings, st: Snapshot, n: Node): (r: (Snapshot, Option<Error>))
    requires w.Closed() && n.location in st.vertices
    decreases w.universe - st.vertices.Keys, 4, 0
    ensures st.vertices.Keys <= r.0.vertices.Keys
  {
    var o := ReadOutcome(w, s, st.cache, n);
    var cache := StoreWrite(st.cache, n, LoadNode(w, s, st.cache, n));
    if o.Failure? then (st.(cache := cache), Some(o.error))
    else
      var tf := Populate(o.value.0);
      var stored := st.(vertices := st.vertices[n.location := Some(tf)], cache := cache);
      assert stored.vertices.Keys == st.vertices.Keys;
      EachSpec(w, s, stored, o.value.1, w.environ + tf.vars, tf.includes, 0)
  }

  /** The includes from the `i`th on, in order; the first error ends the walk. */
  ghost function EachSpec(w: World, s: Settings, st: Snapshot, parent: Node, vars: Vars, incs: seq<Include>, i: nat)
    : (r: (Snapshot, Option<Error>))
    requires w.Closed() && i <= |incs|
    decreases w.universe - st.vertices.Keys, 3, |incs| - i
    ensures st.vertices.Keys <= r.0.vertices.Keys
  {
    if i == |incs| then (st, None)
    else
      var b := BranchSpec(w, s, st, parent, vars, incs[i]);
      if b.1.Some? then b
      else EachSpec(w, s, b.0, parent, vars, incs, i + 1)
  }

  /** One include branch: resolve, then follow the resolved include. */
  ghost function BranchSpec(w: World, s: Settings, st: Snapshot, parent: Node, vars: Vars, inc: Include)
    : (r: (Snapshot, Option<Error>))
    requires w.Closed()
    decreases w.universe - st.vertices.Keys, 2, 0
    ensures st.vertices.Keys <= r.0.vertices.Keys
  {
    match ResolveInclude(w, s, parent, vars, inc)
    case Failed(e) => (st, Some(e))
    case Skipped => (st, None)
    case Resolved(resolved, child) => FollowSpec(w, s, st, parent, resolved, child)
  }

  /** A resolved include: include the child first, then record the edge to it. */
  ghost function FollowSpec(w: World, s: Settings, st: Snapshot, parent: Node, resolved: Include, child: Node)
    : (r: (Snapshot, Option<Error>))
    requires w.Closed() && child.location in w.universe
    decreases w.universe - st.vertices.Keys, 1, 0
    ensures st.vertices.Keys <= r.0.vertices.Keys
  {
    var c := IncludeSpec(w, s, st, child);
    if c.1.Some? then c
    else
      var e := RecordSpec(c.0.edges, c.0.vertices, parent.location, child.location, resolved);
      (c.0.(edges := e.0), e.1)
  }

  /** The walk over the includes returns the first failing branch's outcome and goes no further. */
  lemma EachStopsAtFirstError(w: World, s: Settings, st: Snapshot, parent: Node, vars: Vars, incs: seq<Include>, i: nat)
    requires w.Closed() && i < |incs|
    ensures var b := BranchSpec(w, s, st, parent, vars, incs[i]);
      && (b.1.Some? ==> EachSpec(w, s, st, parent, vars, incs, i) == b)
      && (b.1.None? ==> EachSpec(w, s, st, parent, vars, incs, i) == EachSpec(w, s, b.0, parent, vars, incs, i + 1))
  {
  }

  /**
   * A branch whose child was included without error but whose edge would
   * close a cycle fails with `TaskfileCycleError` from the parent to the
   * child, and adds no edge.
   */
  lemma CycleFailsTheBranch(w: World, s: Settings, st: Snapshot, parent: Node, vars: Vars, inc: Include)
    requires w.Closed() && ResolveInclude(w, s, parent, vars, inc).Resolved?
    requires var child := ResolveInclude(w, s, parent, vars, inc).child;
      var c := IncludeSpec(w, s, st, child);
      && c.1.None? && (parent.location, child.location) !in c.0.edges
      && parent.location in c.0.vertices && child.location in c.0.vertices
      && Reaches(c.0.edges.Keys, child.location, parent.location)
    ensures var child := ResolveInclude(w, s, parent, vars, inc).child;
      var r := BranchSpec(w, s, st, parent, vars, inc);
      r == (IncludeSpec(w, s, st, child).0, Some(TaskfileCycle(parent.location, child.location)))
  {
  }

  // ---------------------------------------------------------------------------
  // The reader

  class Reader {
    const graph: TaskfileGraph
    const node: Node
    const settings: Settings
    const w: World
    /** The remote cache on disk. */
    var cache: Cache
    /** The locations read so far, in order. */
    ghost var readLog: seq<string>

    ghost predicate Valid()
      reads this, graph
    {
      && graph.Valid()
      && w.Closed()
      && node.location in w.universe
      // an edge's weight is the number of includes it carries
      && (forall e :: e in graph.edges ==> |graph.edges[e].data| > 0 && graph.edges[e].weight == |graph.edges[e].data|)
      // every location is read at most once and only once claimed, and every stored Taskfile was read
      && (forall i, j :: 0 <= i < j < |readLog| ==> readLog[i] != readLog[j])
      && (forall l :: l in readLog ==> l in graph.vertices)
      && (forall l :: l in graph.vertices && graph.vertices[l].Some? ==> l in readLog)
    }

    /** What the reader has changed so far. */
    ghost function State(): Snapshot
      reads this, graph
    {
      Snapshot(graph.vertices, graph.edges, cache)
    }

    /** `NewReader`: an empty graph over the given root node. */
    constructor (node: Node, settings: Settings, w: World, cache: Cache)
      requires w.Closed() && node.location in w.universe
      ensures Valid() && fresh(graph)
      ensures graph.vertices == map[] && graph.edges == map[]
      ensures this.node == node && this.settings == settings && this.w == w && this.cache == cache
    {
      this.graph := new TaskfileGraph();
      this.node := node;
      this.settings := settings;
      this.w := w;
      this.cache := cache;
      this.readLog := [];
    }

    /** Builds the graph from the root node: the graph and no error, or no graph and the error. */
    method Read() returns (g: TaskfileGraph?, err: Option<Error>)
      requires Valid()
      modifies this, graph
      ensures Valid()
      ensures (State(), err) == IncludeSpec(w, settings, old(State()), node)
      ensures err.None? <==> g != null
      ensures g != null ==> g == graph && node.location in graph.vertices
      ensures g != null ==> NewVerticesPopulated(old(graph.vertices), graph.vertices)
      // the root's own load or parse error is the error returned
      ensures node.location !in old(graph.vertices) && ReadOutcome(w, settings, old(cache), node).Failure? ==>
                err == Some(ReadOutcome(w, settings, old(cache), node).error)
    {
      err := Include(node);
      if err.Some? {
        return null, err;
      }
      return graph, None;
    }

    /** `Reader.include`. */
    method Include(n: Node) returns (err: Option<Error>)
      requires Valid() && n.location in w.universe
      modifies this, graph
      decreases w.universe - graph.vertices.Keys, 0
      ensures Valid()
      ensures (State(), err) == IncludeSpec(w, settings, old(State()), n)
      ensures VerticesGrow(old(graph.vertices), graph.vertices) && n.location in graph.vertices
      ensures EdgesGrow(old(graph.edges), graph.edges)
      ensures old(readLog) <= readLog
      ensures err.None? ==> NewVerticesPopulated(old(graph.vertices), graph.vertices)
      // a location already claimed is not read again
      ensures n.location in old(graph.vertices) ==>
                err.None? && graph.vertices == old(graph.vertices) && graph.edges == old(graph.edges)
                && cache == old(cache) && readLog == old(readLog)
      // a new location is claimed and read; a load or parse error leaves only the claim
      ensures n.location !in old(graph.vertices) ==>
                var o := ReadOutcome(w, settings, old(cache), n);
                && |readLog| > |old(readLog)| && readLog[|old(readLog)|] == n.location
                && (o.Failure? ==> err == Some(o.error) && graph.edges == old(graph.edges)
                                   && graph.vertices == old(graph.vertices)[n.location := None])
                && (err.None? ==> o.Success? && graph.vertices[n.location] == Some(Populate(o.value.0)))
      // on success every include of the Taskfile is skipped or carried by an edge
      ensures n.location !in old(graph.vertices) && err.None? ==>
                var o := ReadOutcome(w, settings, old(cache), n);
                var tf := o.value.0.taskfile;
                forall k :: 0 <= k < |tf.includes| ==>
                  Recorded(w, settings, graph.edges, o.value.1, w.environ + tf.vars, tf.includes[k])
    {
      var claim := graph.AddVertex(n.location);
      // AddVertex can only report that the location is already a vertex
      if claim.Some? {
        return None;
      }
      assert n.location in (w.universe - old(graph.vertices.Keys)) - (w.universe - graph.vertices.Keys);
      err := ReadClaimed(n);
    }

    /** The part of `Reader.include` after the claim: read the node, store it, follow its includes. */
    method ReadClaimed(n: Node) returns (err: Option<Error>)
      requires Valid() && n.location in graph.vertices && graph.vertices[n.location].None? && n.location !in readLog
      modifies this, graph
      decreases w.universe - graph.vertices.Keys, 4
      ensures Valid()
      ensures (State(), err) == ReadClaimedSpec(w, settings, old(State()), n)
      ensures VerticesGrow(old(graph.vertices) - {n.location}, graph.vertices) && n.location in graph.vertices
      ensures EdgesGrow(old(graph.edges), graph.edges)
      ensures old(readLog) + [n.location] <= readLog
      ensures err.None? ==> NewVerticesPopulated(old(graph.vertices), graph.vertices) && graph.vertices[n.location].Some?
      ensures var o := ReadOutcome(w, settings, old(cache), n);
        && (o.Failure? ==> err == Some(o.error) && graph.edges == old(graph.edges)
                           && graph.vertices == old(graph.vertices))
        && (err.None? ==> o.Success? && graph.vertices[n.location] == Some(Populate(o.value.0)))
      ensures err.None? ==>
                var o := ReadOutcome(w, settings, old(cache), n);
                var tf := o.value.0.taskfile;
                forall k :: 0 <= k < |tf.includes| ==>
                  Recorded(w, settings, graph.edges, o.value.1, w.environ + tf.vars, tf.includes[k])
    {
      ghost var o := ReadOutcome(w, settings, cache, n);
      var read := ReadNode(n);
      if read.Failure? {
        return Some(read.error);
      }
      var tf, loaded := read.value.0, read.value.1;
      assert tf.includes == o.value.0.taskfile.includes && tf.vars == o.value.0.taskfile.vars;
      graph.vertices := graph.vertices[n.location := Some(tf)];
      err := IncludeEach(loaded, tf);
    }

    /** The loop over the includes of a Taskfile, with the first error winning. */
    method IncludeEach(parent: Node, tf: Taskfile) returns (err: Option<Error>)
      requires Valid()
      modifies this, graph
      decreases w.universe - graph.vertices.Keys, 3
      ensures Valid()
      ensures (State(), err) == EachSpec(w, settings, old(State()), parent, w.environ + tf.vars, tf.includes, 0)
      ensures VerticesGrow(old(graph.vertices), graph.vertices)
      ensures EdgesGrow(old(graph.edges), graph.edges)
      ensures old(readLog) <= readLog
      ensures err.None? ==> NewVerticesPopulated(old(graph.vertices), graph.vertices)
      ensures err.None? ==>
                forall k :: 0 <= k < |tf.includes| ==>
                  Recorded(w, settings, graph.edges, parent, w.environ + tf.vars, tf.includes[k])
    {
      var vars := w.environ + tf.vars;
      var i := 0;
      while i < |tf.includes|
        invariant 0 <= i <= |tf.includes|
        invariant Valid()
        invariant EachSpec(w, settings, old(State()), parent, vars, tf.includes, 0)
                  == EachSpec(w, settings, State(), parent, vars, tf.includes, i)
        invariant VerticesGrow(old(graph.vertices), graph.vertices)
        invariant NewVerticesPopulated(old(graph.vertices), graph.vertices)
        invariant EdgesGrow(old(graph.edges), graph.edges)
        invariant old(readLog) <= readLog
        invariant AllRecorded(w, settings, graph.edges, parent, vars, tf.includes, i)
      {
        ghost var before := State();
        err := IncludeBranch(parent, vars, tf.includes[i]);
        EdgesGrowTransitive(old(graph.edges), before.edges, graph.edges);
        if err.Some? {
          return;
        }
        RecordedExtends(w, settings, before.edges, graph.edges, parent, vars, tf.includes, i);
        i := i + 1;
      }
      return None;
    }

    /** The goroutine started for one include. */
    method IncludeBranch(parent: Node, vars: Vars, inc: Include) returns (err: Option<Error>)
      requires Valid()
      modifies this, graph
      decreases w.universe - graph.vertices.Keys, 2
      ensures Valid()
      ensures (State(), err) == BranchSpec(w, settings, old(State()), parent, vars, inc)
      ensures VerticesGrow(old(graph.vertices), graph.vertices)
      ensures EdgesGrow(old(graph.edges), graph.edges)
      ensures old(readLog) <= readLog
      ensures err.None? ==> NewVerticesPopulated(old(graph.vertices), graph.vertices)
      ensures err.None? ==> Recorded(w, settings, graph.edges, parent, vars, inc)
      ensures !ResolveInclude(w, settings, parent, vars, inc).Resolved? ==> unchanged(this, graph)
    {
      match ResolveInclude(w, settings, parent, vars, inc)
      case Failed(e) =>
        return Some(e);
      case Skipped =>
        return None;
      case Resolved(resolved, child) =>
        err := Follow(parent, resolved, child);
    }

    /** The rest of the goroutine once the include is resolved: recurse, then add or extend the edge. */
    method Follow(parent: Node, resolved: Include, child: Node) returns (err: Option<Error>)
      requires Valid() && child.location in w.universe
      modifies this, graph
      decreases w.universe - graph.vertices.Keys, 1
      ensures Valid()
      ensures (State(), err) == FollowSpec(w, settings, old(State()), parent, resolved, child)
      ensures VerticesGrow(old(graph.vertices), graph.vertices)
      ensures EdgesGrow(old(graph.edges), graph.edges)
      ensures old(readLog) <= readLog
      ensures err.None? ==> NewVerticesPopulated(old(graph.vertices), graph.vertices)
      ensures err.None? ==>
                (parent.location, child.location) in graph.edges
                && resolved in graph.edges[(parent.location, child.location)].data
    {
      err := Include(child);
      if err.Some? {
        return;
      }
      ghost var edgesBefore := graph.edges;
      err := RecordEdge(parent.location, child.location, resolved);
      EdgesGrowTransitive(old(graph.edges), edgesBefore, graph.edges);
      if err.None? {
        EdgeRecording(edgesBefore, graph.vertices, parent.location, child.location, resolved);
      }
    }

    /**
     * Adds the edge source -> target carrying `inc`, or appends `inc` to
     * the edge already there; the weight is the number of includes carried.
     */
    method RecordEdge(source: string, target: string, inc: Include) returns (err: Option<Error>)
      requires Valid()
      modifies graph
      ensures Valid()
      ensures graph.vertices == old(graph.vertices)
      ensures EdgesGrow(old(graph.edges), graph.edges)
      ensures (graph.edges, err) == RecordSpec(old(graph.edges), graph.vertices, source, target, inc)
    {
      var edge := graph.Edge(source, target);
      var e: Option<GraphError>;
      if edge.None? {
        e := graph.AddEdge(source, target, [inc], 1);
      } else {
        var data := edge.value.data + [inc];
        e := graph.UpdateEdge(source, target, data, |data|);
      }
      if e == Some(EdgeCreatesCycle) {
        return Some(TaskfileCycle(source, target));
      }
      return if e.Some? then Some(Graph(e.value)) else None;
    }

    /** `Reader.readNode`: load, read, decode, check the version and stamp the tasks. */
    method ReadNode(n: Node) returns (r: Result<(Taskfile, Node), Error>)
      requires n.location !in readLog
      modifies this`cache, this`readLog
      ensures readLog == old(readLog) + [n.location]
      ensures cache == StoreWrite(old(cache), n, LoadNode(w, settings, old(cache), n))
      ensures var o := ReadOutcome(w, settings, old(cache), n);
        && (o.Failure? ==> r == Failure(o.error))
        && (o.Success? ==> r == Success((Populate(o.value.0), o.value.1)))
    {
      readLog := readLog + [n.location];
      var loaded := LoadNode(w, settings, cache, n);
      cache := StoreWrite(cache, n, loaded);
      if loaded.result.Failure? {
        return Failure(loaded.result.error);
      }
      var node := loaded.result.value;
      var decoded := DecodeNode(w, node);
      if decoded.Failure? {
        return Failure(decoded.error);
      }
      var tf := decoded.value.taskfile;
      var tasks := StampLocations(tf.tasks, tf.location, decoded.value.directory);
      return Success((tf.(tasks := tasks), node));
    }
  }
}

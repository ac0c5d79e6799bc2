/**
 * The parts of the taskfile AST (package `taskfile/ast`) that the reader
 * touches, and the `Node` handle for a place a Taskfile lives.
 */
module Ast {
  import opened Wrappers

  type Bytes = seq<bv8>

  /** Variables; values are kept as plain strings. */
  type Vars = map<string, string>

  /** `ast.Location` of a task: where it was defined. */
  datatype Location = Location(line: int, column: int, taskfile: string, taskfileDir: string)

  datatype Task = Task(name: string, location: Location)

  /** The empty task `&ast.Task{}`. */
  const EmptyTask := Task("", Location(0, 0, "", ""))

  /** An `include:` entry; `taskfile` and `dir` are templates until resolved. */
  datatype Include = Include(
    namespace: string,
    taskfile: string,
    dir: string,
    optional: bool,
    internal: bool,
    flatten: bool,
    aliases: seq<string>,
    advancedImport: bool,
    vars: Vars)

  /**
   * A parsed Taskfile. `version` is `None` when the document has no schema
   * version; `tasks` holds the values of the ordered task map in order, a
   * `None` entry being a nil task pointer; `includes` holds the values of
   * the ordered include map in order.
   */
  datatype Taskfile = Taskfile(
    version: Option<string>,
    vars: Vars,
    tasks: seq<Option<Task>>,
    includes: seq<Include>,
    location: string)

  /** A source handle: a local file (or stdin, or a cached copy) or a remote URL. */
  datatype Node = Local(location: string) | Remote(location: string)

  /** What `Node.Read` yields: the bytes and the directory they belong to. */
  datatype Source = Source(content: Bytes, directory: string)
}

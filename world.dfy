/**
 * The collaborators the reader calls but whose code is not part of this
 * model, each an uninterpreted total function, and the reader's settings.
 */
module External {
  import opened Wrappers
  import opened Ast
  import opened Errors

  /** `NewReader`'s flags; the logger is not modelled. */
  datatype Settings = Settings(insecure: bool, download: bool, offline: bool, timeout: nat, tempDir: string)

  datatype World = World(
    /** Every location a node handed out by `NewNode` can have. */
    universe: set<string>,
    /** `compiler.GetEnviron()`. */
    environ: Vars,
    /** `templater.Replace` with a cache over the given variables. */
    template: (string, Vars) -> Result<string, Error>,
    /** `Node.ResolveEntrypoint` and `Node.ResolveDir`. */
    resolveEntrypoint: (Node, string) -> Result<string, Error>,
    resolveDir: (Node, string) -> Result<string, Error>,
    /** `NewNode(entrypoint, dir, insecure, timeout, WithParent(parent))`. */
    newNode: (string, string, bool, nat, Node) -> Result<Node, Error>,
    /** `RemoteNode.Read` as `loadNode` calls it: the network fetch whose checksum is checked. */
    fetch: Node -> Result<Source, Error>,
    /**
     * `Node.Read` as `readNode` calls it on the loaded node: a file read, or
     * for a remote node a second network fetch, independent of the first.
     */
    read: Node -> Result<Source, Error>,
    /** `yaml.Unmarshal` into an `ast.Taskfile`. */
    decode: Bytes -> Result<Taskfile, DecodeError>,
    /** `NewCache(tempDir)`: an error if the cache directory cannot be used. */
    newCache: string -> Option<Error>,
    /** A failure other than "not found" when reading the cached copy of a location. */
    cacheFault: string -> Option<Error>,
    /** `checksumSource`. */
    checksum: Source -> Result<string, Error>,
    /** The user's answer to a prompt: true to continue. */
    confirm: string -> bool,
    /** `Cache.write`: stores a fetched source and hands back a node for the stored copy. */
    cacheWrite: (Node, Source) -> Result<Node, Error>)
  {
    function NewNode(entrypoint: string, dir: string, insecure: bool, timeout: nat, parent: Node): Result<Node, Error> {
      newNode(entrypoint, dir, insecure, timeout, parent)
    }

    /** Only finitely many documents can be reached: every node `NewNode` builds lies in `universe`. */
    ghost predicate Closed() {
      forall e, d, i, t, p :: NewNode(e, d, i, t, p).Success? ==> NewNode(e, d, i, t, p).value.location in universe
    }
  }
}

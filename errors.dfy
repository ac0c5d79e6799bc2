/** The error values the reader produces or passes through. */
module Errors {

  /** The sentinel errors of the graph library. */
  datatype GraphError =
    | VertexAlreadyExists
    | VertexNotFound(hash: string)
    | EdgeAlreadyExists
    | EdgeNotFound
    | EdgeCreatesCycle

  /** What a YAML decode failure is: a syntax error in the document, or any other failure. */
  datatype DecodeError = Syntax(message: string) | Other(message: string)

  datatype Error =
    | Graph(cause: GraphError)
    | TaskfileCycle(source: string, destination: string)
    | TaskfileVersionCheck(uri: string)
    | TaskfileDecode(uri: string, message: string)
    | TaskfileInvalid(uri: string, message: string)
    | TaskfileCacheNotFound(uri: string)
    | TaskfileNetworkTimeout(uri: string, timeout: nat, checkedCache: bool)
    | TaskfileNotTrusted(uri: string)
    /** Any error of a collaborator (file system, network, templater, cache store). */
    | External(message: string)
}

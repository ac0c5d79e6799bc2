/**
 * Loading a node before it is read (`Reader.loadNode`): local nodes pass
 * through; remote nodes go through offline mode, the timeout fallback to
 * the cache, and the trust-on-first-use checksum check with its prompt.
 */
module Trust {
  import opened Wrappers
  import opened Ast
  import opened Errors
  import opened External

  /** A cached remote Taskfile: the node that reads the stored copy, and the stored checksum. */
  datatype CacheEntry = CacheEntry(node: Node, checksum: string)

  /** The remote cache under the temp directory, keyed by remote location. */
  type Cache = map<string, CacheEntry>

  datatype PromptKind = Untrusted | Changed

  const UntrustedPromptHead := "The task you are attempting to run depends on the remote Taskfile at "
  const UntrustedPromptTail := ".\n--- Make sure you trust the source of this Taskfile before continuing ---\nContinue?"
  const ChangedPromptHead := "The Taskfile at "
  const ChangedPromptTail := " has changed since you last used it!\n--- Make sure you trust the source of this Taskfile before continuing ---\nContinue?"

  /** The prompt text with the location quoted. */
  function PromptMessage(kind: PromptKind, uri: string): string {
    var quoted := "\"" + uri + "\"";
    match kind
    case Untrusted => UntrustedPromptHead + quoted + UntrustedPromptTail
    case Changed => ChangedPromptHead + quoted + ChangedPromptTail
  }

  datatype CacheLookup = Hit(node: Node) | Miss | Unreadable(error: Error)

  /** `Cache.read`: `Miss` stands for `os.ErrNotExist`. */
  function ReadCache(w: World, cache: Cache, n: Node): CacheLookup {
    if n.location !in cache then Miss
    else if w.cacheFault(n.location).Some? then Unreadable(w.cacheFault(n.location).value)
    else Hit(cache[n.location].node)
  }

  /** `Cache.readChecksum`: the empty string when nothing is cached. */
  function ReadChecksum(cache: Cache, n: Node): string {
    if n.location in cache then cache[n.location].checksum else ""
  }

  /**
   * What loading did: the node to read (or the error), whether the remote
   * was fetched, which prompt was shown, and what was written to the cache.
   */
  datatype LoadOutcome = LoadOutcome(
    result: Result<Node, Error>,
    fetched: bool,
    prompt: Option<PromptKind>,
    write: Option<CacheEntry>)

  /**
   * A load that fetched goes on only when the fetched copy's checksum matches
   * the cached one or the user consented to the prompt.
   */
  ghost predicate Consented(w: World, cache: Cache, n: Node, r: LoadOutcome) {
    var fetch := w.fetch(n);
    fetch.Success? && w.checksum(fetch.value).Success? &&
    (|| (r.prompt.None? && ReadChecksum(cache, n) != "" && ReadChecksum(cache, n) == w.checksum(fetch.value).value)
     || (r.prompt.Some? && w.confirm(PromptMessage(r.prompt.value, n.location))))
  }

  function LoadNode(w: World, s: Settings, cache: Cache, n: Node): (r: LoadOutcome)
    ensures !n.Remote? ==> r == LoadOutcome(Success(n), false, None, None)
    ensures r.fetched ==> n.Remote? && !s.offline
    ensures r.prompt.Some? ==> r.fetched
    ensures r.write.Some? ==> r.prompt.Some? && r.result == Success(r.write.value.node)
    ensures r.result.Success? && r.fetched && w.fetch(n).Success? ==> Consented(w, cache, n, r)
  {
    if !n.Remote? then LoadOutcome(Success(n), false, None, None)
    else if w.newCache(s.tempDir).Some? then LoadOutcome(Failure(w.newCache(s.tempDir).value), false, None, None)
    else if s.offline then
      match ReadCache(w, cache, n)
      case Miss => LoadOutcome(Failure(TaskfileCacheNotFound(n.location)), false, None, None)
      case Unreadable(e) => LoadOutcome(Failure(e), false, None, None)
      case Hit(cached) => LoadOutcome(Success(cached), false, None, None)
    else
      var fetch := w.fetch(n);
      if fetch.Failure? && fetch.error.TaskfileNetworkTimeout? then
        if s.download then
          LoadOutcome(Failure(TaskfileNetworkTimeout(n.location, fetch.error.timeout, false)), true, None, None)
        else
          match ReadCache(w, cache, n)
          case Miss => LoadOutcome(Failure(TaskfileNetworkTimeout(n.location, s.timeout, true)), true, None, None)
          case Unreadable(e) => LoadOutcome(Failure(e), true, None, None)
          case Hit(cached) => LoadOutcome(Success(cached), true, None, None)
      else if fetch.Failure? then
        LoadOutcome(Failure(fetch.error), true, None, None)
      else
        var cachedChecksum := ReadChecksum(cache, n);
        var checksum := w.checksum(fetch.value);
        if checksum.Failure? then
          LoadOutcome(Failure(checksum.error), true, None, None)
        else
          var prompt :=
            if cachedChecksum == "" then Some(Untrusted)
            else if checksum.value != cachedChecksum then Some(Changed)
            else None;
          if prompt.None? then
            LoadOutcome(Success(n), true, None, None)
          else if !w.confirm(PromptMessage(prompt.value, n.location)) then
            LoadOutcome(Failure(TaskfileNotTrusted(n.location)), true, prompt, None)
          else
            var written := w.cacheWrite(n, fetch.value);
            if written.Failure? then
              LoadOutcome(Failure(written.error), true, prompt, None)
            else
              LoadOutcome(Success(written.value), true, prompt, Some(CacheEntry(written.value, checksum.value)))
  }

  /** The cache after a load: the remote's entry replaced when the load wrote one. */
  function StoreWrite(cache: Cache, n: Node, r: LoadOutcome): (c: Cache)
    ensures r.write.None? ==> c == cache
    ensures r.write.Some? ==> n.location in c && c[n.location] == r.write.value
    ensures forall l :: l != n.location ==> (l in c <==> l in cache) && (l in c ==> c[l] == cache[l])
  {
    if r.write.Some? then cache[n.location := r.write.value] else cache
  }

  /** Offline mode never fetches or prompts; a cache miss is `TaskfileCacheNotFoundError`. */
  lemma OfflineUsesCacheOnly(w: World, s: Settings, cache: Cache, n: Node)
    requires n.Remote? && s.offline && w.newCache(s.tempDir).None?
    ensures var r := LoadNode(w, s, cache, n);
      && !r.fetched && r.prompt.None? && r.write.None?
      && (n.location !in cache ==> r.result == Failure(TaskfileCacheNotFound(n.location)))
      && (n.location in cache && w.cacheFault(n.location).None? ==> r.result == Success(cache[n.location].node))
  {
  }

  /** A fetch timeout: with `download` it fails at once, otherwise it falls back to the cache. */
  lemma TimeoutFallsBackToCache(w: World, s: Settings, cache: Cache, n: Node)
    requires n.Remote? && !s.offline && w.newCache(s.tempDir).None?
    requires w.fetch(n).Failure? && w.fetch(n).error.TaskfileNetworkTimeout?
    ensures var r := LoadNode(w, s, cache, n);
      && r.fetched && r.prompt.None? && r.write.None?
      && (s.download ==> r.result == Failure(TaskfileNetworkTimeout(n.location, w.fetch(n).error.timeout, false)))
      && (!s.download && n.location !in cache ==> r.result == Failure(TaskfileNetworkTimeout(n.location, s.timeout, true)))
      && (!s.download && n.location in cache && w.cacheFault(n.location).None? ==> r.result == Success(cache[n.location].node))
  {
  }

  /** Any other fetch error is returned as it is. */
  lemma OtherFetchErrorPropagates(w: World, s: Settings, cache: Cache, n: Node)
    requires n.Remote? && !s.offline && w.newCache(s.tempDir).None?
    requires w.fetch(n).Failure? && !w.fetch(n).error.TaskfileNetworkTimeout?
    ensures LoadNode(w, s, cache, n) == LoadOutcome(Failure(w.fetch(n).error), true, None, None)
  {
  }

  /**
   * After a fetch: no cached checksum asks "untrusted", a different one
   * asks "changed", a matching one asks nothing, writes nothing and keeps
   * the remote node; a declined prompt is `TaskfileNotTrustedError` with no
   * write, an accepted one writes the cache and yields the written node.
   */
  lemma TrustDecision(w: World, s: Settings, cache: Cache, n: Node)
    requires n.Remote? && !s.offline && w.newCache(s.tempDir).None?
    requires w.fetch(n).Success? && w.checksum(w.fetch(n).value).Success?
    ensures var r := LoadNode(w, s, cache, n);
      var sum := w.checksum(w.fetch(n).value).value;
      && (ReadChecksum(cache, n) == "" ==> r.prompt == Some(Untrusted))
      && (ReadChecksum(cache, n) != "" && ReadChecksum(cache, n) != sum ==> r.prompt == Some(Changed))
      && (ReadChecksum(cache, n) != "" && ReadChecksum(cache, n) == sum ==> r == LoadOutcome(Success(n), true, None, None))
      && (r.prompt.Some? && !w.confirm(PromptMessage(r.prompt.value, n.location)) ==>
            r.result == Failure(TaskfileNotTrusted(n.location)) && r.write.None?)
      && (r.prompt.Some? && w.confirm(PromptMessage(r.prompt.value, n.location)) && w.cacheWrite(n, w.fetch(n).value).Success? ==>
            var node := w.cacheWrite(n, w.fetch(n).value).value;
            r.result == Success(node) && r.write == Some(CacheEntry(node, sum)))
  {
  }

  /** Trust on first use: once accepted content is cached, the same content loads again without a prompt. */
  lemma AcceptedContentIsTrustedNextTime(w: World, s: Settings, cache: Cache, n: Node)
    requires LoadNode(w, s, cache, n).write.Some?
    requires w.checksum(w.fetch(n).value).value != ""
    ensures LoadNode(w, s, StoreWrite(cache, n, LoadNode(w, s, cache, n)), n) == LoadOutcome(Success(n), true, None, None)
  {
  }

  /** A write for one remote leaves the loading of every other location as it was. */
  lemma WriteIsPerSource(w: World, s: Settings, cache: Cache, n: Node, m: Node)
    requires m.location != n.location
    ensures LoadNode(w, s, StoreWrite(cache, n, LoadNode(w, s, cache, n)), m) == LoadNode(w, s, cache, m)
  {
  }
}

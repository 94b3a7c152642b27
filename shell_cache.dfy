/** The offline worker's cache policy: install the app shell, purge stale buckets, serve same-origin requests. */
module ShellCache {

  /** A request URL or asset path, already resolved against the worker's location. */
  type Url = string

  /** The current generation tag and the app-shell manifest. */
  const SHELL_CACHE: string := "shell-v2"
  const SHELL_ASSETS: seq<Url> := ["/", "index.html", "app.js", "manifest.json", "icon-192.png", "icon-512.png"]

  /** Cache storage: bucket name to the URLs cached in that bucket. */
  type Storage = map<string, set<Url>>

  /** A request: its origin, its HTTP method (`verb`) and its URL. */
  datatype Request = Request(origin: string, verb: string, url: Url)

  /** The cache lookup matches only GET requests. */
  const MATCHED_METHOD: string := "GET"

  /** How the worker disposes of a request. */
  datatype Answer = FromCache(url: Url) | FromNetwork(url: Url) | NotIntercepted

  /** Every manifest entry can be fetched from the network, given the set of URLs the network serves. */
  predicate AssetsReachable(reachable: set<Url>) {
    forall a | a in SHELL_ASSETS :: a in reachable
  }

  /** Some bucket holds `url`. */
  ghost predicate IsCached(m: Storage, url: Url) {
    exists name | name in m :: url in m[name]
  }

  /** The current bucket's contents, empty when it does not exist. */
  function ShellBucket(m: Storage): set<Url> {
    if SHELL_CACHE in m then m[SHELL_CACHE] else {}
  }

  /**
   * Storage after install: the current bucket is opened (created if missing), then either every
   * manifest entry is added to it or, when some entry cannot be fetched, nothing is.
   */
  function AfterInstall(m: Storage, reachable: set<Url>): (r: Storage)
    ensures r.Keys == m.Keys + {SHELL_CACHE}
    ensures forall name | name in m && name != SHELL_CACHE :: r[name] == m[name]
    ensures ShellBucket(m) <= r[SHELL_CACHE]
    ensures AssetsReachable(reachable) ==> forall a | a in SHELL_ASSETS :: a in r[SHELL_CACHE]
    ensures !AssetsReachable(reachable) ==> r[SHELL_CACHE] == ShellBucket(m)
    ensures forall u | u in r[SHELL_CACHE] && u !in ShellBucket(m) :: u in SHELL_ASSETS
  {
    var added := if AssetsReachable(reachable) then set a | a in SHELL_ASSETS else {};
    m[SHELL_CACHE := ShellBucket(m) + added]
  }

  /** Storage after activate: only the bucket named by the current tag is kept, unchanged. */
  function Purged(m: Storage): (r: Storage)
    ensures r.Keys <= {SHELL_CACHE}
    ensures r.Keys == m.Keys * {SHELL_CACHE}
    ensures SHELL_CACHE in m ==> r[SHELL_CACHE] == m[SHELL_CACHE]
  {
    map name | name in m && name == SHELL_CACHE :: m[name]
  }

  /** Activating twice leaves the same storage as activating once. */
  lemma PurgedIdempotent(m: Storage)
    ensures Purged(Purged(m)) == Purged(m)
  {
  }

  /** Into a storage without the current bucket, a successful install puts exactly the manifest. */
  lemma InstallFreshIsManifest(m: Storage, reachable: set<Url>)
    requires SHELL_CACHE !in m && AssetsReachable(reachable)
    ensures AfterInstall(m, reachable)[SHELL_CACHE] == set a | a in SHELL_ASSETS
  {
  }

  /** After a successful install and an activate, every manifest entry is cached. */
  lemma InstalledAssetsStayCached(m: Storage, reachable: set<Url>, a: Url)
    requires AssetsReachable(reachable) && a in SHELL_ASSETS
    ensures IsCached(AfterInstall(m, reachable), a)
    ensures IsCached(Purged(AfterInstall(m, reachable)), a)
  {
  }

  /** A failed install neither adds nor removes a cached URL. */
  lemma FailedInstallCachesNothingNew(m: Storage, reachable: set<Url>, u: Url)
    requires !AssetsReachable(reachable)
    ensures IsCached(AfterInstall(m, reachable), u) <==> IsCached(m, u)
  {
  }

  /** The browser's cache storage, as the worker's three event handlers see it. */
  class CacheStorage {
    var buckets: Storage

    constructor (initial: Storage)
      ensures buckets == initial
    {
      buckets := initial;
    }

    /** The install event. `reachable` is the set of URLs the network serves successfully. */
    method Install(reachable: set<Url>) returns (ok: bool)
      modifies this
      ensures ok == AssetsReachable(reachable)
      ensures buckets == AfterInstall(old(buckets), reachable)
    {
      if SHELL_CACHE !in buckets {
        buckets := buckets[SHELL_CACHE := {}];
      }
      ok := forall a | a in SHELL_ASSETS :: a in reachable;
      if ok {
        buckets := buckets[SHELL_CACHE := buckets[SHELL_CACHE] + set a | a in SHELL_ASSETS];
      }
    }

    /** The activate event: delete, one by one, every bucket whose name is not the current tag. */
    method Activate()
      modifies this
      ensures buckets == Purged(old(buckets))
    {
      var stale := set name | name in buckets && name != SHELL_CACHE;
      while stale != {}
        invariant stale <= buckets.Keys <= old(buckets).Keys
        invariant buckets.Keys - stale == old(buckets).Keys * {SHELL_CACHE}
        invariant forall name | name in buckets :: buckets[name] == old(buckets)[name]
        decreases stale
      {
        var name :| name in stale;
        buckets := buckets - {name};
        stale := stale - {name};
      }
      assert buckets.Keys == Purged(old(buckets)).Keys;
    }

    /**
     * The fetch event. A request from another origin is not intercepted. A same-origin request is
     * answered from the cache when it is a GET and some bucket holds its URL; otherwise it goes to
     * the network.
     */
    method Fetch(workerOrigin: string, req: Request) returns (answer: Answer)
      ensures req.origin != workerOrigin ==> answer == NotIntercepted
      ensures req.origin == workerOrigin && req.verb == MATCHED_METHOD && IsCached(buckets, req.url) ==>
        answer == FromCache(req.url)
      ensures req.origin == workerOrigin && (req.verb != MATCHED_METHOD || !IsCached(buckets, req.url)) ==>
        answer == FromNetwork(req.url)
    {
      if req.origin != workerOrigin {
        return NotIntercepted;
      }
      var hit := req.verb == MATCHED_METHOD && exists name | name in buckets :: req.url in buckets[name];
      answer := if hit then FromCache(req.url) else FromNetwork(req.url);
    }
  }
}

/** The resource loader of src/resource/loader/Loader.ts. Its queue (an
    `AsyncQueue`, not part of this model) is modelled by its pending list
    `tasks`, its set of `running` workers and its `paused` flag; `idle()`
    holds when both are empty. Progress is an exact `real`. Work that the
    source hands to callbacks (the worker picking a task, a resource's
    load finishing, the post-middleware chain finishing) is a step
    method of its own. */
module ResourceLoader {
  import opened Wrappers
  import opened Messaging
  import opened ResourceCache
  import Caching
  import FrameClock

  const MaxProgress: real := 100.0

  /** A before-middleware: the caching middleware (closed over the
      loader's resource manager) or another one, which may complete the
      resource. */
  datatype Middleware = CacheLookup | Custom(fn: nat)

  /** A registered plugin's optional `pre` and `use` middleware. */
  datatype Plugin = Plugin(pre: Option<Middleware>, use: Option<nat>)

  const RunningError: string := "Cannot add resources while the loader is running."

  function DuplicateError(name: string): string
  {
    "Resource named \"" + name + "\" already exists."
  }

  // ---------------------------------------------------------------------
  // URLs

  /** `parsedUrl.protocol || !parsedUrl.path || url.indexOf('//') === 0`;
      the parse itself is abstracted as `parsedAbsolute`. */
  predicate IsAbsolute(url: string, parsedAbsolute: bool)
  {
    parsedAbsolute || (|url| >= 2 && url[..2] == "//")
  }

  /** A base that is non-empty and does not end in '/', joined to a url
      that does not start with '/'. */
  predicate NeedsSlash(base: string, url: string)
  {
    |base| > 0 && base[|base| - 1] != '/' && (url == [] || url[0] != '/')
  }

  /** `_prepareUrl` (the default query string is always empty). */
  function PrepareUrl(base: string, url: string, parsedAbsolute: bool): (r: string)
    ensures IsAbsolute(url, parsedAbsolute) ==> r == url
    ensures !IsAbsolute(url, parsedAbsolute) ==>
      |r| == |base| + |url| + (if NeedsSlash(base, url) then 1 else 0)
      && r[..|base|] == base && r[|r| - |url|..] == url
      && (NeedsSlash(base, url) ==> r[|base|] == '/')
  {
    if IsAbsolute(url, parsedAbsolute) then url
    else if NeedsSlash(base, url) then base + "/" + url
    else base + url
  }

  /** When either side already brings a slash none is added, so `a/` and
      `/b` give `a//b`; otherwise one is put between them. Either way the
      two parts meet at a slash. */
  lemma {:induction false} JoinAddsNoSlashWhenPresent(base: string, url: string, parsedAbsolute: bool)
    requires !IsAbsolute(url, parsedAbsolute) && |base| > 0 && |url| > 0
    ensures var r := PrepareUrl(base, url, parsedAbsolute);
      (base[|base| - 1] == '/' || url[0] == '/') ==> r == base + url
    ensures var r := PrepareUrl(base, url, parsedAbsolute);
      r[|base| - 1] == '/' || r[|base|] == '/'
  {
  }

  /** With an empty base a relative url is used as is. */
  lemma {:induction false} EmptyBaseKeepsUrl(url: string, parsedAbsolute: bool)
    ensures PrepareUrl("", url, parsedAbsolute) == url
  {
  }

  // ---------------------------------------------------------------------
  // Progress chunks

  /** The chunk every member of a rebalanced family gets: the parent's
      chunk spread over itself, its `k` incomplete children and the new
      child, keeping the old total `chunk * (k + 1)`. */
  function Share(chunk: real, k: nat): real
  {
    var fullChunk := chunk * (k + 1) as real;
    fullChunk / (k + 2) as real
  }

  lemma {:induction false} DivMul(a: real, b: real)
    requires b != 0.0
    ensures a / b * b == a
  {
  }

  lemma {:induction false} AddOne(m: real, v: real)
    ensures m * v + v == (m + 1.0) * v
  {
  }

  /** Rebalancing keeps the family's total. */
  lemma {:induction false} ShareSum(chunk: real, k: nat)
    ensures (k + 2) as real * Share(chunk, k) == chunk * (k + 1) as real
  {
    DivMul(chunk * (k + 1) as real, (k + 2) as real);
  }

  /** The family's chunks after rebalancing sum to the old total. */
  lemma {:induction false} FamilyTotal(xs: seq<real>, chunk: real, k: nat)
    requires |xs| == k + 2 && forall i :: 0 <= i < |xs| ==> xs[i] == Share(chunk, k)
    ensures Sum(xs) == chunk * (k + 1) as real
  {
    ConstSum(xs, Share(chunk, k));
    ShareSum(chunk, k);
  }

  lemma {:induction false} ShareNonNegative(chunk: real, k: nat)
    requires chunk >= 0.0
    ensures Share(chunk, k) >= 0.0
  {
    var a := chunk * (k + 1) as real;
    assert a >= 0.0;
  }

  function Sum(xs: seq<real>): real
  {
    if xs == [] then 0.0 else Sum(xs[..|xs| - 1]) + xs[|xs| - 1]
  }

  /** A list of equal chunks sums to their number times the chunk. */
  lemma {:induction false} ConstSum(xs: seq<real>, v: real)
    requires forall i :: 0 <= i < |xs| ==> xs[i] == v
    ensures Sum(xs) == |xs| as real * v
  {
    if xs != [] {
      ConstSum(xs[..|xs| - 1], v);
      AddOne((|xs| - 1) as real, v);
    }
  }

  /** `start` splits the full progress evenly: n chunks of 100/n sum to 100. */
  lemma {:induction false} EvenSplit(xs: seq<real>)
    requires |xs| > 0 && forall i :: 0 <= i < |xs| ==> xs[i] == MaxProgress / |xs| as real
    ensures Sum(xs) == MaxProgress
  {
    ConstSum(xs, MaxProgress / |xs| as real);
    DivMul(MaxProgress, |xs| as real);
  }

  function Chunks(s: seq<LoaderResource>): (r: seq<real>)
    reads s
    ensures |r| == |s| && forall i :: 0 <= i < |s| ==> r[i] == s[i].chunk
  {
    if s == [] then [] else Chunks(s[..|s| - 1]) + [s[|s| - 1].chunk]
  }

  lemma {:induction false} EvenShareNonNegative(n: nat)
    requires n > 0
    ensures 0.0 <= MaxProgress / n as real
  {
  }

  /** The loops of `start` and of `add` giving each listed resource the
      same chunk. */
  method SetChunks(ts: seq<LoaderResource>, chunk: real)
    modifies (set t | t in ts)`chunk
    ensures forall t :: t in ts ==> t.chunk == chunk
  {
    for i := 0 to |ts|
      invariant forall j :: 0 <= j < i ==> ts[j].chunk == chunk
    {
      ts[i].chunk := chunk;
    }
  }

  /** The loop of `add` collecting a parent's incomplete children. */
  method CollectIncomplete(cs: seq<LoaderResource>) returns (incomplete: seq<LoaderResource>)
    ensures incomplete == Incomplete(cs)
  {
    incomplete := [];
    for i := 0 to |cs|
      invariant incomplete == Incomplete(cs[..i])
    {
      assert cs[..i + 1] == cs[..i] + [cs[i]];
      if !cs[i].complete {
        incomplete := incomplete + [cs[i]];
      }
    }
    assert cs[..|cs|] == cs;
  }

  /** The children of a parent that are not complete, in order. */
  function Incomplete(cs: seq<LoaderResource>): (r: seq<LoaderResource>)
    reads cs
    ensures |r| <= |cs|
    ensures forall c :: c in r ==> c in cs && !c.complete
    ensures forall c :: c in cs && !c.complete ==> c in r
  {
    if cs == [] then [] else
      Incomplete(cs[..|cs| - 1]) + (if cs[|cs| - 1].complete then [] else [cs[|cs| - 1]])
  }

  // ---------------------------------------------------------------------
  // The before-middleware chain

  /** What the chain has done to a resource so far: its store handlers,
      completion, data, whether a completion stored it in the cache, and
      whether the chain has stopped. */
  datatype Chain = Chain(handlers: nat, complete: bool, data: Option<Payload>, stored: bool, stopped: bool)

  datatype ChainRun = ChainRun(end: Chain, events: seq<Event>)

  /** Middleware `i` leaves the resource complete: a caching lookup that
      hits, or a custom middleware that completes it. */
  predicate Completes(m: Middleware, i: nat, marks: set<nat>, hit: bool)
  {
    (m.CacheLookup? && hit) || (m.Custom? && i in marks)
  }

  /** Middleware `i` on the chain state; `hit` is whether the url is cached
      and `hitData` the cached entry's data. A completion fires the store
      handlers registered so far. */
  function PreStep(m: Middleware, i: nat, marks: set<nat>, hit: bool, hitData: Option<Payload>,
                   id: ResourceId, url: string, st: Chain): (r: ChainRun)
    ensures |r.events| > 0 && r.events[0] == PreMiddleware(i, id)
    ensures r.end.stopped == r.end.complete
    ensures Completes(m, i, marks, hit) ==> r.end.complete && r.end.handlers == 0
  {
    var call := [PreMiddleware(i, id)];
    if Completes(m, i, marks, hit) then
      ChainRun(Chain(0, true, if m.CacheLookup? then hitData else st.data, st.stored || st.handlers > 0, true),
               call + Repeat(ResourceAdded(url, id), st.handlers))
    else if m.CacheLookup? then
      ChainRun(st.(handlers := st.handlers + 1, stopped := st.complete), call)
    else
      ChainRun(st.(stopped := st.complete), call)
  }

  /** `eachSeries` over the before-middleware from index `i`: it goes on
      while the resource is not complete. */
  function ChainFrom(pre: seq<Middleware>, marks: set<nat>, hit: bool, hitData: Option<Payload>,
                     id: ResourceId, url: string, i: nat, st: Chain): (r: ChainRun)
    ensures (i >= |pre| || st.stopped) ==> r == ChainRun(st, [])
    decreases |pre| - i
  {
    if i >= |pre| || st.stopped then ChainRun(st, [])
    else
      var step := PreStep(pre[i], i, marks, hit, hitData, id, url, st);
      var rest := ChainFrom(pre, marks, hit, hitData, id, url, i + 1, step.end);
      ChainRun(rest.end, step.events + rest.events)
  }

  /** A run that first publishes `said`. */
  function Continue(said: seq<Event>, rest: ChainRun): (r: ChainRun)
    ensures r.end == rest.end && |r.events| == |said| + |rest.events|
  {
    ChainRun(rest.end, said + rest.events)
  }

  lemma {:induction false} ContinueAssoc(a: seq<Event>, b: seq<Event>, rest: ChainRun)
    ensures Continue(a, Continue(b, rest)) == Continue(a + b, rest)
  {
    assert a + (b + rest.events) == (a + b) + rest.events;
  }

  /** The index of the first middleware from `i` that completes the
      resource, or `|pre|` when none does. */
  function FirstCompleting(pre: seq<Middleware>, marks: set<nat>, hit: bool, i: nat): (k: nat)
    ensures i <= |pre| ==> i <= k <= |pre|
    ensures k < |pre| ==> Completes(pre[k], k, marks, hit)
    ensures forall j :: i <= j < k && j < |pre| ==> !Completes(pre[j], j, marks, hit)
    decreases |pre| - i
  {
    if i >= |pre| then |pre|
    else if Completes(pre[i], i, marks, hit) then i
    else FirstCompleting(pre, marks, hit, i + 1)
  }

  /** The indices of the before-middleware calls in an event list. */
  function PreIndices(evs: seq<Event>): seq<nat>
  {
    if evs == [] then []
    else (if evs[0].PreMiddleware? then [evs[0].preIndex] else []) + PreIndices(evs[1..])
  }

  lemma {:induction false} PreIndicesAppend(a: seq<Event>, b: seq<Event>)
    ensures PreIndices(a + b) == PreIndices(a) + PreIndices(b)
    decreases |a|
  {
    if a == [] {
      assert a + b == b;
    } else {
      assert (a + b)[0] == a[0] && (a + b)[1..] == a[1..] + b;
      PreIndicesAppend(a[1..], b);
      var head := if a[0].PreMiddleware? then [a[0].preIndex] else [];
      assert PreIndices(a + b) == head + PreIndices(a[1..] + b);
      assert PreIndices(a) == head + PreIndices(a[1..]);
    }
  }

  lemma {:induction false} PreIndicesRepeat(e: Event, n: nat)
    requires !e.PreMiddleware?
    ensures PreIndices(Repeat(e, n)) == []
  {
    if n > 0 {
      PreIndicesRepeat(e, n - 1);
      PreIndicesAppend(Repeat(e, n - 1), [e]);
    }
  }

  /** `[a, b)`. */
  function Range(a: nat, b: nat): (r: seq<nat>)
    ensures |r| == if a <= b then b - a else 0
    ensures forall j :: 0 <= j < |r| ==> r[j] == a + j
    decreases b - a
  {
    if a >= b then [] else [a] + Range(a + 1, b)
  }

  /** A completing middleware ends the chain with its own call. */
  lemma {:induction false} StepStops(pre: seq<Middleware>, marks: set<nat>, hit: bool, hitData: Option<Payload>,
                  id: ResourceId, url: string, i: nat, st: Chain)
    requires i < |pre| && !st.stopped && Completes(pre[i], i, marks, hit)
    ensures ChainFrom(pre, marks, hit, hitData, id, url, i, st)
      == PreStep(pre[i], i, marks, hit, hitData, id, url, st)
    ensures PreIndices(PreStep(pre[i], i, marks, hit, hitData, id, url, st).events) == [i]
  {
    var step := PreStep(pre[i], i, marks, hit, hitData, id, url, st);
    assert step.events == [PreMiddleware(i, id)] + Repeat(ResourceAdded(url, id), st.handlers);
    PreIndicesAppend([PreMiddleware(i, id)], Repeat(ResourceAdded(url, id), st.handlers));
    PreIndicesRepeat(ResourceAdded(url, id), st.handlers);
    assert PreIndices([PreMiddleware(i, id)]) == [i];
    assert ChainFrom(pre, marks, hit, hitData, id, url, i + 1, step.end) == ChainRun(step.end, []);
  }

  /** A middleware that does not complete an incomplete resource lets the
      chain go on, with only its call logged. */
  lemma {:induction false} StepContinues(pre: seq<Middleware>, marks: set<nat>, hit: bool, hitData: Option<Payload>,
                      id: ResourceId, url: string, i: nat, st: Chain)
    requires i < |pre| && !st.stopped && !st.complete && !Completes(pre[i], i, marks, hit)
    ensures var step := PreStep(pre[i], i, marks, hit, hitData, id, url, st);
      !step.end.complete && !step.end.stopped && step.end.data == st.data
      && PreIndices(step.events) == [i]
      && ChainFrom(pre, marks, hit, hitData, id, url, i, st)
        == ChainRun(ChainFrom(pre, marks, hit, hitData, id, url, i + 1, step.end).end,
                    step.events + ChainFrom(pre, marks, hit, hitData, id, url, i + 1, step.end).events)
  {
    assert PreStep(pre[i], i, marks, hit, hitData, id, url, st).events == [PreMiddleware(i, id)];
    assert PreIndices([PreMiddleware(i, id)]) == [i];
  }

  /** For a resource that is not complete, the chain calls the middleware
      in registration order up to and including the first that completes
      it, and no further; the resource ends complete exactly when some
      middleware completed it, with the cached data when that one was the
      caching lookup. */
  lemma {:induction false} ChainStopsAtFirstCompletion(pre: seq<Middleware>, marks: set<nat>, hit: bool,
                                                     hitData: Option<Payload>, id: ResourceId, url: string,
                                                     i: nat, st: Chain, k: nat)
    requires i <= |pre| && !st.complete && !st.stopped && k == FirstCompleting(pre, marks, hit, i)
    ensures PreIndices(ChainFrom(pre, marks, hit, hitData, id, url, i, st).events)
      == Range(i, if k < |pre| then k + 1 else |pre|)
    ensures ChainFrom(pre, marks, hit, hitData, id, url, i, st).end.complete <==> k < |pre|
    ensures k < |pre| && pre[k].CacheLookup? ==> ChainFrom(pre, marks, hit, hitData, id, url, i, st).end.data == hitData
    ensures k < |pre| && pre[k].Custom? ==> ChainFrom(pre, marks, hit, hitData, id, url, i, st).end.data == st.data
    decreases |pre| - i
  {
    if i < |pre| {
      if Completes(pre[i], i, marks, hit) {
        StepStops(pre, marks, hit, hitData, id, url, i, st);
        assert Range(i, i + 1) == [i];
      } else {
        var step := PreStep(pre[i], i, marks, hit, hitData, id, url, st);
        StepContinues(pre, marks, hit, hitData, id, url, i, st);
        ChainStopsAtFirstCompletion(pre, marks, hit, hitData, id, url, i + 1, step.end, k);
        var rest := ChainFrom(pre, marks, hit, hitData, id, url, i + 1, step.end);
        PreIndicesAppend(step.events, rest.events);
        assert [i] + Range(i + 1, if k < |pre| then k + 1 else |pre|) == Range(i, if k < |pre| then k + 1 else |pre|);
      }
    }
  }

  // ---------------------------------------------------------------------
  // Signals and events

  function StartEvents(): seq<Event>
  {
    [Signal(StartSignal, None), LoaderEvent(LoaderStarted, None)]
  }

  function CompleteEvents(): seq<Event>
  {
    [Signal(CompleteSignal, None), LoaderEvent(LoaderComplete, None)]
  }

  /** The after-middleware calls for one resource, in registration order. */
  function PostCalls(id: ResourceId, n: nat): (r: seq<Event>)
    ensures |r| == n && forall i :: 0 <= i < n ==> r[i] == PostMiddleware(i, id)
  {
    if n == 0 then [] else PostCalls(id, n - 1) + [PostMiddleware(n - 1, id)]
  }

  /** The end of the after-middleware chain: the `add` callback (when one
      was given), progress, then the error or the loaded signal. */
  function FinishEvents(id: ResourceId, error: bool, callback: bool): seq<Event>
  {
    (if callback then [AfterMiddleware(id)] else [])
    + [Signal(ProgressSignal, Some(id)), LoaderEvent(LoaderProgress, Some(id))]
    + (if error then [Signal(ErrorSignal, Some(id)), LoaderEvent(LoaderFailed, Some(id))]
       else [Signal(LoadSignal, Some(id)), LoaderEvent(LoaderLoaded, Some(id))])
  }

  /** Exactly one of Failed and Loaded is published for a finished
      resource, chosen by its error, and always after Progress. */
  lemma {:induction false} FinishOutcome(id: ResourceId, error: bool, callback: bool)
    ensures var evs := FinishEvents(id, error, callback);
      (LoaderEvent(LoaderFailed, Some(id)) in evs <==> error)
      && (LoaderEvent(LoaderLoaded, Some(id)) in evs <==> !error)
      && evs[|evs| - 1] == LoaderEvent(if error then LoaderFailed else LoaderLoaded, Some(id))
      && evs[|evs| - 3] == LoaderEvent(LoaderProgress, Some(id))
      && (AfterMiddleware(id) in evs <==> callback)
  {
    var tail := if error then [Signal(ErrorSignal, Some(id)), LoaderEvent(LoaderFailed, Some(id))]
      else [Signal(LoadSignal, Some(id)), LoaderEvent(LoaderLoaded, Some(id))];
    var head := (if callback then [AfterMiddleware(id)] else [])
      + [Signal(ProgressSignal, Some(id)), LoaderEvent(LoaderProgress, Some(id))];
    assert FinishEvents(id, error, callback) == head + tail;
  }

  /** The index of the first occurrence of `x`. */
  function IndexIn(s: seq<LoaderResource>, x: LoaderResource): (i: nat)
    requires x in s
    ensures i < |s| && s[i] == x && x !in s[..i]
  {
    if s[0] == x then 0 else 1 + IndexIn(s[1..], x)
  }

  /** `splice(indexOf(x), 1)` for an `x` that is present. */
  function RemoveFirst(s: seq<LoaderResource>, x: LoaderResource): (r: seq<LoaderResource>)
    requires x in s
    ensures |r| == |s| - 1 && multiset(r) == multiset(s) - multiset{x}
  {
    var i := IndexIn(s, x);
    assert s == s[..i] + [x] + s[i + 1..];
    s[..i] + s[i + 1..]
  }

  /** `RemoveFirst` keeps the other entries in their order. */
  lemma {:induction false} RemoveFirstKeepsOrder(s: seq<LoaderResource>, x: LoaderResource)
    requires x in s
    ensures var i := IndexIn(s, x);
      RemoveFirst(s, x)[..i] == s[..i] && RemoveFirst(s, x)[i..] == s[i + 1..]
  {
  }

  function PluginPre(ps: seq<Plugin>): seq<Middleware>
  {
    if ps == [] then []
    else PluginPre(ps[..|ps| - 1]) + (if ps[|ps| - 1].pre.Some? then [ps[|ps| - 1].pre.value] else [])
  }

  function PluginUse(ps: seq<Plugin>): seq<nat>
  {
    if ps == [] then []
    else PluginUse(ps[..|ps| - 1]) + (if ps[|ps| - 1].use.Some? then [ps[|ps| - 1].use.value] else [])
  }

  function ParentOf(parent: Option<LoaderResource>): set<LoaderResource>
  {
    if parent.Some? then {parent.value} else {}
  }

  /** A parent and its children: what rebalancing may touch. */
  function Family(parent: Option<LoaderResource>): set<LoaderResource>
    reads ParentOf(parent)
  {
    if parent.Some? then {parent.value} + (set c | c in parent.value.children) else {}
  }

  class Loader {
    const bus: MessageBus
    /** The resource manager the caching middleware closes over. */
    const cache: ResourceManager
    var baseUrl: string
    var progress: real
    var loading: bool
    var pre: seq<Middleware>
    var post: seq<nat>
    var parsing: seq<LoaderResource>
    var tasks: seq<LoaderResource>
    var running: set<LoaderResource>
    var paused: bool
    var resources: map<string, LoaderResource>
    /** The handle the next resource gets in events. */
    var nextId: ResourceId
    /** Every resource this loader has created. */
    ghost var Repr: set<LoaderResource>

    ghost predicate Valid()
      reads this`progress, this`resources, this`tasks, this`running, this`parsing, this`Repr, Repr`chunk
    {
      0.0 <= progress <= MaxProgress
      && cache.bus == bus
      && (forall x :: x in Repr ==> 0.0 <= x.chunk)
      && resources.Values <= Repr
      && (forall i :: 0 <= i < |tasks| ==> tasks[i] in Repr)
      && running <= Repr
      && (forall i :: 0 <= i < |parsing| ==> parsing[i] in Repr)
    }

    /** `_queue.idle()`. */
    predicate Idle()
      reads this`tasks, this`running
    {
      tasks == [] && running == {}
    }

    /** The before-middleware chain `_loadResource` would run on `r` now. */
    ghost function PreChain(r: LoaderResource, marks: set<nat>): ChainRun
      reads this`pre, r`storeHandlers, r`complete, r`data, cache`cache, cache.cache.Values`data
    {
      var hit := r.url in cache.cache;
      ChainFrom(pre, marks, hit, if hit then cache.cache[r.url].data else None, r.id, r.url, 0,
                Chain(r.storeHandlers, r.complete, r.data, false, false))
    }

    /** The plugins' middleware are installed in registration order; the
        queue starts paused. */
    constructor(bus: MessageBus, cache: ResourceManager, baseUrl: Option<string>, plugins: seq<Plugin>)
      requires cache.bus == bus
      ensures Valid() && this.bus == bus && this.cache == cache
      ensures this.baseUrl == (if baseUrl.Some? then baseUrl.value else "")
      ensures pre == PluginPre(plugins) && post == PluginUse(plugins)
      ensures progress == 0.0 && !loading && paused && tasks == [] && running == {} && parsing == []
      ensures resources == map[] && Repr == {}
    {
      this.bus := bus;
      this.cache := cache;
      this.baseUrl := if baseUrl.Some? then baseUrl.value else "";
      progress := 0.0;
      loading := false;
      pre := [];
      post := [];
      parsing := [];
      tasks := [];
      running := {};
      paused := true;
      resources := map[];
      nextId := 0;
      Repr := {};
      new;
      for i := 0 to |plugins|
        invariant pre == PluginPre(plugins[..i]) && post == PluginUse(plugins[..i])
        invariant progress == 0.0 && !loading && paused && tasks == [] && running == {} && parsing == []
        invariant resources == map[] && Repr == {} && this.baseUrl == (if baseUrl.Some? then baseUrl.value else "")
      {
        assert plugins[..i + 1][..i] == plugins[..i];
        if plugins[i].pre.Some? {
          Pre(plugins[i].pre.value);
        }
        if plugins[i].use.Some? {
          Use(plugins[i].use.value);
        }
      }
      assert plugins[..|plugins|] == plugins;
    }

    /** `pre(fn)`. */
    method Pre(m: Middleware)
      modifies this`pre
      ensures pre == old(pre) + [m]
    {
      pre := pre + [m];
    }

    /** `use(fn)`. */
    method Use(fn: nat)
      modifies this`post
      ensures post == old(post) + [fn]
    {
      post := post + [fn];
    }

    /** `add(name, url, { parentResource }, callback)`. While loading, only a
        resource with a parent may be added; a taken name is refused. */
    method Add(name: string, url: string, parsedAbsolute: bool, parent: Option<LoaderResource>, callback: bool)
        returns (res: Result<LoaderResource>)
      requires Valid()
      requires parent.Some? ==> parent.value in Repr
      modifies this, ParentOf(parent)`children, Family(parent)`chunk
      ensures Valid()
      ensures old(loading) && parent.None? ==> res == Err(RunningError)
      ensures !(old(loading) && parent.None?) && name in old(resources) ==> res == Err(DuplicateError(name))
      ensures res.Err? ==> (old(loading) && parent.None?) || name in old(resources)
      ensures res.Err? ==> unchanged(this) && unchanged(old(Family(parent)))
      ensures res.Ok? ==> Created(res.value, name, url, parsedAbsolute, callback)
      ensures res.Ok? && !(old(loading) && parent.Some?) ==> res.value.chunk == 0.0 && unchanged(old(Family(parent)))
      ensures res.Ok? && old(loading) && parent.Some? ==>
        (parent.value.children == old(parent.value.children) + [res.value]
         && res.value.chunk == Share(old(parent.value.chunk), |old(Incomplete(parent.value.children))|))
      ensures res.Ok? && old(loading) && parent.Some? ==>
        parent.value.chunk == Share(old(parent.value.chunk), |old(Incomplete(parent.value.children))|) && res.value.chunk == parent.value.chunk
      ensures res.Ok? && old(loading) && parent.Some? ==>
        forall c :: c in old(Incomplete(parent.value.children)) ==> c.chunk == parent.value.chunk
      ensures res.Ok? && old(loading) && parent.Some? ==>
        forall c :: c in old(parent.value.children) && c !in old(Incomplete(parent.value.children)) && c != parent.value ==> c.chunk == old(c.chunk)
    {
      if loading && parent.None? {
        return Err(RunningError);
      }
      if name in resources {
        return Err(DuplicateError(name));
      }
      var r := Insert(name, url, parsedAbsolute, parent, callback);
      return Ok(r);
    }

    /** The new state after `add` created `r`: stored under its name, with
        its url prepared against the base, appended to the queue; nothing
        else of the loader changes. */
    twostate predicate Created(new r: LoaderResource, name: string, url: string, parsedAbsolute: bool, callback: bool)
      reads this, r
    {
      fresh(r) && Repr == old(Repr) + {r}
      && r.name == name && r.url == PrepareUrl(old(baseUrl), url, parsedAbsolute)
      && r.id == old(nextId) && nextId == old(nextId) + 1
      && r.afterCallback == callback && r.children == [] && !r.complete
      && resources == old(resources)[name := r] && tasks == old(tasks) + [r]
      && progress == old(progress) && loading == old(loading) && parsing == old(parsing)
      && running == old(running) && paused == old(paused) && baseUrl == old(baseUrl)
      && pre == old(pre) && post == old(post)
    }

    /** The accepted `add`: create, store, rebalance while loading, queue. */
    method Insert(name: string, url: string, parsedAbsolute: bool, parent: Option<LoaderResource>, callback: bool)
        returns (r: LoaderResource)
      requires Valid()
      requires parent.Some? ==> parent.value in Repr
      modifies this, ParentOf(parent)`children, Family(parent)`chunk
      ensures Valid()
      ensures Created(r, name, url, parsedAbsolute, callback)
      ensures !(old(loading) && parent.Some?) ==> r.chunk == 0.0 && unchanged(old(Family(parent)))
      ensures old(loading) && parent.Some? ==>
        (parent.value.children == old(parent.value.children) + [r]
         && r.chunk == Share(old(parent.value.chunk), |old(Incomplete(parent.value.children))|))
      ensures old(loading) && parent.Some? ==>
        parent.value.chunk == Share(old(parent.value.chunk), |old(Incomplete(parent.value.children))|) && r.chunk == parent.value.chunk
      ensures old(loading) && parent.Some? ==>
        forall c :: c in old(Incomplete(parent.value.children)) ==> c.chunk == parent.value.chunk
      ensures old(loading) && parent.Some? ==>
        forall c :: c in old(parent.value.children) && c !in old(Incomplete(parent.value.children)) && c != parent.value ==> c.chunk == old(c.chunk)
    {
      var full := PrepareUrl(baseUrl, url, parsedAbsolute);
      r := new LoaderResource(nextId, name, full, callback);
      if loading && parent.Some? {
        Rebalance(parent.value, r);
      }
      Store(name, r);
    }

    /** Stores a new resource under its name and queues it. */
    method Store(name: string, r: LoaderResource)
      requires Valid() && r.chunk >= 0.0 && r.id == nextId
      modifies this`resources, this`tasks, this`nextId, this`Repr
      ensures Valid()
      ensures resources == old(resources)[name := r] && tasks == old(tasks) + [r]
      ensures nextId == old(nextId) + 1 && Repr == old(Repr) + {r}
    {
      nextId := nextId + 1;
      resources := resources[name := r];
      Repr := Repr + {r};
      tasks := tasks + [r];
    }

    /** `_onStart`. */
    method OnStart()
      requires Valid()
      modifies this`progress, this`loading, bus
      ensures Valid() && progress == 0.0 && loading
      ensures bus.log == old(bus.log) + StartEvents()
    {
      progress := 0.0;
      loading := true;
      bus.Publish(Signal(StartSignal, None));
      bus.Publish(LoaderEvent(LoaderStarted, None));
    }

    /** `_onComplete`. */
    method OnComplete()
      requires Valid()
      modifies this`progress, this`loading, bus
      ensures Valid() && progress == MaxProgress && !loading
      ensures bus.log == old(bus.log) + CompleteEvents()
    {
      progress := MaxProgress;
      loading := false;
      bus.Publish(Signal(CompleteSignal, None));
      bus.Publish(LoaderEvent(LoaderComplete, None));
    }

    /** `start()`: nothing while loading; on an idle queue, start then
        complete; otherwise every pending task gets an even share of the
        full progress, start fires and the queue resumes. */
    method Start()
      requires Valid()
      modifies this`progress, this`loading, this`paused, (set t | t in tasks)`chunk, bus
      ensures Valid()
      ensures old(loading) ==>
        (progress == old(progress) && loading && paused == old(paused)
         && bus.log == old(bus.log) && forall t :: t in tasks ==> t.chunk == old(t.chunk))
      ensures !old(loading) && old(Idle()) ==>
        (progress == MaxProgress && !loading && paused == old(paused)
         && bus.log == old(bus.log) + StartEvents() + CompleteEvents())
      ensures !old(loading) && !old(Idle()) ==>
        (progress == 0.0 && loading && !paused && bus.log == old(bus.log) + StartEvents()
         && forall t :: t in tasks ==> t.chunk == MaxProgress / |tasks| as real)
    {
      if loading {
        return;
      }
      if Idle() {
        OnStart();
        OnComplete();
      } else {
        Launch();
      }
    }

    /** The non-idle branch of `start`: chunks, start, resume. */
    method Launch()
      requires Valid() && !loading
      modifies this`progress, this`loading, this`paused, (set t | t in tasks)`chunk, bus
      ensures Valid() && progress == 0.0 && loading && !paused
      ensures bus.log == old(bus.log) + StartEvents()
      ensures forall t :: t in tasks ==> t.chunk == MaxProgress / |tasks| as real
    {
      if |tasks| > 0 {
        Distribute();
      }
      OnStart();
      paused := false;
    }

    /** The progress chunks of `start`: each pending task gets 100/n, so
        that together they make up the full progress. */
    method Distribute()
      requires Valid() && |tasks| > 0
      modifies (set t | t in tasks)`chunk
      ensures Valid()
      ensures forall t :: t in tasks ==> t.chunk == MaxProgress / |tasks| as real
      ensures Sum(Chunks(tasks)) == MaxProgress
    {
      var chunk := MaxProgress / |tasks| as real;
      EvenShareNonNegative(|tasks|);
      SetChunks(tasks, chunk);
      EvenSplit(Chunks(tasks));
    }

    /** `reset()`: progress 0, not loading, the pending queue emptied and
        paused; every resource's load binding is detached and every loading
        one aborted; the table is emptied. Resources being parsed and
        running workers are left as they are. */
    method Reset()
      requires Valid()
      modifies this`progress, this`loading, this`tasks, this`paused, this`resources
      modifies (set x | x in resources.Values)`loadBound, (set x | x in resources.Values)`aborted
      ensures Valid()
      ensures progress == 0.0 && !loading && tasks == [] && paused && resources == map[]
      ensures forall x :: x in old(resources.Values) ==> !x.loadBound && x.aborted == (old(x.aborted) || x.loading)
    {
      progress := 0.0;
      loading := false;
      tasks := [];
      paused := true;
      AbortAll();
      resources := map[];
    }

    /** The loop of `reset` over the table: each resource's load binding is
        detached, and a resource still loading is aborted. */
    method AbortAll()
      modifies (set x | x in resources.Values)`loadBound, (set x | x in resources.Values)`aborted
      ensures forall x :: x in old(resources.Values) ==> !x.loadBound && x.aborted == (old(x.aborted) || x.loading)
    {
      var left := resources.Keys;
      ghost var done: set<LoaderResource> := {};
      while left != {}
        invariant left <= resources.Keys
        invariant forall k :: k in resources && k !in left ==> resources[k] in done
        invariant done <= resources.Values
        invariant forall x :: x in done ==> !x.loadBound && x.aborted == (old(x.aborted) || x.loading)
        invariant forall x :: x in resources.Values && x !in done ==>
          x.loadBound == old(x.loadBound) && x.aborted == old(x.aborted)
        decreases left
      {
        var k :| k in left;
        var res := resources[k];
        if res.loadBound {
          res.loadBound := false;
        }
        if res.loading {
          res.aborted := true;
        }
        done := done + {res};
        left := left - {k};
      }
    }

    /** `destroy()` is `reset()`. */
    method Destroy()
      requires Valid()
      modifies this`progress, this`loading, this`tasks, this`paused, this`resources
      modifies (set x | x in resources.Values)`loadBound, (set x | x in resources.Values)`aborted
      ensures Valid()
      ensures progress == 0.0 && !loading && tasks == [] && paused && resources == map[]
      ensures forall x :: x in old(resources.Values) ==> !x.loadBound && x.aborted == (old(x.aborted) || x.loading)
    {
      Reset();
    }

    /** The queue is idle and nothing is being parsed: the completion
        check of `_onLoad`. */
    predicate Settled()
      reads this`tasks, this`running, this`parsing
    {
      Idle() && parsing == []
    }

    /** The resource the worker would take next. */
    function Head(): set<LoaderResource>
      reads this
    {
      if tasks == [] then {} else {tasks[0]}
    }

    /** The queue's worker taking the next task (concurrency is not
        modelled): nothing while paused or with nothing pending; otherwise
        the head task leaves the pending list, becomes running and goes
        through `_loadResource`. */
    method ProcessNext(marks: set<nat>) returns (taken: Option<LoaderResource>)
      requires Valid()
      modifies this`tasks, this`parsing, this`running, cache`cache, bus
      modifies Head()`data, Head()`complete, Head()`loading, Head()`storeHandlers, Head()`loadBound
      ensures Valid()
      ensures old(paused) || old(tasks) == [] ==>
        (taken == None && tasks == old(tasks) && running == old(running) && parsing == old(parsing)
         && bus.log == old(bus.log) && cache.cache == old(cache.cache))
      ensures !old(paused) && old(tasks) != [] ==>
        (taken == Some(old(tasks[0])) && tasks == old(tasks[1..])
         && taken.value.complete == old(PreChain(tasks[0], marks)).end.complete)
      ensures taken.Some? && taken.value.complete ==>
        (parsing == old(parsing) + [taken.value] && running == old(running) - {taken.value} && !taken.value.loadBound)
      ensures taken.Some? && !taken.value.complete ==>
        (parsing == old(parsing) && running == old(running) + {taken.value} && taken.value.loadBound)
      ensures !old(paused) && old(tasks) != [] ==>
        var run := old(PreChain(tasks[0], marks));
        taken.value.storeHandlers == run.end.handlers && taken.value.data == run.end.data
        && cache.cache == (if run.end.stored then old(cache.cache)[taken.value.url := taken.value] else old(cache.cache))
      ensures !old(paused) && old(tasks) != [] && taken.value.complete ==>
        bus.log == old(bus.log) + old(PreChain(tasks[0], marks)).events + PostCalls(taken.value.id, |post|)
      ensures !old(paused) && old(tasks) != [] && !taken.value.complete ==>
        bus.log == old(bus.log) + old(PreChain(tasks[0], marks)).events && taken.value.loading
    {
      if paused || tasks == [] {
        return None;
      }
      var r := tasks[0];
      tasks := tasks[1..];
      running := running + {r};
      ghost var run := LoadResource(r, marks);
      return Some(r);
    }

    /** `_loadResource`: the before-middleware run in registration order
        while the resource is not complete; a complete resource goes
        straight to `_onLoad`, any other is bound to `_onLoad` and starts
        loading. */
    method LoadResource(r: LoaderResource, marks: set<nat>) returns (ghost run: ChainRun)
      requires Valid() && r in Repr
      modifies this`parsing, this`running, r`data, r`complete, r`loading, r`storeHandlers, r`loadBound, cache`cache, bus
      ensures Valid()
      ensures run == old(PreChain(r, marks))
      ensures r.storeHandlers == run.end.handlers && r.complete == run.end.complete && r.data == run.end.data
      ensures cache.cache == (if run.end.stored then old(cache.cache)[r.url := r] else old(cache.cache))
      ensures run.end.complete ==>
        (!r.loadBound && parsing == old(parsing) + [r] && running == old(running) - {r}
         && bus.log == old(bus.log) + run.events + PostCalls(r.id, |post|))
      ensures !run.end.complete ==>
        (r.loadBound && r.loading && parsing == old(parsing) && running == old(running)
         && bus.log == old(bus.log) + run.events)
    {
      run := RunPre(r, marks);
      if r.complete {
        OnLoad(r);
      } else {
        r.loadBound := true;
        r.loading := true;
      }
    }

    /** The loop of `_loadResource` over the before-middleware: each is
        announced and run in turn until one completes the resource. */
    method RunPre(r: LoaderResource, marks: set<nat>) returns (ghost run: ChainRun)
      requires cache.bus == bus
      modifies r`data, r`complete, r`loading, r`storeHandlers, cache`cache, bus
      ensures run == old(PreChain(r, marks))
      ensures r.storeHandlers == run.end.handlers && r.complete == run.end.complete && r.data == run.end.data
      ensures cache.cache == (if run.end.stored then old(cache.cache)[r.url := r] else old(cache.cache))
      ensures bus.log == old(bus.log) + run.events
    {
      ghost var hit := r.url in cache.cache;
      ghost var hitData := if hit then cache.cache[r.url].data else None;
      run := RunFrom(r, marks, 0, false, hit, hitData,
                     Chain(r.storeHandlers, r.complete, r.data, false, false), cache.cache);
    }

    /** `eachSeries` over the before-middleware from index `i`: each
        middleware's `next` goes on to the following one unless the
        resource is complete. */
    method RunFrom(r: LoaderResource, marks: set<nat>, i: nat, stopped: bool, ghost hit: bool,
                   ghost hitData: Option<Payload>, ghost cur: Chain, ghost cache0: map<string, LoaderResource>)
      returns (ghost run: ChainRun)
      requires cache.bus == bus
      requires cur.handlers == r.storeHandlers && cur.complete == r.complete && cur.data == r.data
      requires cur.stopped == stopped
      requires cache.cache == (if cur.stored then cache0[r.url := r] else cache0)
      requires !stopped ==> !cur.stored && hit == (r.url in cache.cache)
      requires !stopped && hit ==> hitData == cache.cache[r.url].data
      modifies r`data, r`complete, r`loading, r`storeHandlers, cache`cache, bus
      ensures run == ChainFrom(pre, marks, hit, hitData, r.id, r.url, i, cur)
      ensures r.storeHandlers == run.end.handlers && r.complete == run.end.complete && r.data == run.end.data
      ensures cache.cache == (if run.end.stored then cache0[r.url := r] else cache0)
      ensures bus.log == old(bus.log) + run.events
      decreases |pre| - i
    {
      if i < |pre| && !stopped {
        ghost var log0 := bus.log;
        ghost var step := PreStep(pre[i], i, marks, hit, hitData, r.id, r.url, cur);
        RunOne(r, i, marks, hit, hitData, cur, step);
        ghost var rest := RunFrom(r, marks, i + 1, r.complete, hit, hitData, step.end, cache0);
        run := Continue(step.events, rest);
        AppendAssoc(log0, step.events, rest.events);
      } else {
        run := ChainRun(cur, []);
      }
    }

    /** One before-middleware of `_loadResource`: announced, then run. */
    method RunOne(r: LoaderResource, i: nat, marks: set<nat>, ghost hit: bool, ghost hitData: Option<Payload>,
                  ghost st: Chain, ghost step: ChainRun)
      requires cache.bus == bus && i < |pre| && !st.stopped && !st.stored
      requires st.handlers == r.storeHandlers && st.complete == r.complete && st.data == r.data
      requires hit == (r.url in cache.cache) && (hit ==> hitData == cache.cache[r.url].data)
      requires step == PreStep(pre[i], i, marks, hit, hitData, r.id, r.url, st)
      modifies r`data, r`complete, r`loading, r`storeHandlers, cache`cache, bus
      ensures r.storeHandlers == step.end.handlers && r.complete == step.end.complete && r.data == step.end.data
      ensures cache.cache == (if step.end.stored then old(cache.cache)[r.url := r] else old(cache.cache))
      ensures bus.log == old(bus.log) + step.events
    {
      bus.Publish(PreMiddleware(i, r.id));
      match pre[i] {
        case CacheLookup =>
          Caching.Run(cache, r);
        case Custom(_) =>
          if i in marks {
            r.Complete(cache);
          }
      }
    }

    /** `_onLoad`: the binding is dropped, the resource moves from the
        running workers to the parsing list, and the after-middleware are
        called in registration order. */
    method OnLoad(r: LoaderResource)
      requires Valid() && r in Repr
      modifies this`parsing, this`running, r`loadBound, bus
      ensures Valid()
      ensures !r.loadBound && parsing == old(parsing) + [r] && running == old(running) - {r}
      ensures bus.log == old(bus.log) + PostCalls(r.id, |post|)
    {
      r.loadBound := false;
      parsing := parsing + [r];
      running := running - {r};
      CallPost(r.id);
    }

    /** The after-middleware called in registration order on one resource. */
    method CallPost(id: ResourceId)
      modifies bus
      ensures bus.log == old(bus.log) + PostCalls(id, |post|)
    {
      for i := 0 to |post|
        invariant bus.log == old(bus.log) + PostCalls(id, i)
      {
        bus.Publish(PostMiddleware(i, id));
      }
    }

    /** A resource's load finishing (the fetch is not part of this model):
        its error and data are set and it completes, which fires its store
        handlers and then, while it is still bound, `_onLoad`. */
    method ResourceFinished(r: LoaderResource, error: bool, data: Option<Payload>)
      requires Valid() && r in Repr
      modifies this`parsing, this`running, r`error, r`data, r`complete, r`loading, r`storeHandlers, r`loadBound
      modifies cache`cache, bus
      ensures Valid()
      ensures r.error == error && r.data == data && r.complete && !r.loading && r.storeHandlers == 0 && !r.loadBound
      ensures cache.cache == if old(r.storeHandlers) > 0 then old(cache.cache)[r.url := r] else old(cache.cache)
      ensures old(r.loadBound) ==>
        (parsing == old(parsing) + [r] && running == old(running) - {r}
         && bus.log == old(bus.log) + Repeat(ResourceAdded(r.url, r.id), old(r.storeHandlers)) + PostCalls(r.id, |post|))
      ensures !old(r.loadBound) ==>
        (parsing == old(parsing) && running == old(running)
         && bus.log == old(bus.log) + Repeat(ResourceAdded(r.url, r.id), old(r.storeHandlers)))
    {
      r.error := error;
      r.data := data;
      r.Complete(cache);
      if r.loadBound {
        OnLoad(r);
      }
    }

    /** The final callback of `_onLoad`'s after-middleware chain: the `add`
        callback, progress capped at 100, Progress, then exactly one of
        Failed and Loaded; the resource leaves the parsing list, and with
        the queue idle and nothing left to parse the loader completes. */
    method FinishPost(r: LoaderResource)
      requires Valid() && r in parsing
      modifies this`progress, this`loading, this`parsing, r`afterCallback, bus
      ensures Valid()
      ensures !r.afterCallback && parsing == RemoveFirst(old(parsing), r)
      ensures old(progress) <= progress <= MaxProgress
      ensures Settled() ==>
        (progress == MaxProgress && !loading
         && bus.log == old(bus.log) + FinishEvents(r.id, r.error, old(r.afterCallback)) + CompleteEvents())
      ensures !Settled() ==>
        (progress == FrameClock.Min(MaxProgress, old(progress) + r.chunk) && loading == old(loading)
         && bus.log == old(bus.log) + FinishEvents(r.id, r.error, old(r.afterCallback)))
    {
      Advance(r);
      if Idle() && parsing == [] {
        OnComplete();
      }
    }

    /** The part of the final callback before the completion check: the
        progress grows by the resource's chunk, capped at 100, and the
        resource leaves the parsing list. */
    method Advance(r: LoaderResource)
      requires Valid() && r in parsing
      modifies this`progress, this`parsing, r`afterCallback, bus
      ensures Valid()
      ensures !r.afterCallback && parsing == RemoveFirst(old(parsing), r)
      ensures progress == FrameClock.Min(MaxProgress, old(progress) + r.chunk)
      ensures old(progress) <= progress
      ensures bus.log == old(bus.log) + FinishEvents(r.id, r.error, old(r.afterCallback))
    {
      var callback := r.afterCallback;
      r.afterCallback := false;
      progress := FrameClock.Min(MaxProgress, progress + r.chunk);
      Announce(r.id, r.error, callback);
      parsing := RemoveFirst(parsing, r);
      assert forall x :: x in parsing ==> x in old(parsing);
    }

    /** The events of the end of the after-middleware chain, published in
        order. */
    method Announce(id: ResourceId, error: bool, callback: bool)
      modifies bus
      ensures bus.log == old(bus.log) + FinishEvents(id, error, callback)
    {
      if callback {
        bus.Publish(AfterMiddleware(id));
      }
      bus.Publish(Signal(ProgressSignal, Some(id)));
      bus.Publish(LoaderEvent(LoaderProgress, Some(id)));
      if error {
        bus.Publish(Signal(ErrorSignal, Some(id)));
        bus.Publish(LoaderEvent(LoaderFailed, Some(id)));
      } else {
        bus.Publish(Signal(LoadSignal, Some(id)));
        bus.Publish(LoaderEvent(LoaderLoaded, Some(id)));
      }
    }

    /** The rebalancing of `add` while loading: the parent, its incomplete
        children and the new child all get `Share` of the parent's chunk,
        so their total is the old `chunk * (k + 1)`; complete children keep
        theirs. */
    method Rebalance(p: LoaderResource, child: LoaderResource)
      requires p.chunk >= 0.0 && child != p && child !in p.children
      modifies {p}`children, ({p} + set c | c in p.children)`chunk, child`chunk
      ensures p.children == old(p.children) + [child]
      ensures p.chunk == Share(old(p.chunk), |old(Incomplete(p.children))|) && p.chunk >= 0.0
      ensures child.chunk == p.chunk
      ensures forall c :: c in old(Incomplete(p.children)) ==> c.chunk == p.chunk
      ensures forall c :: c in old(p.children) && c !in old(Incomplete(p.children)) && c != p ==> c.chunk == old(c.chunk)
      ensures forall x :: x in Repr ==> x.chunk == old(x.chunk) || x.chunk == p.chunk
    {
      var incomplete := CollectIncomplete(p.children);
      var eachChunk := Share(p.chunk, |incomplete|);
      ShareNonNegative(p.chunk, |incomplete|);
      p.children := p.children + [child];
      p.chunk := eachChunk;
      SetChunks(incomplete, eachChunk);
      child.chunk := eachChunk;
    }
  }
}

/** Tool-name resolution of the gRPC ingress: the linear scan of
    internal/ingress/grpc/resolve.go and the TTL cache of internal/ingress/grpc/cache.go
    that stands in for it. */
module NameCache {
  import opened Basics

  /** A listed tool: its ID and the names of its schemas. */
  datatype Tool = Tool(id: string, schemas: seq<string>)

  predicate Owns(t: Tool, name: string) {
    t.id == name || name in t.schemas
  }

  /** The ID of the first tool that owns the name. */
  function Scan(tools: seq<Tool>, name: string): Option<string> {
    if tools == [] then None
    else if Owns(tools[0], name) then Some(tools[0].id)
    else Scan(tools[1..], name)
  }

  /** The ID of the last tool that owns the name. */
  function LastOwner(tools: seq<Tool>, name: string): Option<string> {
    if tools == [] then None
    else if Owns(Last(tools), name) then Some(Last(tools).id)
    else LastOwner(Front(tools), name)
  }

  method ResolveToolID(tools: seq<Tool>, name: string) returns (r: Option<string>)
    ensures r == Scan(tools, name)
  {
    var i := 0;
    while i < |tools|
      invariant 0 <= i <= |tools|
      invariant Scan(tools, name) == Scan(tools[i..], name)
    {
      if tools[i].id == name {
        return Some(tools[i].id);
      }
      var j := 0;
      while j < |tools[i].schemas|
        invariant 0 <= j <= |tools[i].schemas|
        invariant name !in tools[i].schemas[..j]
      {
        if tools[i].schemas[j] == name {
          return Some(tools[i].id);
        }
        j := j + 1;
      }
      assert tools[i].schemas[..j] == tools[i].schemas;
      i := i + 1;
    }
    return None;
  }

  function Lookup(m: map<string, string>, name: string): Option<string> {
    if name in m then Some(m[name]) else None
  }

  /** m answers every name with its last owner. */
  ghost predicate Indexes(m: map<string, string>, tools: seq<Tool>) {
    forall name :: Lookup(m, name) == LastOwner(tools, name)
  }

  /** The answer of m once the ID and the first j schema names of t are written over it. */
  function Overlaid(m: map<string, string>, t: Tool, j: nat, name: string): Option<string>
    requires j <= |t.schemas|
  {
    if name == t.id || name in t.schemas[..j] then Some(t.id) else Lookup(m, name)
  }

  /** Later tools overwrite the names of earlier ones. */
  method BuildToolNameMap(tools: seq<Tool>) returns (m: map<string, string>)
    ensures Indexes(m, tools)
  {
    m := map[];
    var i := 0;
    while i < |tools|
      invariant 0 <= i <= |tools|
      invariant Indexes(m, tools[..i])
    {
      ghost var before := m;
      var t := tools[i];
      m := m[t.id := t.id];
      var j := 0;
      while j < |t.schemas|
        invariant 0 <= j <= |t.schemas|
        invariant forall name :: Lookup(m, name) == Overlaid(before, t, j, name)
      {
        ghost var prev := m;
        m := m[t.schemas[j] := t.id];
        assert t.schemas[..j + 1] == t.schemas[..j] + [t.schemas[j]];
        assert forall name :: Lookup(m, name) == (if name == t.schemas[j] then Some(t.id) else Lookup(prev, name));
        j := j + 1;
      }
      assert t.schemas[..j] == t.schemas;
      assert Front(tools[..i + 1]) == tools[..i] && Last(tools[..i + 1]) == t;
      i := i + 1;
    }
    assert tools[..i] == tools;
  }

  // ---- When the index and the scan agree --------------------------------------

  predicate DistinctIDs(tools: seq<Tool>) {
    forall i, j :: 0 <= i < j < |tools| ==> tools[i].id != tools[j].id
  }

  predicate AtMostOneOwner(tools: seq<Tool>, name: string) {
    forall i, j :: 0 <= i < j < |tools| ==> !(Owns(tools[i], name) && Owns(tools[j], name))
  }

  lemma {:induction false} ScanFinds(tools: seq<Tool>, name: string) returns (i: nat)
    ensures Scan(tools, name).None? <==> i == |tools|
    ensures i < |tools| ==> Owns(tools[i], name) && Scan(tools, name) == Some(tools[i].id)
    ensures i <= |tools| && forall k :: 0 <= k < i ==> !Owns(tools[k], name)
  {
    if tools == [] || Owns(tools[0], name) {
      i := 0;
    } else {
      i := ScanFinds(tools[1..], name);
      assert forall k :: 0 < k < |tools| ==> tools[k] == tools[1..][k - 1];
      i := i + 1;
    }
  }

  lemma {:induction false} LastOwnerFinds(tools: seq<Tool>, name: string) returns (i: int)
    ensures LastOwner(tools, name).None? <==> i == -1
    ensures -1 <= i < |tools|
    ensures i >= 0 ==> Owns(tools[i], name) && LastOwner(tools, name) == Some(tools[i].id)
    ensures forall k :: i < k < |tools| ==> !Owns(tools[k], name)
  {
    if tools == [] {
      i := -1;
    } else if Owns(Last(tools), name) {
      i := |tools| - 1;
    } else {
      i := LastOwnerFinds(Front(tools), name);
    }
  }

  /** Not-found always agrees; with distinct tool IDs, as in the catalog, the two agree
      on a name exactly when no two tools own it. */
  lemma IndexAgreesWithScan(tools: seq<Tool>, name: string)
    ensures LastOwner(tools, name).None? <==> Scan(tools, name).None?
    ensures DistinctIDs(tools) ==> (LastOwner(tools, name) == Scan(tools, name) <==> AtMostOneOwner(tools, name))
  {
    var i := ScanFinds(tools, name);
    var j := LastOwnerFinds(tools, name);
  }

  /** Two tools that share a schema name are told apart the other way round. */
  lemma SharedNameDiffers(a: string, b: string, name: string)
    requires a != b
    ensures var tools := [Tool(a, [name]), Tool(b, [name])];
      Scan(tools, name) == Some(a) && LastOwner(tools, name) == Some(b)
  {
  }

  // ---- The cache under concurrent callers -------------------------------------

  /** A critical section of some caller. Sections run under a reader or writer lock, so
      every execution with any number of callers is a sequence of them: a call is a Read,
      followed by its own Refresh if the Read finds the cache stale. The index is what
      BuildToolNameMap makes of the listing. */
  datatype Section =
    | Read(name: string, at: int)
    | Refresh(name: string, at: int, listing: Option<seq<Tool>>, index: map<string, string>, doneAt: int)

  datatype Answer = Found(id: string) | NotFound | ListFailed | Stale

  /** expireAt is None while it is Go's zero time, before which no reading falls. */
  datatype Cache = Cache(byName: map<string, string>, expireAt: Option<int>)

  const EMPTY := Cache(map[], None)

  predicate Fresh(c: Cache, at: int) {
    c.expireAt.Some? && at < c.expireAt.value
  }

  function Reply(m: map<string, string>, name: string): Answer {
    if name in m then Found(m[name]) else NotFound
  }

  datatype Step = Step(after: Cache, answer: Answer)

  function Serve(ttl: int, c: Cache, s: Section): Step {
    if Fresh(c, s.at) then Step(c, Reply(c.byName, s.name))
    else match s
      case Read(_, _) => Step(c, Stale)
      case Refresh(name, _, listing, index, doneAt) =>
        if listing.None? then Step(c, ListFailed)
        else Step(Cache(index, Some(doneAt + ttl)), Reply(index, name))
  }

  function After(ttl: int, ss: seq<Section>): Cache {
    if ss == [] then EMPTY else Serve(ttl, After(ttl, Front(ss)), Last(ss)).after
  }

  /** Clock readings in execution order, and indexes that are those of the listings. */
  ghost predicate Run(ttl: int, ss: seq<Section>) {
    && (forall i :: 0 <= i < |ss| && ss[i].Refresh? ==> ss[i].at <= ss[i].doneAt)
    && (forall i :: 0 <= i < |ss| && Rebuilt(ttl, ss, i) ==> Indexes(ss[i].index, ss[i].listing.value))
    && (forall i, j :: 0 <= i < j < |ss| ==> (if ss[i].Refresh? then ss[i].doneAt else ss[i].at) <= ss[j].at)
  }

  /** Section j rebuilt the cache. */
  predicate Rebuilt(ttl: int, ss: seq<Section>, j: int)
    requires 0 <= j < |ss|
  {
    ss[j].Refresh? && ss[j].listing.Some? && !Fresh(After(ttl, ss[..j]), ss[j].at)
  }

  /** The cache is always that of the last rebuild, or empty before the first. */
  lemma {:induction false} CacheIsLastRebuild(ttl: int, ss: seq<Section>) returns (j: int)
    ensures -1 <= j < |ss|
    ensures j == -1 ==> After(ttl, ss) == EMPTY
    ensures j >= 0 ==> Rebuilt(ttl, ss, j) && After(ttl, ss) == Cache(ss[j].index, Some(ss[j].doneAt + ttl))
    ensures forall i :: j < i < |ss| ==> !Rebuilt(ttl, ss, i)
  {
    if ss == [] {
      return -1;
    }
    var n := |ss| - 1;
    assert ss[..n] == Front(ss);
    if Rebuilt(ttl, ss, n) {
      j := n;
    } else {
      j := CacheIsLastRebuild(ttl, Front(ss));
      forall i | j < i < |ss|
        ensures !Rebuilt(ttl, ss, i)
      {
        if i < n {
          assert ss[..i] == Front(ss)[..i];
          assert !Rebuilt(ttl, Front(ss), i);
        }
      }
      if j >= 0 {
        assert ss[..j] == Front(ss)[..j];
      }
    }
  }

  /** Every found or not-found answer is the linear scan of the listing of the last rebuild,
      which is this section's own or completed less than TTL ago; a found answer is so
      for each name that at most one listed tool owns. */
  lemma AnswerIsScanOfRecentListing(ttl: int, ss: seq<Section>)
    requires ss != [] && Run(ttl, ss)
    requires Serve(ttl, After(ttl, Front(ss)), Last(ss)).answer in {NotFound} ||
             Serve(ttl, After(ttl, Front(ss)), Last(ss)).answer.Found?
    ensures var s := Last(ss);
      var answer := Serve(ttl, After(ttl, Front(ss)), s).answer;
      exists j :: 0 <= j < |ss| && Rebuilt(ttl, ss, j) &&
        (forall i :: j < i < |ss| ==> !Rebuilt(ttl, ss, i)) &&
        (j == |ss| - 1 || s.at < ss[j].doneAt + ttl) &&
        var tools := ss[j].listing.value;
        && (answer.NotFound? <==> Scan(tools, s.name).None?)
        && (DistinctIDs(tools) && answer.Found? ==>
            (Some(answer.id) == Scan(tools, s.name) <==> AtMostOneOwner(tools, s.name)))
  {
    var j := CacheIsLastRebuild(ttl, ss);
    var n := |ss| - 1;
    assert ss[..n] == Front(ss);
    if Rebuilt(ttl, ss, n) {
      assert j == n;
    } else {
      assert After(ttl, ss) == After(ttl, Front(ss));
    }
    IndexAgreesWithScan(ss[j].listing.value, Last(ss).name);
    assert Lookup(ss[j].index, Last(ss).name) == LastOwner(ss[j].listing.value, Last(ss).name);
  }

  /** When a section answers neither: a read goes stale, and a refresh fails, exactly when
      the last rebuild is TTL or more ago, or there was none; a failed listing fails it. */
  lemma UnansweredExactly(ttl: int, ss: seq<Section>)
    requires ss != []
    ensures var s, expireAt := Last(ss), After(ttl, Front(ss)).expireAt;
      var answer := Serve(ttl, After(ttl, Front(ss)), s).answer;
      && (answer.Stale? <==> s.Read? && (expireAt.None? || expireAt.value <= s.at))
      && (answer.ListFailed? <==>
            s.Refresh? && s.listing.None? && (expireAt.None? || expireAt.value <= s.at))
  {
  }

  /** Successful rebuilds complete at least TTL apart. */
  lemma {:induction false} RebuildsAreSpaced(ttl: int, ss: seq<Section>, i: int, j: int)
    requires Run(ttl, ss) && 0 <= i < j < |ss| && Rebuilt(ttl, ss, i) && Rebuilt(ttl, ss, j)
    ensures ss[j].doneAt >= ss[i].doneAt + ttl
  {
    var k := CacheIsLastRebuild(ttl, ss[..j]);
    assert ss[..j][..i] == ss[..i];
    assert Rebuilt(ttl, ss[..j], i);
    assert k >= i;
    assert ss[k].doneAt >= ss[i].doneAt;
  }

  // ---- The object itself ------------------------------------------------------

  class ToolNameCache {
    const ttl: int
    var byName: map<string, string>
    var expireAt: Option<int>

    ghost function View(): Cache
      reads this
    {
      Cache(byName, expireAt)
    }

    constructor (ttl: int)
      ensures this.ttl == ttl && View() == EMPTY
    {
      this.ttl := ttl;
      byName := map[];
      expireAt := None;
    }

    /** The section of resolve under the read lock. */
    method Resolve(name: string, at: int) returns (answer: Answer)
      ensures answer == Serve(ttl, View(), Read(name, at)).answer
    {
      if expireAt.Some? && at < expireAt.value {
        if name in byName {
          return Found(byName[name]);
        }
        return NotFound;
      }
      return Stale;
    }

    /** refreshAndResolve, under the write lock. */
    method RefreshAndResolve(name: string, at: int, listing: Option<seq<Tool>>, doneAt: int)
      returns (answer: Answer, ghost index: map<string, string>)
      modifies this
      ensures !Fresh(old(View()), at) && listing.Some? ==> Indexes(index, listing.value)
      ensures View() == Serve(ttl, old(View()), Refresh(name, at, listing, index, doneAt)).after
      ensures answer == Serve(ttl, old(View()), Refresh(name, at, listing, index, doneAt)).answer
    {
      index := map[];
      if expireAt.Some? && at < expireAt.value {
        if name in byName {
          return Found(byName[name]), index;
        }
        return NotFound, index;
      }
      if listing.None? {
        return ListFailed, index;
      }
      byName := BuildToolNameMap(listing.value);
      index := byName;
      expireAt := Some(doneAt + ttl);
      if name in byName {
        return Found(byName[name]), index;
      }
      return NotFound, index;
    }
  }
}

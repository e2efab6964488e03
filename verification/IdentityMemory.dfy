/**
 The identity store: values on dotted paths through dictionaries nested in one another.

 Dictionaries are shared by reference, so the heap is explicit: a dictionary is its index in the
 heap, and the same dictionary may be reached on several paths. What a caller expects of `set` and
 `get` holds exactly when the path does not run into its own last step.
 */
module IdentityMemory {
  import opened Text
  import opened Json

  /** Any value but a dictionary. */
  type PlainJson = j: Json | !j.Obj? witness Null

  datatype Value = Dict(ref: nat) | Leaf(json: PlainJson)

  type Heap = seq<map<string, Value>>

  predicate Known(h: Heap, v: Value) {
    v.Dict? ==> v.ref < |h|
  }

  /** Every dictionary mentioned in a dictionary exists. */
  ghost predicate Closed(h: Heap) {
    forall r, key :: 0 <= r < |h| && key in h[r] ==> Known(h, h[r][key])
  }

  // ── Reading ────────────────────────────────────────────────────────────────

  /** The value at the end of a path. */
  ghost function Walk(h: Heap, v: Value, path: seq<string>): (w: Option<Value>)
    requires Closed(h) && Known(h, v)
    ensures w.Some? ==> Known(h, w.value)
    decreases |path|
  {
    if path == [] then Some(v)
    else if v.Dict? && path[0] in h[v.ref] then Walk(h, h[v.ref][path[0]], path[1..])
    else None
  }

  // ── Writing ────────────────────────────────────────────────────────────────

  /** The value that leads to `x` along `parts`, the new dictionaries starting at index `base`. */
  function Head(base: nat, parts: seq<string>, x: Value): Value {
    if parts == [] then x else Dict(base)
  }

  /** Those new dictionaries, one for each part. */
  function Chain(base: nat, parts: seq<string>, x: Value): (c: Heap)
    ensures |c| == |parts|
    decreases |parts|
  {
    if parts == [] then []
    else [map[parts[0] := Head(base + 1, parts[1..], x)]] + Chain(base + 1, parts[1..], x)
  }

  /** The heap after writing `x` at `path` from dictionary `r`; None when a value on the way is no dictionary. */
  ghost function Written(h: Heap, r: nat, path: seq<string>, x: Value): Option<Heap>
    requires Closed(h) && r < |h| && path != []
    decreases |path|
  {
    var d, rest := h[r], path[1..];
    if rest == [] || path[0] !in d then Some(h[r := d[path[0] := Head(|h|, rest, x)]] + Chain(|h|, rest, x))
    else if d[path[0]].Dict? then Written(h, d[path[0]].ref, rest, x)
    else None
  }

  class Store {
    var heap: Heap
    var root: nat

    ghost predicate Valid()
      reads this
    {
      Closed(heap) && root < |heap|
    }

    constructor ()
      ensures Valid() && heap == [map[]]
    {
      heap, root := [map[]], 0;
    }

    /** `get`: the default is compared by identity, also on the way. */
    method Get(key: string, default: Value) returns (v: Value)
      requires Valid() && Known(heap, default)
      ensures v == Found(heap, Dict(root), Split(key, '.'), default)
    {
      var parts := Split(key, '.');
      v := Dict(root);
      assert parts[0..] == parts;
      for i := 0 to |parts|
        invariant Known(heap, v)
        invariant Found(heap, v, parts[i..], default) == Found(heap, Dict(root), parts, default)
      {
        assert parts[i..][1..] == parts[i + 1..];
        if v.Leaf? {
          return default;
        }
        v := if parts[i] in heap[v.ref] then heap[v.ref][parts[i]] else default;
        if v == default {
          return default;
        }
      }
    }

    /** `setdefault` with a new dictionary. */
    method SetDefault(node: nat, part: string) returns (v: Value)
      requires Closed(heap) && node < |heap|
      modifies this`heap
      ensures v == if part in old(heap)[node] then old(heap)[node][part] else Dict(|old(heap)|)
      ensures heap == if part in old(heap)[node] then old(heap) else Extended(old(heap), node, part)
    {
      if part in heap[node] {
        return heap[node][part];
      }
      v := Dict(|heap|);
      heap := heap[node := heap[node][part := v]] + [map[]];
    }

    /** `set`, creating dictionaries on the way. A value in the way is an error that changes nothing. */
    method Set(key: string, value: Value) returns (ok: bool)
      requires Valid() && Known(heap, value)
      modifies this`heap
      ensures var w := Written(old(heap), root, Split(key, '.'), value);
              ok == w.Some? && heap == if ok then w.value else old(heap)
      ensures Valid()
    {
      var parts := Split(key, '.');
      var node: nat := root;
      assert parts[0..] == parts;
      ghost var w := Written(heap, root, parts, value);
      for i := 0 to |parts| - 1
        invariant Closed(heap) && node < |heap| && root < |heap| && Known(heap, value)
        invariant Written(heap, node, parts[i..], value) == w
        invariant heap == old(heap) || w.Some?
      {
        assert parts[i..][1..] == parts[i + 1..];
        OneStep(heap, node, parts[i..], value);
        var next := SetDefault(node, parts[i]);
        if next.Leaf? {
          return false;
        }
        node := next.ref;
      }
      assert parts[|parts| - 1..] == [parts[|parts| - 1]];
      LastStep(heap, node, parts[|parts| - 1], value);
      heap := heap[node := heap[node][parts[|parts| - 1] := value]];
      return true;
    }
  }

  /** A new dictionary under `part` of `node`. */
  function Extended(h: Heap, node: nat, part: string): Heap
    requires node < |h|
  {
    h[node := h[node][part := Dict(|h|)]] + [map[]]
  }

  lemma LastStep(h: Heap, r: nat, key: string, x: Value)
    requires Closed(h) && r < |h| && Known(h, x)
    ensures var g := h[r := h[r][key := x]];
            Closed(g) && Written(h, r, [key], x) == Some(g)
  {
    assert h[r := h[r][key := x]] + [] == h[r := h[r][key := x]];
  }

  /** Taking one step, and creating a dictionary if there is none, leaves the rest of the write to do. */
  lemma OneStep(h: Heap, r: nat, path: seq<string>, x: Value)
    requires Closed(h) && r < |h| && |path| > 1
    ensures path[0] in h[r] && h[r][path[0]].Dict? ==>
              Written(h, h[r][path[0]].ref, path[1..], x) == Written(h, r, path, x)
    ensures path[0] in h[r] && h[r][path[0]].Leaf? ==> Written(h, r, path, x) == None
    ensures path[0] !in h[r] ==>
              var k := Extended(h, r, path[0]);
              Closed(k) && Written(k, |h|, path[1..], x) == Written(h, r, path, x) != None
  {
    if path[0] !in h[r] {
      var g, rest := h[r := h[r][path[0] := Dict(|h|)]], path[1..];
      var k, first := g + [map[]], map[rest[0] := Head(|h| + 1, rest[1..], x)];
      assert k[|h| := first] + Chain(|h| + 1, rest[1..], x) == g + ([first] + Chain(|h| + 1, rest[1..], x));
    }
  }

  // ── What get returns ───────────────────────────────────────────────────────

  ghost function Found(h: Heap, v: Value, path: seq<string>, default: Value): Value
    requires Closed(h) && Known(h, v) && Known(h, default)
    decreases |path|
  {
    if path == [] then v
    else if v.Leaf? then default
    else
      var next := if path[0] in h[v.ref] then h[v.ref][path[0]] else default;
      if next == default then default else Found(h, next, path[1..], default)
  }

  /** With a plain default, `get` returns the value at the end of the path, or the default if there is none. */
  lemma {:induction false} GetIsWalk(h: Heap, v: Value, path: seq<string>, default: Value)
    requires Closed(h) && Known(h, v) && default.Leaf?
    ensures var w := Walk(h, v, path);
            Found(h, v, path, default) == if w.Some? then w.value else default
    decreases |path|
  {
    if path != [] && v.Dict? && path[0] in h[v.ref] {
      GetIsWalk(h, h[v.ref][path[0]], path[1..], default);
    }
  }

  // ── A write is one changed entry ───────────────────────────────────────────

  /** Where a write changes the heap: how many steps of the path exist, and the dictionary they end in. */
  ghost function Depth(h: Heap, r: nat, path: seq<string>): (i: nat)
    requires Closed(h) && r < |h| && path != []
    ensures i < |path|
    decreases |path|
  {
    if path[1..] == [] || path[0] !in h[r] || h[r][path[0]].Leaf? then 0
    else 1 + Depth(h, h[r][path[0]].ref, path[1..])
  }

  ghost function Site(h: Heap, r: nat, path: seq<string>): (n: nat)
    requires Closed(h) && r < |h| && path != []
    ensures n < |h|
    decreases |path|
  {
    if path[1..] == [] || path[0] !in h[r] || h[r][path[0]].Leaf? then r
    else Site(h, h[r][path[0]].ref, path[1..])
  }

  ghost predicate Blocked(h: Heap, r: nat, path: seq<string>)
    requires Closed(h) && r < |h| && path != []
  {
    var i := Depth(h, r, path);
    i < |path| - 1 && path[i] in h[Site(h, r, path)]
  }

  /** The heap with one entry changed and new dictionaries at the end. */
  ghost predicate OneEntry(h: Heap, g: Heap, n: nat, key: string, v: Value, more: Heap)
    requires n < |h|
  {
    g == h[n := h[n][key := v]] + more
  }

  lemma {:induction false} SiteOnPath(h: Heap, r: nat, path: seq<string>)
    requires Closed(h) && r < |h| && path != []
    ensures Walk(h, Dict(r), path[..Depth(h, r, path)]) == Some(Dict(Site(h, r, path)))
    decreases |path|
  {
    var i := Depth(h, r, path);
    if i > 0 {
      SiteOnPath(h, h[r][path[0]].ref, path[1..]);
      assert path[..i][1..] == path[1..][..i - 1];
    }
  }

  /**
   Every write that is not blocked changes one entry of one existing dictionary: the last entry of
   the path, or the first missing one, which then leads to new dictionaries for the rest.
   */
  lemma {:induction false} WriteIsOneEntry(h: Heap, r: nat, path: seq<string>, x: Value)
    requires Closed(h) && r < |h| && path != []
    ensures Written(h, r, path, x).Some? <==> !Blocked(h, r, path)
    ensures var w, i, n := Written(h, r, path, x), Depth(h, r, path), Site(h, r, path);
            w.Some? ==>
              && (i < |path| - 1 ==> path[i] !in h[n])
              && OneEntry(h, w.value, n, path[i], Head(|h|, path[i + 1..], x), Chain(|h|, path[i + 1..], x))
    decreases |path|
  {
    var i := Depth(h, r, path);
    if i > 0 {
      WriteIsOneEntry(h, h[r][path[0]].ref, path[1..], x);
      assert path[1..][i - 1] == path[i] && path[1..][i..] == path[i + 1..];
    }
  }

  // ── Which reads a write can change ─────────────────────────────────────────

  /** The walk along `path` uses the entry `key` of dictionary `n`. */
  ghost predicate Crosses(h: Heap, v: Value, path: seq<string>, n: nat, key: string)
    requires Closed(h) && Known(h, v)
    decreases |path|
  {
    path != [] && v.Dict? &&
    ((v.ref == n && path[0] == key) ||
     (path[0] in h[v.ref] && Crosses(h, h[v.ref][path[0]], path[1..], n, key)))
  }

  /** A walk that does not use the changed entry goes where it went before. */
  lemma {:induction false} UncrossedUnchanged(h: Heap, g: Heap, n: nat, key: string, x: Value, more: Heap, v: Value,
                                              path: seq<string>)
    requires Closed(h) && Closed(g) && n < |h| && OneEntry(h, g, n, key, x, more) && Known(h, v)
    requires !Crosses(h, v, path, n, key)
    ensures Walk(g, v, path) == Walk(h, v, path)
    decreases |path|
  {
    if path != [] && v.Dict? {
      assert path[0] in g[v.ref] <==> path[0] in h[v.ref];
      if path[0] in h[v.ref] {
        assert g[v.ref][path[0]] == h[v.ref][path[0]];
        UncrossedUnchanged(h, g, n, key, x, more, h[v.ref][path[0]], path[1..]);
      }
    }
  }

  lemma {:induction false} FirstUse(h: Heap, v: Value, path: seq<string>, n: nat, key: string) returns (j: nat)
    requires Closed(h) && Known(h, v) && Crosses(h, v, path, n, key)
    ensures j == FirstUseAt(h, v, path, n, key)
    ensures path[j] == key && Walk(h, v, path[..j]) == Some(Dict(n)) && !Crosses(h, v, path[..j], n, key)
    decreases |path|
  {
    if v.ref == n && path[0] == key {
      j := 0;
    } else {
      var k := FirstUse(h, h[v.ref][path[0]], path[1..], n, key);
      j := k + 1;
      assert path[..j][1..] == path[1..][..k];
    }
  }

  /** After a write, a walk that comes to the changed entry goes on from the new value. */
  lemma UseReachesNew(h: Heap, g: Heap, n: nat, key: string, x: Value, more: Heap, v: Value, path: seq<string>, j: nat)
    requires Closed(h) && Closed(g) && n < |h| && OneEntry(h, g, n, key, x, more) && Known(h, v) && Known(g, x)
    requires j < |path| && path[j] == key && Walk(h, v, path[..j]) == Some(Dict(n)) && !Crosses(h, v, path[..j], n, key)
    ensures Walk(g, v, path) == Walk(g, x, path[j + 1..])
  {
    UncrossedUnchanged(h, g, n, key, x, more, v, path[..j]);
    assert g[n] == h[n][key := x];
    WalkThrough(g, v, path, j, n, x);
  }

  /** A walk through an entry goes on from its value. */
  lemma WalkThrough(g: Heap, v: Value, path: seq<string>, j: nat, n: nat, x: Value)
    requires Closed(g) && Known(g, v) && n < |g| && j < |path| && Walk(g, v, path[..j]) == Some(Dict(n))
    requires path[j] in g[n] && g[n][path[j]] == x
    ensures Walk(g, v, path) == Walk(g, x, path[j + 1..])
  {
    assert path == path[..j] + path[j..];
    WalkAppend(g, v, path[..j], path[j..]);
    assert path[j..][1..] == path[j + 1..];
  }

  /** Where a walk first uses an entry. */
  ghost function FirstUseAt(h: Heap, v: Value, path: seq<string>, n: nat, key: string): (j: nat)
    requires Closed(h) && Known(h, v) && Crosses(h, v, path, n, key)
    ensures j < |path|
    decreases |path|
  {
    if v.ref == n && path[0] == key then 0 else 1 + FirstUseAt(h, h[v.ref][path[0]], path[1..], n, key)
  }

  lemma {:induction false} WalkAppend(h: Heap, v: Value, p: seq<string>, q: seq<string>)
    requires Closed(h) && Known(h, v)
    ensures Walk(h, v, p + q) == if Walk(h, v, p).Some? then Walk(h, Walk(h, v, p).value, q) else None
    decreases |p|
  {
    if p == [] {
      assert p + q == q;
    } else if v.Dict? && p[0] in h[v.ref] {
      assert (p + q)[1..] == p[1..] + q;
      WalkAppend(h, h[v.ref][p[0]], p[1..], q);
    }
  }

  /** Walking into a chain of new dictionaries: through to `x`, into the chain, or off it. */
  lemma {:induction false} WalkChain(g: Heap, base: nat, parts: seq<string>, x: Value, q: seq<string>)
    requires Closed(g) && base + |parts| <= |g| && Known(g, x)
    requires g[base..base + |parts|] == Chain(base, parts, x)
    ensures Walk(g, Head(base, parts, x), q) ==
            if parts <= q then Walk(g, x, q[|parts|..])
            else if q <= parts then Some(Dict(base + |q|))
            else None
    decreases |parts|
  {
    if parts == [] {
      assert q[0..] == q;
    } else {
      var c := Chain(base, parts, x);
      assert g[base] == c[0];
      if q != [] && q[0] == parts[0] {
        assert g[base + 1..base + |parts|] == c[1..] == Chain(base + 1, parts[1..], x);
        WalkChain(g, base + 1, parts[1..], x, q[1..]);
        assert parts <= q <==> parts[1..] <= q[1..];
        assert q <= parts <==> q[1..] <= parts[1..];
        assert parts <= q ==> q[1..][|parts| - 1..] == q[|parts|..];
      }
    }
  }

  // ── What a write leaves on its own path ────────────────────────────────────

  lemma {:induction false} ChainKnown(base: nat, parts: seq<string>, x: Value, k: nat)
    requires k < |parts| && (x.Dict? ==> x.ref < base)
    ensures forall key :: key in Chain(base, parts, x)[k] ==>
              Chain(base, parts, x)[k][key].Dict? ==> Chain(base, parts, x)[k][key].ref < base + |parts|
    decreases |parts|
  {
    if k > 0 {
      ChainKnown(base + 1, parts[1..], x, k - 1);
    }
  }

  lemma WrittenClosed(h: Heap, r: nat, path: seq<string>, x: Value)
    requires Closed(h) && r < |h| && path != [] && Known(h, x)
    ensures var w := Written(h, r, path, x); w.Some? ==> Closed(w.value) && |h| <= |w.value|
  {
    WriteIsOneEntry(h, r, path, x);
    var w, i := Written(h, r, path, x), Depth(h, r, path);
    if w.Some? {
      forall k, key | |h| <= k < |w.value| && key in w.value[k] ensures Known(w.value, w.value[k][key]) {
        ChainKnown(|h|, path[i + 1..], x, k - |h|);
      }
    }
  }

  /** The path runs, before its end, through the very entry the write changes. */
  ghost predicate Revisits(h: Heap, r: nat, path: seq<string>)
    requires Closed(h) && r < |h| && path != []
  {
    var i := Depth(h, r, path);
    Crosses(h, Dict(r), path[..i], Site(h, r, path), path[i])
  }

  /** A walk that succeeds does not use a missing entry. */
  lemma {:induction false} MissingNotCrossed(h: Heap, v: Value, path: seq<string>, n: nat, key: string)
    requires Closed(h) && Known(h, v) && n < |h| && key !in h[n] && Walk(h, v, path).Some?
    ensures !Crosses(h, v, path, n, key)
    decreases |path|
  {
    if path != [] {
      MissingNotCrossed(h, h[v.ref][path[0]], path[1..], n, key);
    }
  }

  /** Writing `x` at `path` from `r` turns `h` into `g`. */
  ghost predicate Writes(h: Heap, g: Heap, r: nat, path: seq<string>, x: Value) {
    && Closed(h) && Closed(g) && |h| <= |g| && r < |h| && Known(h, x)
    && path != [] && Written(h, r, path, x) == Some(g)
  }

  /** What the changed entry leads to. */
  lemma NewEntryLeadsOn(h: Heap, g: Heap, r: nat, path: seq<string>, x: Value, q: seq<string>)
    requires Writes(h, g, r, path, x)
    ensures var i := Depth(h, r, path);
            var rest := path[i + 1..];
            && Known(g, Head(|h|, rest, x))
            && OneEntry(h, g, Site(h, r, path), path[i], Head(|h|, rest, x), Chain(|h|, rest, x))
            && Walk(g, Head(|h|, rest, x), q) ==
               if rest <= q then Walk(g, x, q[|rest|..]) else if q <= rest then Some(Dict(|h| + |q|)) else None
  {
    WriteIsOneEntry(h, r, path, x);
    var rest := path[Depth(h, r, path) + 1..];
    assert g[|h|..|h| + |rest|] == Chain(|h|, rest, x);
    WalkChain(g, |h|, rest, x, q);
  }

  /** A revisiting path exists to its end, and after the write leads, at the first use, to the new value. */
  lemma RevisitReachesNew(h: Heap, g: Heap, r: nat, path: seq<string>, x: Value) returns (j: nat)
    requires Writes(h, g, r, path, x) && Revisits(h, r, path)
    ensures j < |path| - 1 && Walk(g, Dict(r), path[..j + 1]) == Some(x)
    ensures Walk(g, Dict(r), path) == Walk(g, x, path[j + 1..])
  {
    WriteIsOneEntry(h, r, path, x);
    SiteOnPath(h, r, path);
    var i, n := Depth(h, r, path), Site(h, r, path);
    var rest := path[i + 1..];
    if i < |path| - 1 {
      MissingNotCrossed(h, Dict(r), path[..i], n, path[i]);
    }
    j := FirstUse(h, Dict(r), path[..i], n, path[i]);
    assert path[..i][..j] == path[..j];
    UseReachesNew(h, g, n, path[i], Head(|h|, rest, x), Chain(|h|, rest, x), Dict(r), path, j);
    assert path[..j + 1][..j] == path[..j];
    UseReachesNew(h, g, n, path[i], Head(|h|, rest, x), Chain(|h|, rest, x), Dict(r), path[..j + 1], j);
  }

  /**
   `set` then `get` on the same path: the value comes back unless the path revisits the entry that
   was written, and a plain value comes back exactly then.
   */
  lemma SetThenGet(h: Heap, g: Heap, r: nat, path: seq<string>, x: Value)
    requires Writes(h, g, r, path, x)
    ensures !Revisits(h, r, path) ==> Walk(g, Dict(r), path) == Some(x)
    ensures x.Leaf? ==> (Walk(g, Dict(r), path) == Some(x) <==> !Revisits(h, r, path))
  {
    if Revisits(h, r, path) {
      var j := RevisitReachesNew(h, g, r, path, x);
    } else {
      var i, n := Depth(h, r, path), Site(h, r, path);
      var rest := path[i + 1..];
      SiteOnPath(h, r, path);
      NewEntryLeadsOn(h, g, r, path, x, rest);
      UseReachesNew(h, g, n, path[i], Head(|h|, rest, x), Chain(|h|, rest, x), Dict(r), path, i);
    }
  }

  /** The walk along `q` uses the entry that a write to `path` changes. */
  ghost predicate Meets(h: Heap, r: nat, path: seq<string>, q: seq<string>)
    requires Closed(h) && r < |h| && path != []
  {
    Crosses(h, Dict(r), q, Site(h, r, path), path[Depth(h, r, path)])
  }

  ghost function MeetsAt(h: Heap, r: nat, path: seq<string>, q: seq<string>): (j: nat)
    requires Closed(h) && r < |h| && path != [] && Meets(h, r, path, q)
    ensures j < |q|
  {
    FirstUseAt(h, Dict(r), q, Site(h, r, path), path[Depth(h, r, path)])
  }

  /**
   Every read after a write, whatever is shared: a path that does not meet the changed entry reads
   what it read before, and one that does goes on, from where it first meets it, as from the new value.
   */
  lemma ReadsInAnyHeap(h: Heap, g: Heap, r: nat, path: seq<string>, x: Value, q: seq<string>)
    requires Writes(h, g, r, path, x)
    ensures var head := Head(|h|, path[Depth(h, r, path) + 1..], x);
            && Known(g, head)
            && Walk(g, Dict(r), q) ==
               if Meets(h, r, path, q) then Walk(g, head, q[MeetsAt(h, r, path, q) + 1..]) else Walk(h, Dict(r), q)
  {
    var i, n := Depth(h, r, path), Site(h, r, path);
    var rest := path[i + 1..];
    NewEntryLeadsOn(h, g, r, path, x, rest);
    if Meets(h, r, path, q) {
      var j := FirstUse(h, Dict(r), q, n, path[i]);
      UseReachesNew(h, g, n, path[i], Head(|h|, rest, x), Chain(|h|, rest, x), Dict(r), q, j);
    } else {
      UncrossedUnchanged(h, g, n, path[i], Head(|h|, rest, x), Chain(|h|, rest, x), Dict(r), q);
    }
  }

  /**
   When a plain value written to an existing way is seen elsewhere: exactly on the paths that meet the
   changed entry and did not already hold what they hold now, which is the value where the path ends
   there and nothing where it goes on.
   */
  lemma PlainWriteSeenIff(h: Heap, g: Heap, r: nat, path: seq<string>, x: Value, q: seq<string>)
    requires Writes(h, g, r, path, x) && x.Leaf? && Depth(h, r, path) == |path| - 1
    ensures Walk(g, Dict(r), q) != Walk(h, Dict(r), q) <==>
            Meets(h, r, path, q) &&
            Walk(h, Dict(r), q) != if MeetsAt(h, r, path, q) == |q| - 1 then Some(x) else None
  {
    ReadsInAnyHeap(h, g, r, path, x, q);
    assert path[|path|..] == [];
  }

  // ── Dictionaries nested as a tree ──────────────────────────────────────────

  /** Every dictionary under `v` is reached on one path only. */
  ghost predicate Tree(h: Heap, v: Value)
    requires Closed(h) && Known(h, v)
  {
    forall p, q :: Walk(h, v, p).Some? && Walk(h, v, p).value.Dict? && Walk(h, v, q) == Walk(h, v, p) ==> p == q
  }

  /** In a tree, using the changed entry means going down the written path. */
  lemma CrossingFollowsPath(h: Heap, r: nat, path: seq<string>, q: seq<string>)
    requires Closed(h) && r < |h| && path != [] && Tree(h, Dict(r))
    requires Crosses(h, Dict(r), q, Site(h, r, path), path[Depth(h, r, path)])
    ensures var i := Depth(h, r, path);
            && path[..i + 1] <= q && Walk(h, Dict(r), q[..i]) == Some(Dict(Site(h, r, path)))
            && !Crosses(h, Dict(r), q[..i], Site(h, r, path), path[i])
  {
    SiteOnPath(h, r, path);
    var i := Depth(h, r, path);
    var j := FirstUse(h, Dict(r), q, Site(h, r, path), path[i]);
    assert q[..j] == path[..i];
  }

  /** So in a tree no path revisits its own last entry. */
  lemma TreeNeverRevisits(h: Heap, r: nat, path: seq<string>)
    requires Closed(h) && r < |h| && path != [] && Tree(h, Dict(r))
    ensures !Revisits(h, r, path)
  {
    var i := Depth(h, r, path);
    if Revisits(h, r, path) {
      CrossingFollowsPath(h, r, path, path[..i]);
      assert false;
    }
  }

  /** So in a tree whatever is set is got. */
  lemma TreeReadsBack(h: Heap, g: Heap, r: nat, path: seq<string>, x: Value)
    requires Writes(h, g, r, path, x) && Tree(h, Dict(r))
    ensures Walk(g, Dict(r), path) == Some(x)
  {
    TreeNeverRevisits(h, r, path);
    SetThenGet(h, g, r, path, x);
  }

  lemma MissingEntry(h: Heap, v: Value, q: seq<string>, i: nat, n: nat)
    requires Closed(h) && Known(h, v) && i < |q| && Walk(h, v, q[..i]) == Some(Dict(n)) && q[i] !in h[n]
    ensures Walk(h, v, q) == None
  {
    assert q == q[..i] + q[i..];
    WalkAppend(h, v, q[..i], q[i..]);
  }

  /** Every proper stop on a walk to a dictionary is a dictionary. */
  lemma StopsAreDicts(h: Heap, v: Value, p: seq<string>, k: nat)
    requires Closed(h) && Known(h, v) && Walk(h, v, p).Some? && Walk(h, v, p).value.Dict? && k <= |p|
    ensures Walk(h, v, p[..k]).Some? && Walk(h, v, p[..k]).value.Dict?
  {
    assert p == p[..k] + p[k..];
    WalkAppend(h, v, p[..k], p[k..]);
  }

  ghost predicate Comparable(p: seq<string>, q: seq<string>) {
    p <= q || q <= p
  }

  lemma SplitAt(p: seq<string>, q: seq<string>, k: nat)
    requires k <= |p| && p[..k] <= q
    ensures p <= q <==> p[k..] <= q[k..]
    ensures q <= p <==> q[k..] <= p[k..]
    ensures p <= q ==> q[k..][|p| - k..] == q[|p|..]
  {
    assert p == p[..k] + p[k..] && q == p[..k] + q[k..];
  }

  /**
   Every read after a write to a tree: the value and what is below it on the written path and its
   extensions, a dictionary on its proper prefixes, and what was there before on every other path.
   */
  lemma ReadsAfterWrite(h: Heap, g: Heap, r: nat, path: seq<string>, x: Value, q: seq<string>)
    requires Writes(h, g, r, path, x) && Tree(h, Dict(r))
    ensures path <= q ==> Walk(g, Dict(r), q) == Walk(g, x, q[|path|..])
    ensures q < path ==> Walk(g, Dict(r), q).Some? && Walk(g, Dict(r), q).value.Dict?
    ensures q < path && Walk(h, Dict(r), q).Some? ==> Walk(g, Dict(r), q) == Walk(h, Dict(r), q)
    ensures !Comparable(path, q) ==> Walk(g, Dict(r), q) == Walk(h, Dict(r), q)
  {
    var i := Depth(h, r, path);
    SiteOnPath(h, r, path);
    if path[..i + 1] <= q {
      ReadsBelowEntry(h, g, r, path, x, q);
    } else {
      ReadsElsewhere(h, g, r, path, x, q);
      if q < path {
        assert q == path[..i][..|q|];
        StopsAreDicts(h, Dict(r), path[..i], |q|);
      }
    }
  }

  lemma ReadsBelowEntry(h: Heap, g: Heap, r: nat, path: seq<string>, x: Value, q: seq<string>)
    requires Writes(h, g, r, path, x) && Tree(h, Dict(r)) && path[..Depth(h, r, path) + 1] <= q
    ensures path <= q ==> Walk(g, Dict(r), q) == Walk(g, x, q[|path|..])
    ensures q < path ==> Walk(g, Dict(r), q) == Some(Dict(|h| + |q| - Depth(h, r, path) - 1))
    ensures !Comparable(path, q) ==> Walk(g, Dict(r), q) == None
    ensures !(path <= q) ==> Walk(h, Dict(r), q) == None
  {
    WriteIsOneEntry(h, r, path, x);
    SiteOnPath(h, r, path);
    var i, n := Depth(h, r, path), Site(h, r, path);
    var rest, below := path[i + 1..], q[i + 1..];
    var entry := Head(|h|, rest, x);
    assert q[i] == path[i] && q[..i] == path[..i];
    TreeNeverRevisits(h, r, path);
    NewEntryLeadsOn(h, g, r, path, x, below);
    assert Walk(g, Dict(r), q) == Walk(g, entry, below) by {
      UseReachesNew(h, g, n, path[i], entry, Chain(|h|, rest, x), Dict(r), q, i);
    }
    SplitAt(path, q, i + 1);
    if path[i] !in h[n] {
      MissingEntry(h, Dict(r), q, i, n);
    }
  }

  lemma ReadsElsewhere(h: Heap, g: Heap, r: nat, path: seq<string>, x: Value, q: seq<string>)
    requires Writes(h, g, r, path, x) && Tree(h, Dict(r)) && !(path[..Depth(h, r, path) + 1] <= q)
    ensures Walk(g, Dict(r), q) == Walk(h, Dict(r), q)
  {
    var i, n := Depth(h, r, path), Site(h, r, path);
    var rest := path[i + 1..];
    NewEntryLeadsOn(h, g, r, path, x, rest);
    if Crosses(h, Dict(r), q, n, path[i]) {
      CrossingFollowsPath(h, r, path, q);
      assert false;
    }
    UncrossedUnchanged(h, g, n, path[i], Head(|h|, rest, x), Chain(|h|, rest, x), Dict(r), q);
  }

  // ── Writing again ──────────────────────────────────────────────────────────

  /** When the way to the last part exists, a write changes that last entry. */
  lemma {:induction false} WriteAtExisting(h: Heap, r: nat, path: seq<string>, x: Value, n: nat)
    requires Closed(h) && r < |h| && path != [] && Walk(h, Dict(r), path[..|path| - 1]) == Some(Dict(n))
    ensures n < |h| && Written(h, r, path, x) == Some(h[n := h[n][path[|path| - 1] := x]])
    decreases |path|
  {
    if |path| == 1 {
      assert h[r := h[r][path[0] := x]] + [] == h[r := h[r][path[0] := x]];
    } else {
      var way, rest := path[..|path| - 1], path[1..];
      assert way[1..] == rest[..|rest| - 1];
      var next := h[r][path[0]];
      StopsAreDicts(h, next, way[1..], 0);
      WriteAtExisting(h, next.ref, rest, x, n);
    }
  }

  lemma {:induction false} ChainLast(base: nat, parts: seq<string>, x: Value, y: Value)
    requires parts != []
    ensures var k := |parts| - 1;
            Chain(base, parts, x)[k := Chain(base, parts, x)[k][parts[k] := y]] == Chain(base, parts, y)
    decreases |parts|
  {
    if |parts| == 1 {
      assert map[parts[0] := x][parts[0] := y] == map[parts[0] := y];
    } else {
      ChainLast(base + 1, parts[1..], x, y);
    }
  }

  lemma HeapChainLast(h: Heap, parts: seq<string>, x: Value, y: Value)
    requires parts != []
    ensures var g, k := h + Chain(|h|, parts, x), |h| + |parts| - 1;
            g[k := g[k][parts[|parts| - 1] := y]] == h + Chain(|h|, parts, y)
  {
    ChainLast(|h|, parts, x, y);
  }

  /** Writing back what a path holds changes nothing at all, whatever is shared. */
  lemma WriteBack(h: Heap, r: nat, path: seq<string>)
    requires Closed(h) && r < |h| && path != [] && Walk(h, Dict(r), path).Some?
    ensures Written(h, r, path, Walk(h, Dict(r), path).value) == Some(h)
  {
    var k := |path| - 1;
    assert path == path[..k] + path[k..];
    WalkAppend(h, Dict(r), path[..k], path[k..]);
    var n := Walk(h, Dict(r), path[..k]).value.ref;
    assert path[k..] == [path[k]];
    assert path[k..][1..] == [];
    assert Walk(h, Dict(r), path).value == h[n][path[k]];
    assert h[n][path[k] := h[n][path[k]]] == h[n];
    assert h[n := h[n]] == h;
    WriteAtExisting(h, r, path, Walk(h, Dict(r), path).value, n);
  }

  /** After a write along a path that does not revisit its last entry, the way to the last part exists. */
  lemma WayAfterWrite(h: Heap, g: Heap, r: nat, path: seq<string>, x: Value)
    requires Writes(h, g, r, path, x) && !Revisits(h, r, path)
    ensures var i := Depth(h, r, path);
            Walk(g, Dict(r), path[..|path| - 1]) ==
            Some(Dict(if i == |path| - 1 then Site(h, r, path) else |h| + |path| - i - 2))
  {
    var i, n, k := Depth(h, r, path), Site(h, r, path), |path| - 1;
    var rest, way := path[i + 1..], path[..k];
    SiteOnPath(h, r, path);
    if i == k {
      NewEntryLeadsOn(h, g, r, path, x, []);
      UncrossedUnchanged(h, g, n, path[i], Head(|h|, rest, x), Chain(|h|, rest, x), Dict(r), way);
    } else {
      var mid := rest[..|rest| - 1];
      NewEntryLeadsOn(h, g, r, path, x, mid);
      assert way[..i] == path[..i] && way[i + 1..] == mid;
      UseReachesNew(h, g, n, path[i], Head(|h|, rest, x), Chain(|h|, rest, x), Dict(r), way, i);
    }
  }

  lemma SecondWriteToExisting(h: Heap, g: Heap, r: nat, path: seq<string>, x: Value, y: Value)
    requires Writes(h, g, r, path, x) && !Revisits(h, r, path) && Depth(h, r, path) == |path| - 1
    ensures Written(g, r, path, y) == Written(h, r, path, y)
  {
    var n, k := Site(h, r, path), |path| - 1;
    WayAfterWrite(h, g, r, path, x);
    SiteOnPath(h, r, path);
    WriteAtExisting(h, r, path, x, n);
    WriteAtExisting(h, r, path, y, n);
    WriteAtExisting(g, r, path, y, n);
    assert h[n][path[k] := x][path[k] := y] == h[n][path[k] := y];
    assert g[n := g[n][path[k] := y]] == h[n := h[n][path[k] := y]];
  }

  lemma SecondWriteToNew(h: Heap, g: Heap, r: nat, path: seq<string>, x: Value, y: Value)
    requires Writes(h, g, r, path, x) && !Revisits(h, r, path) && Depth(h, r, path) < |path| - 1
    ensures Written(g, r, path, y) == Written(h, r, path, y)
  {
    var i, n := Depth(h, r, path), Site(h, r, path);
    var rest := path[i + 1..];
    WayAfterWrite(h, g, r, path, x);
    WriteIsOneEntry(h, r, path, x);
    WriteIsOneEntry(h, r, path, y);
    WriteAtExisting(g, r, path, y, |h| + |rest| - 1);
    HeapChainLast(h[n := h[n][path[i] := Dict(|h|)]], rest, x, y);
    assert rest[|rest| - 1] == path[|path| - 1];
  }

  /**
   In any heap, a second write to a path that does not revisit the entry written overrides the first: the
   heap is as if it alone had been made. After a plain value this happens exactly then: along a revisiting
   path that value is in the way and the second write fails.
   */
  lemma SecondWriteWins(h: Heap, g: Heap, r: nat, path: seq<string>, x: Value, y: Value)
    requires Writes(h, g, r, path, x)
    ensures !Revisits(h, r, path) ==> Written(g, r, path, y) == Written(h, r, path, y)
    ensures x.Leaf? ==> (Written(g, r, path, y) == Written(h, r, path, y) <==> !Revisits(h, r, path))
    ensures x.Leaf? && Revisits(h, r, path) ==> Written(g, r, path, y).None?
  {
    if !Revisits(h, r, path) {
      if Depth(h, r, path) == |path| - 1 {
        SecondWriteToExisting(h, g, r, path, x, y);
      } else {
        SecondWriteToNew(h, g, r, path, x, y);
      }
    } else {
      var j := RevisitReachesNew(h, g, r, path, x);
      assert x.Leaf? ==> LeafAt(g, Dict(r), path, j + 1);
      FailsIff(g, r, path, y);
      WriteIsOneEntry(h, r, path, x);
      WriteIsOneEntry(h, r, path, y);
    }
  }

  /** So in a tree a second write always wins. */
  lemma TreeSecondWriteWins(h: Heap, g: Heap, r: nat, path: seq<string>, x: Value, y: Value)
    requires Writes(h, g, r, path, x) && Tree(h, Dict(r))
    ensures Written(g, r, path, y) == Written(h, r, path, y)
  {
    TreeNeverRevisits(h, r, path);
    SecondWriteWins(h, g, r, path, x, y);
  }

  /** The value after `k` steps exists and is not a dictionary. */
  ghost predicate LeafAt(h: Heap, v: Value, path: seq<string>, k: nat)
    requires Closed(h) && Known(h, v) && k <= |path|
  {
    Walk(h, v, path[..k]).Some? && Walk(h, v, path[..k]).value.Leaf?
  }

  /** A write fails exactly when some value strictly on the way is not a dictionary. */
  lemma {:induction false} FailsIff(h: Heap, r: nat, path: seq<string>, x: Value)
    requires Closed(h) && r < |h| && path != []
    ensures Written(h, r, path, x).None? <==> exists k :: 0 < k < |path| && LeafAt(h, Dict(r), path, k)
    decreases |path|
  {
    var rest := path[1..];
    forall k | 0 < k < |path|
      ensures LeafAt(h, Dict(r), path, k) == (path[0] in h[r] && LeafAt(h, h[r][path[0]], rest, k - 1))
    {
      assert path[..k][1..] == rest[..k - 1];
    }
    if rest != [] && path[0] in h[r] {
      var next := h[r][path[0]];
      if next.Leaf? {
        assert LeafAt(h, Dict(r), path, 1);
      } else {
        FailsIff(h, next.ref, rest, x);
        assert forall k :: 0 < k < |rest| && LeafAt(h, next, rest, k) ==> LeafAt(h, Dict(r), path, k + 1);
      }
    }
  }

  // ── Trees stay trees ───────────────────────────────────────────────────────

  /** A value that shares no dictionary with the store, and is a tree itself: any plain value, for one. */
  ghost predicate Separate(h: Heap, r: nat, x: Value)
    requires Closed(h) && r < |h| && Known(h, x)
  {
    && Tree(h, x)
    && (forall p, q :: Walk(h, Dict(r), p).Some? && Walk(h, Dict(r), p).value.Dict? ==>
          Walk(h, x, q) != Walk(h, Dict(r), p))
  }

  /** Below a separate value the write changes nothing. */
  lemma SeparateUnchanged(h: Heap, g: Heap, r: nat, path: seq<string>, x: Value, q: seq<string>)
    requires Writes(h, g, r, path, x) && Separate(h, r, x)
    ensures Walk(g, x, q) == Walk(h, x, q)
  {
    SiteOnPath(h, r, path);
    var i, n := Depth(h, r, path), Site(h, r, path);
    var rest := path[i + 1..];
    NewEntryLeadsOn(h, g, r, path, x, rest);
    if Crosses(h, x, q, n, path[i]) {
      var j := FirstUse(h, x, q, n, path[i]);
      assert false;
    }
    UncrossedUnchanged(h, g, n, path[i], Head(|h|, rest, x), Chain(|h|, rest, x), x, q);
  }

  /** Where a dictionary reached after a write comes from. */
  lemma Origin(h: Heap, g: Heap, r: nat, path: seq<string>, x: Value, p: seq<string>, k: nat)
    requires Writes(h, g, r, path, x) && Tree(h, Dict(r)) && Separate(h, r, x)
    requires Walk(g, Dict(r), p) == Some(Dict(k))
    ensures if k >= |h| then |p| == k - |h| + Depth(h, r, path) + 1 && p <= path
            else Walk(h, Dict(r), p) == Some(Dict(k)) || (path <= p && Walk(h, x, p[|path|..]) == Some(Dict(k)))
  {
    if path[..Depth(h, r, path) + 1] <= p {
      ReadsBelowEntry(h, g, r, path, x, p);
      if path <= p {
        SeparateUnchanged(h, g, r, path, x, p[|path|..]);
      }
    } else {
      ReadsElsewhere(h, g, r, path, x, p);
    }
  }

  /** Writing a separate value into a tree leaves a tree. */
  lemma TreeStaysTree(h: Heap, g: Heap, r: nat, path: seq<string>, x: Value)
    requires Writes(h, g, r, path, x) && Tree(h, Dict(r)) && Separate(h, r, x)
    ensures Tree(g, Dict(r))
  {
    forall p, q |
      && Walk(g, Dict(r), p).Some? && Walk(g, Dict(r), p).value.Dict?
      && Walk(g, Dict(r), q) == Walk(g, Dict(r), p)
      ensures p == q
    {
      var k := Walk(g, Dict(r), p).value.ref;
      Origin(h, g, r, path, x, p, k);
      Origin(h, g, r, path, x, q, k);
      if k < |h| {
        assert path <= p ==> p == path + p[|path|..];
        assert path <= q ==> q == path + q[|path|..];
      }
    }
  }

  // ── Shared dictionaries ────────────────────────────────────────────────────

  /**
   Outside trees the laws fail. A dictionary put under its own key: the value written through it is
   not read back.
   */
  lemma SelfReferenceLosesWrite()
    ensures var h, path, x := [map["a" := Dict(0)]], ["a", "a"], Leaf(Bool(true));
            && Closed(h) && Revisits(h, 0, path)
            && Written(h, 0, path, x) == Some([map["a" := x]])
            && Walk([map["a" := x]], Dict(0), path) == None
  {
    var h, path, x := [map["a" := Dict(0)]], ["a", "a"], Leaf(Bool(true));
    assert path[1..] == ["a"] && path[..1] == ["a"] && path[1..][1..] == [];
    assert h[0]["a" := x] == map["a" := x];
    assert h[0 := h[0]["a" := x]] + [] == [map["a" := x]];
  }

  /** A dictionary stored on two paths: a write on one is read on the other. */
  lemma SharingInterferes()
    ensures var h := [map["a" := Dict(1), "b" := Dict(1)], map[]];
            var g := [map["a" := Dict(1), "b" := Dict(1)], map["x" := Leaf(Bool(true))]];
            && Closed(h) && Closed(g)
            && Written(h, 0, ["a", "x"], Leaf(Bool(true))) == Some(g)
            && Walk(h, Dict(0), ["b", "x"]) == None
            && Walk(g, Dict(0), ["b", "x"]) == Some(Leaf(Bool(true)))
  {
    assert ["a", "x"][1..] == ["x"] && ["b", "x"][1..] == ["x"] && ["x"][1..] == [];
    var h := [map["a" := Dict(1), "b" := Dict(1)], map[]];
    var g := [map["a" := Dict(1), "b" := Dict(1)], map["x" := Leaf(Bool(true))]];
    assert h[1 := map["x" := Leaf(Bool(true))]] + [] == g;
  }
}

/**
 The identity store over whole runs: a JSON file loaded into dictionaries, then any writes of any JSON
 values, objects included. What each path holds is read off the file and the writes alone.
 */
module IdentityRuns {
  import opened Text
  import opened Json
  import opened IdentityMemory

  // ── JSON values as dictionaries ────────────────────────────────────────────

  /** A value with new dictionaries for its objects. */
  function Install(h: Heap, j: Json): (Heap, Value)
    decreases j
  {
    if j.Obj? then
      var (g, entries) := InstallAll(h, j.members);
      (g + [entries], Dict(|g|))
    else (h, Leaf(j))
  }

  function InstallAll(h: Heap, ms: seq<Member>): (Heap, map<string, Value>)
    decreases ms
  {
    if ms == [] then (h, map[])
    else
      var m := ms[|ms| - 1];
      var (g, entries) := InstallAll(h, ms[..|ms| - 1]);
      var (k, v) := Install(g, m.value);
      (k, entries[m.key := v])
  }

  /** What a path holds: nothing, a dictionary, or a plain value. */
  datatype Held = Nothing | Dictionary | Plain(json: Json)

  function Kind(o: Option<Value>): Held {
    match o
    case None => Nothing
    case Some(Dict(_)) => Dictionary
    case Some(Leaf(j)) => Plain(j)
  }

  /** What a path into a JSON value holds. */
  function At(j: Json, q: seq<string>): Held
    decreases |q|
  {
    if q == [] then if j.Obj? then Dictionary else Plain(j)
    else if j.Obj? && Get(j.members, q[0]).Some? then At(Get(j.members, q[0]).value, q[1..])
    else Nothing
  }

  lemma {:induction false} WalkGrown(h: Heap, g: Heap, v: Value, q: seq<string>)
    requires Closed(h) && Closed(g) && h <= g && Known(h, v)
    ensures Known(g, v) && Walk(g, v, q) == Walk(h, v, q)
    decreases |q|
  {
    if q != [] && v.Dict? && q[0] in h[v.ref] {
      WalkGrown(h, g, h[v.ref][q[0]], q[1..]);
    }
  }

  ghost predicate IsDict(o: Option<Value>) {
    o.Some? && o.value.Dict?
  }

  /** Every dictionary under `v` is new: its index is at least `lo`. */
  ghost predicate New(g: Heap, lo: nat, v: Value)
    requires Closed(g) && Known(g, v)
  {
    forall q :: IsDict(Walk(g, v, q)) ==> lo <= Walk(g, v, q).value.ref
  }

  ghost predicate Holds(g: Heap, v: Value, j: Json)
    requires Closed(g) && Known(g, v)
  {
    forall q :: Kind(Walk(g, v, q)) == At(j, q)
  }

  /** `v` is the JSON value as a tree of new dictionaries. */
  ghost predicate Built(g: Heap, lo: nat, v: Value, j: Json) {
    Closed(g) && Known(g, v) && New(g, lo, v) && Holds(g, v, j) && Tree(g, v)
  }

  /** No dictionary is under both. */
  ghost predicate Apart(g: Heap, v: Value, w: Value)
    requires Closed(g) && Known(g, v) && Known(g, w)
  {
    forall p, q :: IsDict(Walk(g, v, p)) ==> Walk(g, w, q) != Walk(g, v, p)
  }

  lemma BuiltGrown(g: Heap, k: Heap, lo: nat, v: Value, j: Json)
    requires Built(g, lo, v, j) && g <= k && Closed(k)
    ensures Built(k, lo, v, j)
  {
    forall q ensures Known(k, v) && Walk(k, v, q) == Walk(g, v, q) {
      WalkGrown(g, k, v, q);
    }
  }

  lemma ApartGrown(g: Heap, k: Heap, v: Value, w: Value)
    requires Closed(g) && Closed(k) && g <= k && Known(g, v) && Known(g, w) && Apart(g, v, w)
    ensures Known(k, v) && Known(k, w) && Apart(k, v, w)
  {
    forall q ensures Walk(k, v, q) == Walk(g, v, q) && Walk(k, w, q) == Walk(g, w, q) {
      WalkGrown(g, k, v, q);
      WalkGrown(g, k, w, q);
    }
  }

  /** What is old and what is new are apart. */
  lemma OldAndNew(g: Heap, k: Heap, v: Value, w: Value)
    requires Closed(g) && Closed(k) && g <= k && Known(g, v) && Known(k, w) && New(k, |g|, w)
    ensures Known(k, v) && Apart(k, v, w) && Apart(k, w, v)
  {
    forall q ensures Walk(k, v, q) == Walk(g, v, q) {
      WalkGrown(g, k, v, q);
    }
  }

  ghost predicate AllBuilt(g: Heap, lo: nat, entries: map<string, Value>, ms: seq<Member>) {
    && Closed(g)
    && (forall key :: key in entries <==> Get(ms, key).Some?)
    && (forall key :: key in entries ==> Built(g, lo, entries[key], Get(ms, key).value))
    && (forall a, b :: a in entries && b in entries && a != b ==> Apart(g, entries[a], entries[b]))
  }

  lemma AllBuiltGrown(g: Heap, k: Heap, lo: nat, entries: map<string, Value>, ms: seq<Member>)
    requires AllBuilt(g, lo, entries, ms) && g <= k && Closed(k)
    ensures AllBuilt(k, lo, entries, ms)
  {
    forall key | key in entries ensures Built(k, lo, entries[key], Get(ms, key).value) {
      BuiltGrown(g, k, lo, entries[key], Get(ms, key).value);
    }
    forall a, b | a in entries && b in entries && a != b ensures Apart(k, entries[a], entries[b]) {
      ApartGrown(g, k, entries[a], entries[b]);
    }
  }

  /** One more member; a repeated key keeps its last value. */
  lemma OneMoreMember(h: Heap, g: Heap, k: Heap, lo: nat, entries: map<string, Value>, ms: seq<Member>, m: Member,
                      v: Value)
    requires AllBuilt(g, lo, entries, ms) && g <= k && lo <= |g| && Built(k, |g|, v, m.value)
    ensures AllBuilt(k, lo, entries[m.key := v], ms + [m])
  {
    AllBuiltGrown(g, k, lo, entries, ms);
    assert (ms + [m])[..|ms|] == ms;
    var es := entries[m.key := v];
    forall a, b | a in es && b in es && a != b ensures Apart(k, es[a], es[b]) {
      if a == m.key {
        OldAndNew(g, k, es[b], v);
      } else if b == m.key {
        OldAndNew(g, k, es[a], v);
      }
    }
  }

  ghost predicate AllKnown(g: Heap, entries: map<string, Value>) {
    forall key :: key in entries ==> Known(g, entries[key])
  }

  lemma DictionaryClosed(g: Heap, entries: map<string, Value>)
    requires Closed(g) && AllKnown(g, entries)
    ensures Closed(g + [entries])
  {
    var k := g + [entries];
    assert forall r :: 0 <= r < |g| ==> k[r] == g[r];
  }

  /** Walking from a new dictionary. */
  lemma DictionaryWalk(g: Heap, entries: map<string, Value>, q: seq<string>)
    requires Closed(g) && AllKnown(g, entries) && Closed(g + [entries])
    ensures Walk(g + [entries], Dict(|g|), q) ==
            if q == [] then Some(Dict(|g|))
            else if q[0] in entries then Walk(g, entries[q[0]], q[1..])
            else None
  {
    if q != [] && q[0] in entries {
      WalkGrown(g, g + [entries], entries[q[0]], q[1..]);
    }
  }

  lemma OnePathEach(g: Heap, lo: nat, entries: map<string, Value>, ms: seq<Member>, p: seq<string>, q: seq<string>)
    requires AllBuilt(g, lo, entries, ms) && p != [] && q != [] && p[0] in entries && q[0] in entries
    requires IsDict(Walk(g, entries[p[0]], p[1..])) && Walk(g, entries[q[0]], q[1..]) == Walk(g, entries[p[0]], p[1..])
    ensures p == q
  {
    if p[0] == q[0] {
      assert p == [p[0]] + p[1..] && q == [q[0]] + q[1..];
    } else {
      assert false;
    }
  }

  /** A dictionary of built entries is built. */
  lemma DictionaryBuilt(g: Heap, lo: nat, entries: map<string, Value>, ms: seq<Member>)
    requires AllBuilt(g, lo, entries, ms) && lo <= |g|
    ensures Built(g + [entries], lo, Dict(|g|), Obj(ms))
  {
    var k, v := g + [entries], Dict(|g|);
    DictionaryClosed(g, entries);
    forall q
      ensures Kind(Walk(k, v, q)) == At(Obj(ms), q) && (IsDict(Walk(k, v, q)) ==> lo <= Walk(k, v, q).value.ref)
    {
      DictionaryWalk(g, entries, q);
      assert q != [] && q[0] in entries ==> Built(g, lo, entries[q[0]], Get(ms, q[0]).value);
    }
    forall p, q | IsDict(Walk(k, v, p)) && Walk(k, v, q) == Walk(k, v, p) ensures p == q {
      DictionaryWalk(g, entries, p);
      DictionaryWalk(g, entries, q);
      if p != [] && q != [] {
        OnePathEach(g, lo, entries, ms, p, q);
      }
    }
  }

  lemma {:induction false} InstallBuilds(h: Heap, j: Json)
    requires Closed(h)
    ensures var (g, v) := Install(h, j); h <= g && Built(g, |h|, v, j)
    decreases j
  {
    if j.Obj? {
      var (g, entries) := InstallAll(h, j.members);
      InstallAllBuilds(h, j.members);
      DictionaryBuilt(g, |h|, entries, j.members);
    }
  }

  lemma {:induction false} InstallAllBuilds(h: Heap, ms: seq<Member>)
    requires Closed(h)
    ensures var (g, entries) := InstallAll(h, ms); h <= g && AllBuilt(g, |h|, entries, ms)
    decreases ms
  {
    if ms != [] {
      var init, m := ms[..|ms| - 1], ms[|ms| - 1];
      InstallAllBuilds(h, init);
      var (g, entries) := InstallAll(h, init);
      InstallBuilds(g, m.value);
      var (k, v) := Install(g, m.value);
      OneMoreMember(h, g, k, |h|, entries, init, m, v);
      assert ms == init + [m];
    }
  }

  // ── Whole runs ─────────────────────────────────────────────────────────────

  datatype Write = Write(path: seq<string>, json: Json)

  /** The root of the dictionaries of a loaded file. */
  function Root(file: seq<Member>): nat {
    |InstallAll([], file).0|
  }

  function Loaded(file: seq<Member>): Heap {
    Install([], Obj(file)).0
  }

  /** The heap after one write; a failed one changes nothing. */
  ghost function AfterWrite(h: Heap, r: nat, w: Write): (g: Heap)
    requires Closed(h) && r < |h| && w.path != []
    ensures Closed(g) && r < |g|
  {
    InstallBuilds(h, w.json);
    var (k, x) := Install(h, w.json);
    WrittenClosed(k, r, w.path, x);
    match Written(k, r, w.path, x) case Some(g) => g case None => h
  }

  ghost function After(file: seq<Member>, ws: seq<Write>): (h: Heap)
    requires forall w :: w in ws ==> w.path != []
    ensures Closed(h) && Root(file) < |h|
  {
    if ws == [] then
      InstallBuilds([], Obj(file));
      Loaded(file)
    else AfterWrite(After(file, ws[..|ws| - 1]), Root(file), ws[|ws| - 1])
  }

  /** What a path holds, read off the file and the writes alone: the last write that counts decides. */
  ghost function Expected(file: seq<Member>, ws: seq<Write>, q: seq<string>): Held {
    if ws == [] then At(Obj(file), q)
    else
      var before, w := ws[..|ws| - 1], ws[|ws| - 1];
      if exists k :: 0 < k < |w.path| && Expected(file, before, w.path[..k]).Plain? then Expected(file, before, q)
      else if w.path <= q then At(w.json, q[|w.path|..])
      else if q < w.path then Dictionary
      else Expected(file, before, q)
  }

  /** One write, in a tree. */
  lemma WriteShows(h: Heap, r: nat, w: Write, q: seq<string>)
    requires Closed(h) && r < |h| && w.path != [] && Tree(h, Dict(r))
    ensures var g := AfterWrite(h, r, w);
            && Tree(g, Dict(r))
            && Kind(Walk(g, Dict(r), q)) ==
               if exists k :: 0 < k < |w.path| && LeafAt(h, Dict(r), w.path, k) then Kind(Walk(h, Dict(r), q))
               else if w.path <= q then At(w.json, q[|w.path|..])
               else if q < w.path then Dictionary
               else Kind(Walk(h, Dict(r), q))
  {
    InstallBuilds(h, w.json);
    var (k, x) := Install(h, w.json);
    forall p ensures Walk(k, Dict(r), p) == Walk(h, Dict(r), p) {
      WalkGrown(h, k, Dict(r), p);
    }
    FailsIff(k, r, w.path, x);
    assert forall i :: 0 < i < |w.path| ==> LeafAt(k, Dict(r), w.path, i) == LeafAt(h, Dict(r), w.path, i);
    OldAndNew(h, k, Dict(r), x);
    WrittenClosed(k, r, w.path, x);
    match Written(k, r, w.path, x)
    case None =>
    case Some(g) =>
      TreeStaysTree(k, g, r, w.path, x);
      ReadsAfterWrite(k, g, r, w.path, x, q);
      if w.path <= q {
        SeparateUnchanged(k, g, r, w.path, x, q[|w.path|..]);
      }
  }

  /**
   Over every file and every run of writes of any JSON values, failed ones included, the store stays a
   tree and every path holds what the file and the writes alone determine.
   */
  lemma {:induction false} StoreIsPathMap(file: seq<Member>, ws: seq<Write>, q: seq<string>)
    requires forall w :: w in ws ==> w.path != []
    ensures Tree(After(file, ws), Dict(Root(file)))
    ensures Kind(Walk(After(file, ws), Dict(Root(file)), q)) == Expected(file, ws, q)
  {
    if ws == [] {
      InstallBuilds([], Obj(file));
    } else {
      var before, w, r := ws[..|ws| - 1], ws[|ws| - 1], Root(file);
      var h := After(file, before);
      StoreIsPathMap(file, before, q);
      forall k | 0 < k < |w.path|
        ensures LeafAt(h, Dict(r), w.path, k) == Expected(file, before, w.path[..k]).Plain?
      {
        StoreIsPathMap(file, before, w.path[..k]);
      }
      WriteShows(h, r, w, q);
    }
  }
}

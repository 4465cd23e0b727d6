/** Request metadata on a context (drpcmetadata/metadata.go). A context is a
    chain of derived values; the metadata slot holds a reference to one
    mutable key/value map (or nothing), so contexts derived from one another
    share the map and an addition through one is seen through all of them. */
module Metadata {
  import opened Drpc

  /** The mutable key/value map a context's metadata slot refers to. */
  class MetadataMap {
    var entries: map<string, string>

    constructor (entries: map<string, string>)
      ensures this.entries == entries
    {
      this.entries := entries;
    }
  }

  /** A context: the background, a context deriving a new metadata slot value
      (a map, or nil), or a context deriving a value under some other key. The
      metadata key is private to the package, so no other key can hit it. */
  datatype Context =
    | Background
    | WithMetadata(parent: Context, md: Option<MetadataMap>)
    | WithOther(parent: Context, key: nat, val: nat)

  /** Get: the nearest metadata slot's map; none when there is no slot or the
      nearest one holds nil. */
  function Get(ctx: Context): (r: Option<MetadataMap>)
    decreases ctx
  {
    match ctx
    case Background => None
    case WithMetadata(_, md) => md
    case WithOther(parent, _, _) => Get(parent)
  }

  /** The map a context refers to is an object that already exists. */
  lemma {:induction false} GetAllocated(ctx: Context)
    ensures Get(ctx).Some? ==> allocated(Get(ctx).value)
    decreases ctx
  {
    if ctx.WithOther? {
      GetAllocated(ctx.parent);
    }
  }

  /** The map (if any) the context's metadata refers to. */
  function Footprint(ctx: Context): set<object>
  {
    if Get(ctx).Some? then {Get(ctx).value} else {}
  }

  /** The value under another package's key. */
  function Value(ctx: Context, key: nat): Option<nat>
    decreases ctx
  {
    match ctx
    case Background => None
    case WithMetadata(parent, _) => Value(parent, key)
    case WithOther(parent, k, v) => if k == key then Some(v) else Value(parent, key)
  }

  /** The entries a context's metadata holds; empty when it holds none. */
  function Entries(ctx: Context): map<string, string>
    reads Footprint(ctx)
  {
    if Get(ctx).Some? then Get(ctx).value.entries else map[]
  }

  /** GetValue: the value for `key`, found only if the context has metadata
      and the key is in it; otherwise ("", false). */
  function GetValue(ctx: Context, key: string): (r: (string, bool))
    reads Footprint(ctx)
    ensures r.1 <==> Get(ctx).Some? && key in Get(ctx).value.entries
    ensures r.1 ==> r.0 == Get(ctx).value.entries[key]
    ensures !r.1 ==> r.0 == ""
  {
    match Get(ctx)
    case None => ("", false)
    case Some(md) => if key in md.entries then (md.entries[key], true) else ("", false)
  }

  /** ClearContext: derive a context whose metadata slot holds nil. */
  function ClearContext(ctx: Context): (r: Context)
    ensures Get(r).None?
    ensures forall k :: Value(r, k) == Value(ctx, k)
  {
    WithMetadata(ctx, None)
  }

  /** Add: put `key := value` into the context's map, which is changed in
      place when there is one (the context is returned as it is); otherwise
      derive a context holding a fresh map. */
  method Add(ctx: Context, key: string, value: string) returns (r: Context)
    modifies Footprint(ctx)
    ensures Get(r).Some? && Get(r).value.entries == old(Entries(ctx))[key := value]
    ensures Get(ctx).Some? ==> r == ctx
    ensures Get(ctx).None? ==> r.WithMetadata? && r.parent == ctx && r.md.Some? && fresh(r.md.value)
  {
    var md := Get(ctx);
    r := ctx;
    if md.None? {
      var m := new MetadataMap(map[]);
      md := Some(m);
      r := WithMetadata(ctx, md);
    }
    md.value.entries := md.value.entries[key := value];
  }

  /** AddPairs: add every pair of `pairs`, in no particular order; the keys
      are distinct, so the order cannot matter. With no pairs the context is
      returned untouched, without a map. */
  method AddPairs(ctx: Context, pairs: map<string, string>) returns (r: Context)
    modifies Footprint(ctx)
    ensures |pairs| == 0 ==> r == ctx && Entries(ctx) == old(Entries(ctx))
    ensures |pairs| > 0 ==> Get(r).Some? && Get(r).value.entries == old(Entries(ctx)) + pairs
    ensures Get(ctx).Some? ==> r == ctx
    ensures Get(ctx).None? && |pairs| > 0 ==> r.WithMetadata? && r.parent == ctx && r.md.Some? && fresh(r.md.value)
  {
    ghost var base := Entries(ctx);
    ghost var done: map<string, string> := map[];
    ghost var started := false;
    ghost var mm := Get(ctx);
    r := ctx;
    var todo := pairs.Keys;
    while todo != {}
      invariant todo <= pairs.Keys && done == pairs - todo
      invariant started == (done != map[])
      invariant !started ==> r == ctx && done == map[] && Entries(ctx) == base
      invariant started ==> mm.Some? && Get(r) == mm && mm.value.entries == base + done
      invariant Get(ctx).Some? ==> r == ctx && mm == Get(ctx)
      invariant Get(ctx).None? && started ==> r == WithMetadata(ctx, mm) && fresh(mm.value)
      decreases |todo|
    {
      var k :| k in todo;
      r := Add(r, k, pairs[k]);
      mm := Get(r);
      PairsStep(base, pairs, todo, done, k);
      done := done[k := pairs[k]];
      todo := todo - {k};
      started := true;
    }
    PairsDone(pairs, done);
  }

  lemma PairsStep(base: map<string, string>, pairs: map<string, string>, todo: set<string>,
                  done: map<string, string>, k: string)
    requires todo <= pairs.Keys && done == pairs - todo && k in todo
    ensures todo - {k} <= pairs.Keys && done[k := pairs[k]] == pairs - (todo - {k})
    ensures done[k := pairs[k]] != map[]
    ensures (base + done)[k := pairs[k]] == base + done[k := pairs[k]]
    ensures base + map[] == base
  {
    assert k in done[k := pairs[k]];
  }

  lemma PairsDone(pairs: map<string, string>, done: map<string, string>)
    requires done == pairs - {}
    ensures done == pairs
  {
  }

  /** ClearContextExcept: if the context's metadata holds `key`, derive a
      context holding a new map with only that pair; otherwise clear. */
  method ClearContextExcept(ctx: Context, key: string) returns (r: Context)
    ensures GetValue(ctx, key).1 ==>
              r.WithMetadata? && r.parent == ctx && Get(r).Some? && fresh(Get(r).value)
              && Get(r).value.entries == map[key := GetValue(ctx, key).0]
    ensures !GetValue(ctx, key).1 ==> r == ClearContext(ctx)
  {
    var md := Get(ctx);
    if md.None? {
      return ClearContext(ctx);
    }
    if key !in md.value.entries {
      return ClearContext(ctx);
    }
    GetAllocated(ctx);
    var m := new MetadataMap(map[key := md.value.entries[key]]);
    r := WithMetadata(ctx, Some(m));
  }

  /** Contexts derived from one another share one map: a pair added through a
      derived context is seen through its ancestor; the map ClearContextExcept
      makes is a new one, and additions to it are not seen through the
      original context; a cleared context holds no metadata. */
  method SharedMetadata() returns (viaParent: (string, bool), afterExcept: (string, bool),
                                   kept: (string, bool), cleared: (string, bool))
    ensures viaParent == ("2", true)
    ensures afterExcept == ("", false)
    ensures kept == ("1", true)
    ensures cleared == ("", false)
  {
    var c1 := Add(Background, "a", "1");
    var c2 := WithOther(c1, 7, 8);
    var c3 := Add(c2, "b", "2");
    viaParent := GetValue(c1, "b");
    var c4 := ClearContextExcept(c3, "a");
    var c5 := Add(c4, "c", "3");
    afterExcept := GetValue(c1, "c");
    kept := GetValue(c5, "a");
    cleared := GetValue(ClearContext(c3), "a");
  }

  /** Pairs added to a context with metadata overwrite the keys they share
      and keep the others; no pairs on a context without metadata leave it
      without metadata. */
  method AddPairsMerges() returns (a: (string, bool), b: (string, bool), c: (string, bool), none: (string, bool))
    ensures a == ("1", true) && b == ("3", true) && c == ("4", true)
    ensures none == ("", false)
  {
    var c1 := AddPairs(Background, map["a" := "1", "b" := "2"]);
    var c2 := AddPairs(c1, map["b" := "3", "c" := "4"]);
    a, b, c := GetValue(c2, "a"), GetValue(c2, "b"), GetValue(c2, "c");
    var c3 := AddPairs(Background, map[]);
    none := GetValue(c3, "a");
  }
}

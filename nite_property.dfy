/**
 * CNiTEProperty: the fixed table of the nine calibration properties NiTE needs,
 * each with its load flag and its byte buffer, loaded from one stream after
 * another and finally written into the virtual stream.
 */
module NiteProperty {
  import opened Wrappers
  import opened OpenNI

  /** A row of the catalog: property id, buffer size in bytes, diagnostic name. */
  datatype Entry = Entry(id: PropertyId, size: nat, name: string)

  /** The table's rows, in the order the constructor pushes them. */
  const Catalog: seq<Entry> := [
    Entry(ConstShift, 8, "XN_STREAM_PROPERTY_CONST_SHIFT"),
    Entry(ParamCoeff, 8, "XN_STREAM_PROPERTY_PARAM_COEFF"),
    Entry(ShiftScale, 8, "XN_STREAM_PROPERTY_SHIFT_SCALE"),
    Entry(MaxShift, 8, "XN_STREAM_PROPERTY_MAX_SHIFT"),
    Entry(S2DTable, 4096, "XN_STREAM_PROPERTY_S2D_TABLE"),
    Entry(D2STable, 20002, "XN_STREAM_PROPERTY_D2S_TABLE"),
    Entry(ZeroPlaneDistance, 8, "XN_STREAM_PROPERTY_ZERO_PLANE_DISTANCE"),
    Entry(ZeroPlanePixelSize, 8, "XN_STREAM_PROPERTY_ZERO_PLANE_PIXEL_SIZE"),
    Entry(EmitterDcmosDistance, 8, "XN_STREAM_PROPERTY_EMITTER_DCMOS_DISTANCE")
  ]

  /** CProperty: its id, name, load flag and buffer (whose length is its size). */
  datatype Property = Property(id: PropertyId, name: string, loaded: bool, data: seq<byte>)

  /** CProperty(idx, size, name): not loaded, with a zero-filled buffer of `size` bytes. */
  function NewProperty(e: Entry): (p: Property)
    ensures p.id == e.id && p.name == e.name && |p.data| == e.size
    ensures !p.loaded
    ensures forall k :: 0 <= k < |p.data| ==> p.data[k] == 0
  {
    Property(e.id, e.name, false, seq(e.size, _ => 0))
  }

  /** The table right after construction. */
  function InitialTable(): seq<Property> {
    seq(|Catalog|, i requires 0 <= i < |Catalog| => NewProperty(Catalog[i]))
  }

  /** The catalog row a table entry stands for: what no operation may change. */
  function Shape(t: seq<Property>): seq<Entry> {
    seq(|t|, i requires 0 <= i < |t| => Entry(t[i].id, |t[i].data|, t[i].name))
  }

  /** The buffer size of every entry, in table order. */
  function Sizes(t: seq<Property>): seq<nat> {
    seq(|t|, i requires 0 <= i < |t| => |t[i].data|)
  }

  /** The completeness test that ends LoadProperties (all_of ... bLoad). */
  predicate AllLoaded(t: seq<Property>) {
    forall i :: 0 <= i < |t| ==> t[i].loaded
  }

  /** Does a pass with this `overwrite` flag query the entry? */
  predicate Queried(p: Property, overwrite: bool) {
    overwrite || !p.loaded
  }

  /** One entry of a LoadProperties pass over a stream holding `store`. */
  function LoadEntry(p: Property, store: PropertyStore, overwrite: bool): (q: Property)
    ensures q.id == p.id && q.name == p.name && |q.data| == |p.data|
    ensures q.loaded <==> p.loaded || (Queried(p, overwrite) && Fetch(store, p.id, |p.data|).Some?)
    ensures Queried(p, overwrite) && p.id in store && |store[p.id]| == |p.data| ==> q.data == store[p.id]
    ensures !(Queried(p, overwrite) && Fetch(store, p.id, |p.data|).Some?) ==> q == p
  {
    if Queried(p, overwrite) then
      match Fetch(store, p.id, |p.data|)
      case Some(d) => p.(loaded := true, data := d)
      case None => p
    else p
  }

  /** A whole LoadProperties pass, entry by entry in table order. */
  function LoadAll(t: seq<Property>, store: PropertyStore, overwrite: bool): (r: seq<Property>)
    ensures |r| == |t|
    ensures forall i :: 0 <= i < |t| ==> r[i] == LoadEntry(t[i], store, overwrite)
  {
    if t == [] then [] else [LoadEntry(t[0], store, overwrite)] + LoadAll(t[1..], store, overwrite)
  }

  /** The getProperty calls a LoadProperties pass issues, in order. */
  function Queries(t: seq<Property>, s: StreamRef, overwrite: bool): seq<Event> {
    if t == [] then []
    else (if Queried(t[0], overwrite) then [PropertyGet(s, t[0].id)] else []) + Queries(t[1..], s, overwrite)
  }

  /** The setProperty calls WriteProperties issues, in order. */
  function Writes(t: seq<Property>, s: StreamRef): seq<Event> {
    if t == [] then [] else [PropertySet(s, t[0].id, t[0].data)] + Writes(t[1..], s)
  }

  /** The names WriteProperties reports as failed writes, in order. */
  function WriteFailures(t: seq<Property>, accepted: set<PropertyId>): seq<string> {
    if t == [] then []
    else (if t[0].id in accepted then [] else [t[0].name]) + WriteFailures(t[1..], accepted)
  }

  /** Extending a pass by one entry adds that entry's query, if it qualifies. */
  lemma QueriesStep(t: seq<Property>, i: nat, s: StreamRef, overwrite: bool)
    requires i < |t|
    ensures Queries(t[..i + 1], s, overwrite) ==
      Queries(t[..i], s, overwrite) + (if Queried(t[i], overwrite) then [PropertyGet(s, t[i].id)] else [])
  {
    assert t[..i + 1] == t[..i] + [t[i]];
    QueriesAppend(t[..i], [t[i]], s, overwrite);
    assert [t[i]][1..] == [];
  }

  lemma {:induction false} QueriesAppend(a: seq<Property>, b: seq<Property>, s: StreamRef, overwrite: bool)
    ensures Queries(a + b, s, overwrite) == Queries(a, s, overwrite) + Queries(b, s, overwrite)
  {
    if a != [] {
      assert (a + b)[0] == a[0] && (a + b)[1..] == a[1..] + b;
      QueriesAppend(a[1..], b, s, overwrite);
    } else {
      assert a + b == b;
    }
  }

  lemma {:induction false} WritesAppend(a: seq<Property>, b: seq<Property>, s: StreamRef)
    ensures Writes(a + b, s) == Writes(a, s) + Writes(b, s)
  {
    if a != [] {
      assert (a + b)[0] == a[0] && (a + b)[1..] == a[1..] + b;
      WritesAppend(a[1..], b, s);
    } else {
      assert a + b == b;
    }
  }

  lemma {:induction false} WriteFailuresAppend(a: seq<Property>, b: seq<Property>, accepted: set<PropertyId>)
    ensures WriteFailures(a + b, accepted) == WriteFailures(a, accepted) + WriteFailures(b, accepted)
  {
    if a != [] {
      assert (a + b)[0] == a[0] && (a + b)[1..] == a[1..] + b;
      WriteFailuresAppend(a[1..], b, accepted);
    } else {
      assert a + b == b;
    }
  }

  /** CNiTEProperty, with the vector of properties it mutates in place. */
  class NiteProperties {
    var properties: seq<Property>

    /** Every entry keeps the id, name and buffer size the constructor gave it. */
    ghost predicate Valid()
      reads this
    {
      Shape(properties) == Catalog
    }

    constructor ()
      ensures properties == InitialTable() && Valid()
    {
      properties := InitialTable();
      InitialTableShape();
    }

    /**
     * LoadProperties(stream, overwrite): query every entry that is not yet
     * loaded (every entry, with `overwrite`), keep what the stream answers,
     * and report whether the table is now complete.
     */
    method LoadProperties(sdk: Sdk, stream: StreamRef, overwrite: bool) returns (complete: bool)
      modifies this, sdk`trace
      ensures properties == LoadAll(old(properties), sdk.world.Store(stream), overwrite)
      ensures complete <==> AllLoaded(properties)
      ensures sdk.trace == old(sdk.trace) + Queries(old(properties), stream, overwrite)
      ensures Shape(properties) == Shape(old(properties))
      ensures old(Valid()) ==> Valid()
    {
      ghost var t0 := properties;
      ghost var store := sdk.world.Store(stream);
      var i := 0;
      while i < |properties|
        invariant 0 <= i <= |properties| == |t0|
        invariant forall k :: 0 <= k < i ==> properties[k] == LoadEntry(t0[k], store, overwrite)
        invariant forall k :: i <= k < |t0| ==> properties[k] == t0[k]
        invariant sdk.trace == old(sdk.trace) + Queries(t0[..i], stream, overwrite)
      {
        var p := properties[i];
        if overwrite || !p.loaded {
          var r := sdk.GetProperty(stream, p.id, |p.data|);
          if r.Some? {
            properties := properties[i := p.(loaded := true, data := r.value)];
          }
        }
        QueriesStep(t0, i, stream, overwrite);
        i := i + 1;
      }
      assert t0[..i] == t0;
      complete := AllLoaded(properties);
      LoadAllShape(t0, store, overwrite);
    }

    /**
     * WriteProperties(stream): issue setProperty for every entry, in table
     * order, whatever the earlier calls answered; the names whose write failed
     * are the ones the program reports.
     */
    method WriteProperties(sdk: Sdk, stream: StreamRef) returns (failed: seq<string>)
      requires Valid()
      modifies sdk`trace
      ensures sdk.trace == old(sdk.trace) + Writes(properties, stream)
      ensures failed == WriteFailures(properties, sdk.world.Writable(stream))
    {
      ghost var accepted := sdk.world.Writable(stream);
      failed := [];
      var i := 0;
      while i < |properties|
        invariant 0 <= i <= |properties|
        invariant sdk.trace == old(sdk.trace) + Writes(properties[..i], stream)
        invariant failed == WriteFailures(properties[..i], accepted)
      {
        var p := properties[i];
        var ok := sdk.SetProperty(stream, p.id, p.data);
        if !ok {
          failed := failed + [p.name];
        }
        assert properties[..i + 1] == properties[..i] + [p];
        WritesAppend(properties[..i], [p], stream);
        WriteFailuresAppend(properties[..i], [p], accepted);
        i := i + 1;
      }
      assert properties[..i] == properties;
    }
  }

  // ---------------------------------------------------------------------------
  // The table after construction

  lemma InitialTableShape()
    ensures Shape(InitialTable()) == Catalog
    ensures |InitialTable()| == 9 && !exists i :: 0 <= i < 9 && InitialTable()[i].loaded
    ensures Sizes(InitialTable()) == [8, 8, 8, 8, 4096, 20002, 8, 8, 8]
  {
    var t := InitialTable();
    assert forall i :: 0 <= i < 9 ==> t[i] == NewProperty(Catalog[i]);
  }

  /** No two rows of the catalog share an id. */
  lemma CatalogIdsDistinct()
    ensures forall i, j :: 0 <= i < j < |Catalog| ==> Catalog[i].id != Catalog[j].id
  {
  }

  /** A table of the catalog's shape has its rows, row by row, and so nine distinct ids. */
  lemma CatalogShaped(t: seq<Property>)
    requires Shape(t) == Catalog
    ensures |t| == |Catalog|
    ensures forall i :: 0 <= i < |t| ==>
      t[i].id == Catalog[i].id && t[i].name == Catalog[i].name && |t[i].data| == Catalog[i].size
    ensures forall i, j :: 0 <= i < |t| && 0 <= j < |t| && i != j ==> t[i].id != t[j].id
  {
    forall i | 0 <= i < |t|
      ensures t[i].id == Catalog[i].id && t[i].name == Catalog[i].name && |t[i].data| == Catalog[i].size
    {
      assert Shape(t)[i] == Catalog[i];
    }
    CatalogIdsDistinct();
  }

  // ---------------------------------------------------------------------------
  // One pass

  /** A pass never changes an entry's id, name or buffer size. */
  lemma LoadAllShape(t: seq<Property>, store: PropertyStore, overwrite: bool)
    ensures Shape(LoadAll(t, store, overwrite)) == Shape(t)
  {
  }

  /**
   * A pass never unloads an entry, even with `overwrite`; without it an entry
   * already loaded keeps its bytes and is not queried.
   */
  lemma {:induction false} LoadAllMonotone(t: seq<Property>, s: StreamRef, store: PropertyStore, overwrite: bool, i: nat)
    requires i < |t|
    requires forall j :: 0 <= j < |t| && j != i ==> t[j].id != t[i].id
    ensures t[i].loaded ==> LoadAll(t, store, overwrite)[i].loaded
    ensures !overwrite && t[i].loaded ==> LoadAll(t, store, overwrite)[i] == t[i]
    ensures PropertyGet(s, t[i].id) in Queries(t, s, overwrite) <==> Queried(t[i], overwrite)
  {
    QueriesMembers(t, s, overwrite);
  }

  /** The getProperty calls of a pass are exactly one per queried entry. */
  lemma {:induction false} QueriesMembers(t: seq<Property>, s: StreamRef, overwrite: bool)
    ensures forall e :: e in Queries(t, s, overwrite) <==>
      exists j :: 0 <= j < |t| && Queried(t[j], overwrite) && e == PropertyGet(s, t[j].id)
  {
    if t != [] {
      QueriesMembers(t[1..], s, overwrite);
      forall e | e in Queries(t, s, overwrite)
        ensures exists j :: 0 <= j < |t| && Queried(t[j], overwrite) && e == PropertyGet(s, t[j].id)
      {
        if e in Queries(t[1..], s, overwrite) {
          var j :| 0 <= j < |t[1..]| && Queried(t[1..][j], overwrite) && e == PropertyGet(s, t[1..][j].id);
          assert t[j + 1] == t[1..][j];
        } else {
          assert Queried(t[0], overwrite) && e == PropertyGet(s, t[0].id);
        }
      }
      forall e, j | 0 <= j < |t| && Queried(t[j], overwrite) && e == PropertyGet(s, t[j].id)
        ensures e in Queries(t, s, overwrite)
      {
        if j > 0 {
          assert t[1..][j - 1] == t[j];
        }
      }
    }
  }

  /** The setProperty calls of WriteProperties are exactly one per entry, with its id and bytes. */
  lemma {:induction false} WritesMembers(t: seq<Property>, s: StreamRef)
    ensures |Writes(t, s)| == |t|
    ensures forall i :: 0 <= i < |t| ==> Writes(t, s)[i] == PropertySet(s, t[i].id, t[i].data)
  {
    if t != [] {
      WritesMembers(t[1..], s);
      forall i | 0 < i < |t|
        ensures Writes(t, s)[i] == PropertySet(s, t[i].id, t[i].data)
      {
        assert Writes(t, s)[i] == Writes(t[1..], s)[i - 1];
        assert t[1..][i - 1] == t[i];
      }
    }
  }

  /**
   * A name is reported exactly when some entry with that name was rejected by
   * the stream, and the reports come in table order: those of a prefix of the
   * table precede those of the rest, and each entry contributes its own name
   * once when refused and nothing otherwise.
   */
  lemma WriteFailuresMembers(t: seq<Property>, accepted: set<PropertyId>)
    ensures forall n :: n in WriteFailures(t, accepted) <==>
      exists i :: 0 <= i < |t| && t[i].id !in accepted && t[i].name == n
    ensures forall k :: 0 <= k <= |t| ==>
      WriteFailures(t, accepted) == WriteFailures(t[..k], accepted) + WriteFailures(t[k..], accepted)
    ensures forall k :: 0 <= k < |t| ==>
      WriteFailures(t[k..k + 1], accepted) == (if t[k].id in accepted then [] else [t[k].name])
  {
    WriteFailuresNames(t, accepted);
    forall k | 0 <= k <= |t|
      ensures WriteFailures(t, accepted) == WriteFailures(t[..k], accepted) + WriteFailures(t[k..], accepted)
    {
      assert t == t[..k] + t[k..];
      WriteFailuresAppend(t[..k], t[k..], accepted);
    }
    forall k | 0 <= k < |t|
      ensures WriteFailures(t[k..k + 1], accepted) == (if t[k].id in accepted then [] else [t[k].name])
    {
      WriteFailuresOne(t[k], accepted);
      assert t[k..k + 1] == [t[k]];
    }
  }

  /** The reported names are those of the refused entries. */
  lemma {:induction false} WriteFailuresNames(t: seq<Property>, accepted: set<PropertyId>)
    ensures forall n :: n in WriteFailures(t, accepted) <==>
      exists i :: 0 <= i < |t| && t[i].id !in accepted && t[i].name == n
  {
    if t != [] {
      WriteFailuresNames(t[1..], accepted);
      forall n
        ensures n in WriteFailures(t, accepted) <==> exists i :: 0 <= i < |t| && t[i].id !in accepted && t[i].name == n
      {
        if n in WriteFailures(t[1..], accepted) {
          var i :| 0 <= i < |t[1..]| && t[1..][i].id !in accepted && t[1..][i].name == n;
          assert t[i + 1] == t[1..][i];
        }
        if exists i :: 0 <= i < |t| && t[i].id !in accepted && t[i].name == n {
          var i :| 0 <= i < |t| && t[i].id !in accepted && t[i].name == n;
          if i > 0 {
            assert t[1..][i - 1] == t[i];
          }
        }
      }
    }
  }

  /** A single entry is reported exactly when the stream refuses it. */
  lemma WriteFailuresOne(p: Property, accepted: set<PropertyId>)
    ensures WriteFailures([p], accepted) == (if p.id in accepted then [] else [p.name])
  {
    assert [p][1..] == [];
  }

  /** LoadProperties answers true exactly when, after the pass, every entry is loaded. */
  lemma LoadAllComplete(t: seq<Property>, store: PropertyStore, overwrite: bool)
    ensures AllLoaded(LoadAll(t, store, overwrite)) <==>
      forall i :: 0 <= i < |t| ==> t[i].loaded || Fetch(store, t[i].id, |t[i].data|).Some?
  {
  }

  // ---------------------------------------------------------------------------
  // Several passes: the source file first, then a connected device

  /** Successive passes without overwrite over streams holding `stores`, in order. */
  function LoadEach(t: seq<Property>, stores: seq<PropertyStore>): (r: seq<Property>)
    ensures |r| == |t|
    decreases stores
  {
    if stores == [] then t else LoadEach(LoadAll(t, stores[0], false), stores[1..])
  }

  /** What the first of `stores` that answers getProperty(id) for `size` bytes answers. */
  function FirstHit(id: PropertyId, size: nat, stores: seq<PropertyStore>): (r: Option<seq<byte>>)
    ensures r.Some? <==> exists j :: 0 <= j < |stores| && Fetch(stores[j], id, size).Some?
    ensures r.Some? ==> exists j :: 0 <= j < |stores| && Fetch(stores[j], id, size) == r &&
                                    forall k :: 0 <= k < j ==> Fetch(stores[k], id, size).None?
  {
    if stores == [] then None
    else if Fetch(stores[0], id, size).Some? then Fetch(stores[0], id, size)
    else
      var r := FirstHit(id, size, stores[1..]);
      assert forall j :: 0 < j < |stores| ==> stores[j] == stores[1..][j - 1];
      assert r.Some? ==> exists j :: (0 <= j < |stores[1..]| && Fetch(stores[1..][j], id, size) == r &&
                                      forall k :: 0 <= k < j ==> Fetch(stores[1..][k], id, size).None?);
      r
  }

  /**
   * After several passes an entry that was loaded is untouched; one that was
   * not holds the bytes of the first stream that had them, or is still
   * unloaded with its old bytes if no stream had them.
   */
  lemma {:induction false} LoadEachAt(t: seq<Property>, stores: seq<PropertyStore>, i: nat)
    requires i < |t|
    ensures |LoadEach(t, stores)| == |t|
    ensures Shape(LoadEach(t, stores)) == Shape(t)
    ensures t[i].loaded ==> LoadEach(t, stores)[i] == t[i]
    ensures !t[i].loaded ==> (LoadEach(t, stores)[i] ==
      match FirstHit(t[i].id, |t[i].data|, stores)
      case Some(d) => t[i].(loaded := true, data := d)
      case None => t[i])
    decreases stores
  {
    if stores != [] {
      var t1 := LoadAll(t, stores[0], false);
      LoadEachAt(t1, stores[1..], i);
      LoadAllShape(t, stores[0], false);
    }
  }

  /** The table is complete after several passes iff each entry was loaded or some stream held it. */
  lemma LoadEachComplete(t: seq<Property>, stores: seq<PropertyStore>)
    ensures AllLoaded(LoadEach(t, stores)) <==>
      forall i :: 0 <= i < |t| ==> (t[i].loaded ||
        exists j :: 0 <= j < |stores| && Fetch(stores[j], t[i].id, |t[i].data|).Some?)
  {
    forall i | 0 <= i < |t| {
      LoadEachAt(t, stores, i);
    }
  }

  /** Two passes, first over `a` and then over `b`, are LoadEach over [a, b]. */
  lemma LoadEachTwo(t: seq<Property>, a: PropertyStore, b: PropertyStore)
    ensures LoadAll(LoadAll(t, a, false), b, false) == LoadEach(t, [a, b])
  {
    assert [a, b][0] == a && [a, b][1..] == [b] && [b][0] == b && [b][1..] == [];
    assert LoadEach(t, [a, b]) == LoadEach(LoadAll(t, a, false), [b]);
    assert LoadEach(LoadAll(t, a, false), [b]) == LoadEach(LoadAll(LoadAll(t, a, false), b, false), []);
  }

  // ---------------------------------------------------------------------------
  // Writing a table, then reading it back

  /** The store of a stream that keeps every setProperty it receives, after the calls `w`. */
  function Apply(store: PropertyStore, w: seq<Event>): PropertyStore
    decreases w
  {
    if w == [] then store
    else Apply(if w[0].PropertySet? then store[w[0].id := w[0].data] else store, w[1..])
  }

  lemma {:induction false} ApplyWritesElsewhere(store: PropertyStore, t: seq<Property>, s: StreamRef, id: PropertyId)
    requires forall j :: 0 <= j < |t| ==> t[j].id != id
    ensures (id in Apply(store, Writes(t, s))) == (id in store)
    ensures id in store ==> Apply(store, Writes(t, s))[id] == store[id]
    decreases t
  {
    if t != [] {
      assert Writes(t, s)[0] == PropertySet(s, t[0].id, t[0].data) && Writes(t, s)[1..] == Writes(t[1..], s);
      ApplyWritesElsewhere(store[t[0].id := t[0].data], t[1..], s, id);
    }
  }

  lemma {:induction false} ApplyWritesAt(store: PropertyStore, t: seq<Property>, s: StreamRef, i: nat)
    requires i < |t|
    requires forall j :: 0 <= j < |t| && j != i ==> t[j].id != t[i].id
    ensures t[i].id in Apply(store, Writes(t, s)) && Apply(store, Writes(t, s))[t[i].id] == t[i].data
    decreases t
  {
    assert Writes(t, s)[0] == PropertySet(s, t[0].id, t[0].data) && Writes(t, s)[1..] == Writes(t[1..], s);
    var st := store[t[0].id := t[0].data];
    if i == 0 {
      ApplyWritesElsewhere(st, t[1..], s, t[0].id);
    } else {
      ApplyWritesAt(st, t[1..], s, i - 1);
    }
  }

  /**
   * Writing a table into a stream that keeps what it is given and then loading
   * a fresh table from that stream loads every entry with the written bytes; a
   * complete table comes back exactly as it was written.
   */
  lemma WriteLoadRoundTrip(t: seq<Property>, store: PropertyStore, s: StreamRef)
    requires Shape(t) == Catalog
    ensures AllLoaded(LoadAll(InitialTable(), Apply(store, Writes(t, s)), false))
    ensures forall i :: 0 <= i < |t| ==>
      LoadAll(InitialTable(), Apply(store, Writes(t, s)), false)[i] == t[i].(loaded := true)
    ensures AllLoaded(t) ==> LoadAll(InitialTable(), Apply(store, Writes(t, s)), false) == t
  {
    var written := Apply(store, Writes(t, s));
    var r := LoadAll(InitialTable(), written, false);
    InitialTableShape();
    CatalogShaped(t);
    CatalogShaped(InitialTable());
    forall i | 0 <= i < |t|
      ensures r[i] == t[i].(loaded := true)
    {
      ApplyWritesAt(store, t, s, i);
    }
  }
}

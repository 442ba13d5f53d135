/** The earlier single-map link store (internal/repository/shortened_link.go): shortcut -> link,
    with a JSON snapshot. The file and the JSON codec are inputs and outputs of the methods. */
module LegacyLinkRepository {
  import opened Wrappers
  import opened Errors
  import opened Model

  /** The storage after storing each record of `records` in turn: a later record with the same
      shortcut overwrites an earlier one. */
  function StoredAll(storage: map<string, Link>, records: seq<Link>): (r: map<string, Link>)
    ensures r.Keys == storage.Keys + set l | l in records :: l.Shortcut
  {
    if records == [] then storage
    else
      var n := |records| - 1;
      var before := StoredAll(storage, records[..n]);
      assert (set l | l in records :: l.Shortcut) == (set l | l in records[..n] :: l.Shortcut) + {records[n].Shortcut} by {
        assert forall l | l in records :: l in records[..n] || l == records[n];
      }
      before[records[n].Shortcut := records[n]]
  }

  /** Every key is the shortcut of the link stored under it. */
  ghost predicate KeyedByShortcut(storage: map<string, Link>)
  {
    forall k | k in storage :: storage[k].Shortcut == k
  }

  /** Storing records under their own shortcuts keeps every key equal to its link's shortcut. */
  lemma {:induction false} StoredAllKeyedByShortcut(storage: map<string, Link>, records: seq<Link>)
    requires KeyedByShortcut(storage)
    ensures KeyedByShortcut(StoredAll(storage, records))
  {
    if records != [] {
      StoredAllKeyedByShortcut(storage, records[..|records| - 1]);
    }
  }

  /** A snapshot lists every stored link once, whatever the map's iteration order was. */
  ghost predicate Snapshot(storage: map<string, Link>, written: seq<Link>, order: seq<string>)
  {
    && Enumerates(order, storage.Keys)
    && |written| == |order|
    && (forall i | 0 <= i < |written| :: written[i] == storage[order[i]])
  }

  /** Loading a snapshot into an empty store gives back the same map: the keys are the
      shortcuts of their links, so storing each link under its shortcut rebuilds every entry. */
  lemma SaveLoadRoundTrip(storage: map<string, Link>, written: seq<Link>, order: seq<string>)
    requires KeyedByShortcut(storage) && Snapshot(storage, written, order)
    ensures StoredAll(map[], written) == storage
  {
    LoadSnapshotPrefix(storage, written, order, |written|);
    assert written[..|written|] == written && order[..|order|] == order;
    EnumeratedMap(storage, order);
  }

  /** A map rebuilt from an enumeration of its keys is the map itself. */
  lemma EnumeratedMap(storage: map<string, Link>, order: seq<string>)
    requires Enumerates(order, storage.Keys)
    ensures (map k | k in order :: storage[k]) == storage
  {
  }

  /** Storing the first n links of a snapshot yields exactly the entries of the first n keys. */
  lemma {:induction false} LoadSnapshotPrefix(storage: map<string, Link>, written: seq<Link>, order: seq<string>, n: nat)
    requires KeyedByShortcut(storage) && Snapshot(storage, written, order) && n <= |written|
    ensures StoredAll(map[], written[..n]) == map k | k in order[..n] :: storage[k]
  {
    if n > 0 {
      LoadSnapshotPrefix(storage, written, order, n - 1);
      assert written[..n][..n - 1] == written[..n - 1];
      assert forall k :: k in order[..n] <==> k in order[..n - 1] || k == order[n - 1];
    }
  }

  class LinkRepository {
    var storage: map<string, Link>

    /** NewLinksRepository: an empty map. */
    constructor ()
      ensures storage == map[]
    {
      storage := map[];
    }

    /** Create: the link is stored under its shortcut, replacing any earlier entry there; no
        other key changes. */
    method Create(link: Link)
      modifies this
      ensures storage == old(storage)[link.Shortcut := link]
      ensures KeyedByShortcut(old(storage)) ==> KeyedByShortcut(storage)
    {
      storage := storage[link.Shortcut := link];
    }

    /** GetByShortcut: the stored link and true, or nothing and false. */
    method GetByShortcut(shortcut: string) returns (l: Option<Link>, ok: bool)
      ensures ok <==> shortcut in storage
      ensures ok ==> l == Some(storage[shortcut])
      ensures !ok ==> l == None
    {
      if shortcut in storage {
        return Some(storage[shortcut]), true;
      }
      return None, false;
    }

    /** LoadStoredData: an error opening the file or decoding it is returned, an empty file's
        io.EOF included; otherwise every record is stored as it is, in order. */
    method LoadStoredData(openErr: Option<Error>, decoded: Result<seq<Link>>) returns (err: Option<Error>)
      modifies this
      ensures openErr.Some? ==> err == openErr && storage == old(storage)
      ensures openErr.None? && decoded.Err? ==> err == Some(decoded.error) && storage == old(storage)
      ensures openErr.None? && decoded.Ok? ==> err == None && storage == StoredAll(old(storage), decoded.value)
      ensures KeyedByShortcut(old(storage)) ==> KeyedByShortcut(storage)
    {
      if openErr.Some? {
        return openErr;
      }
      if decoded.Err? {
        return Some(decoded.error);
      }
      var storedData := decoded.value;
      var i := 0;
      while i < |storedData|
        invariant i <= |storedData|
        invariant storage == StoredAll(old(storage), storedData[..i])
      {
        assert storedData[..i + 1][..i] == storedData[..i];
        Create(storedData[i]);
        i := i + 1;
      }
      assert storedData[..i] == storedData;
      if KeyedByShortcut(old(storage)) {
        StoredAllKeyedByShortcut(old(storage), storedData);
      }
      return None;
    }

    /** SaveInStorage: every stored link is collected, in the map's iteration order, and handed
        to the encoder; an error opening the file or encoding is returned. */
    method SaveInStorage(openErr: Option<Error>, encodeErr: Option<Error>)
      returns (written: seq<Link>, err: Option<Error>, ghost order: seq<string>)
      ensures openErr.Some? ==> err == openErr && written == []
      ensures openErr.None? ==> err == encodeErr && Snapshot(storage, written, order)
    {
      if openErr.Some? {
        return [], openErr, [];
      }
      written, order := [], [];
      var remaining := storage.Keys;
      while remaining != {}
        invariant remaining <= storage.Keys
        invariant |written| == |order|
        invariant forall i | 0 <= i < |written| :: order[i] in storage && written[i] == storage[order[i]]
        invariant forall i, j | 0 <= i < j < |order| :: order[i] != order[j]
        invariant forall i | 0 <= i < |order| :: order[i] !in remaining
        invariant forall k | k in storage :: k in order || k in remaining
        decreases remaining
      {
        var k :| k in remaining;
        written := written + [storage[k]];
        order := order + [k];
        remaining := remaining - {k};
      }
      err := encodeErr;
    }
  }
}

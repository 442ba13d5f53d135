/** The in-memory link store (internal/repository/link/in_memory.go).

    The Go store keeps two maps of *model.Link pointers, shortcut -> link and
    full URL -> link, and both maps may point at the same record. Here a pointer is an
    index into an arena `heap` of records, so that flipping the deletion flag of a record
    is seen through both maps, as it is in Go. */
module InMemoryRepository {
  import opened Wrappers
  import opened Errors
  import opened Model

  /** The abstract state of the store: the records and the two indexes into them. */
  datatype Store = Store(heap: seq<Link>, short: map<string, nat>, full: map<string, nat>)
  {
    /** Every shortcut key points at a record with that shortcut, every URL key at a
        record with that URL, and every record is the one its URL key points at (a record
        is only ever inserted under a URL not yet stored). */
    ghost predicate Valid()
    {
      && (forall k | k in short :: short[k] < |heap| && heap[short[k]].Shortcut == k)
      && (forall u | u in full :: full[u] < |heap| && heap[full[u]].FullURL == u)
      && (forall i | 0 <= i < |heap| :: heap[i].FullURL in full && full[heap[i].FullURL] == i)
    }
  }

  const Empty := Store([], map[], map[])

  /** The answer of GetByShortcut on a store. */
  function LookupShortcut(st: Store, shortcut: string): Result<Link>
    requires st.Valid()
  {
    if shortcut !in st.short then Err(NotFound)
    else if st.heap[st.short[shortcut]].IsDeleted then Err(ObjectDeleted)
    else Ok(st.heap[st.short[shortcut]])
  }

  /** The answer of GetByFullURL on a store: no deletion check. */
  function LookupFullURL(st: Store, url: string): Result<Link>
    requires st.Valid()
  {
    if url in st.full then Ok(st.heap[st.full[url]]) else Err(NotFound)
  }

  /** The outcome of Create: the new store, the link returned and the `created` flag. */
  datatype Creation = Creation(store: Store, link: Link, created: bool)

  /** Create on a store. A URL already stored returns its record, not created, and changes
      nothing; a new URL appends one live record owned by `userID` and indexes it under its
      shortcut (replacing any earlier record there) and its URL. */
  function CreateOn(st: Store, dto: CreateLinkDto, userID: string): (r: Creation)
    requires st.Valid()
    ensures r.store.Valid()
    ensures dto.FullURL in st.full ==>
      r == Creation(st, st.heap[st.full[dto.FullURL]], false)
    ensures dto.FullURL !in st.full ==>
      && r.created
      && r.link == Link(dto.FullURL, dto.Shortcut, userID, false)
      && r.store == Store(st.heap + [r.link], st.short[dto.Shortcut := |st.heap|], st.full[dto.FullURL := |st.heap|])
  {
    if dto.FullURL in st.full then
      Creation(st, st.heap[st.full[dto.FullURL]], false)
    else
      var link := dto.NewLink(userID);
      var i := |st.heap|;
      var st' := Store(st.heap + [link], st.short[dto.Shortcut := i], st.full[dto.FullURL := i]);
      assert st'.Valid() by {
        forall j | 0 <= j < |st'.heap|
          ensures st'.heap[j].FullURL in st'.full && st'.full[st'.heap[j].FullURL] == j
        {
          if j < i { assert st.heap[j].FullURL in st.full; }
        }
      }
      Creation(st', link, true)
  }

  /** After a Create that inserts, both lookups find the new link, and every other key
      answers as before. */
  lemma CreateThenLookup(st: Store, dto: CreateLinkDto, userID: string)
    requires st.Valid() && dto.FullURL !in st.full
    ensures var r := CreateOn(st, dto, userID);
      && LookupShortcut(r.store, dto.Shortcut) == Ok(r.link)
      && LookupFullURL(r.store, dto.FullURL) == Ok(r.link)
      && (forall s :: s != dto.Shortcut ==> LookupShortcut(r.store, s) == LookupShortcut(st, s))
      && (forall u :: u != dto.FullURL ==> LookupFullURL(r.store, u) == LookupFullURL(st, u))
  {
  }

  /** How many leading shortcuts of the list are stored: DeleteUserLinks stops at the next. */
  function KnownPrefix(shortcuts: seq<string>, keys: set<string>): (n: nat)
    ensures n <= |shortcuts|
    ensures forall j | 0 <= j < n :: shortcuts[j] in keys
    ensures n < |shortcuts| ==> shortcuts[n] !in keys
  {
    if shortcuts == [] || shortcuts[0] !in keys then 0
    else 1 + KnownPrefix(shortcuts[1..], keys)
  }

  /** The records reached by DeleteUserLinks: those of the shortcuts before the first
      unknown one. */
  function ReachedRecords(short: map<string, nat>, shortcuts: seq<string>): set<nat>
    decreases |shortcuts|
  {
    if shortcuts == [] || shortcuts[0] !in short then {}
    else {short[shortcuts[0]]} + ReachedRecords(short, shortcuts[1..])
  }

  /** A record is reached exactly when one of the shortcuts before the first unknown one
      indexes it. */
  lemma {:induction false} ReachedRecordsOfKnownPrefix(short: map<string, nat>, shortcuts: seq<string>)
    ensures forall j | 0 <= j < KnownPrefix(shortcuts, short.Keys) :: short[shortcuts[j]] in ReachedRecords(short, shortcuts)
    ensures forall i | i in ReachedRecords(short, shortcuts) ::
      exists j | 0 <= j < KnownPrefix(shortcuts, short.Keys) :: short[shortcuts[j]] == i
    decreases |shortcuts|
  {
    if shortcuts != [] && shortcuts[0] in short {
      var rest := shortcuts[1..];
      ReachedRecordsOfKnownPrefix(short, rest);
      var n := KnownPrefix(shortcuts, short.Keys);
      assert n == 1 + KnownPrefix(rest, short.Keys);
      forall j | 1 <= j < n ensures short[shortcuts[j]] in ReachedRecords(short, shortcuts) {
        assert shortcuts[j] == rest[j - 1];
      }
      forall i | i in ReachedRecords(short, shortcuts)
        ensures exists j | 0 <= j < n :: short[shortcuts[j]] == i
      {
        if i != short[shortcuts[0]] {
          var j :| 0 <= j < KnownPrefix(rest, short.Keys) && short[rest[j]] == i;
          assert short[shortcuts[j + 1]] == i;
        }
      }
    }
  }

  /** The outcome of DeleteUserLinks: the new store and the error returned. */
  datatype Deletion = Deletion(store: Store, err: Option<Error>)

  /** One step of DeleteUserLinks: record i is marked deleted when `userID` owns it. */
  function MarkDeleted(st: Store, i: nat, userID: string): (r: Store)
    requires st.Valid() && i < |st.heap|
    ensures r.Valid() && r.short == st.short && r.full == st.full && |r.heap| == |st.heap|
    ensures forall j | 0 <= j < |st.heap| && j != i :: r.heap[j] == st.heap[j]
    ensures r.heap[i] == if st.heap[i].UserID == userID then st.heap[i].(IsDeleted := true) else st.heap[i]
  {
    if st.heap[i].UserID == userID then st.(heap := st.heap[i := st.heap[i].(IsDeleted := true)]) else st
  }

  /** DeleteUserLinks on a store: walks the shortcuts in order, stops with ErrNotFound at the
      first unknown one, and marks deleted each reached record owned by `userID`. The maps
      never change. */
  function DeleteOn(st: Store, shortcuts: seq<string>, userID: string): (r: Deletion)
    requires st.Valid()
    ensures r.store.Valid()
    ensures r.store.short == st.short && r.store.full == st.full && |r.store.heap| == |st.heap|
    decreases |shortcuts|
  {
    if shortcuts == [] then Deletion(st, None)
    else if shortcuts[0] !in st.short then Deletion(st, Some(NotFound))
    else DeleteOn(MarkDeleted(st, st.short[shortcuts[0]], userID), shortcuts[1..], userID)
  }

  /** DeleteUserLinks reports ErrNotFound exactly when some shortcut is not stored. */
  lemma {:induction false} DeleteOnError(st: Store, shortcuts: seq<string>, userID: string)
    requires st.Valid()
    ensures DeleteOn(st, shortcuts, userID).err ==
      (if KnownPrefix(shortcuts, st.short.Keys) < |shortcuts| then Some(NotFound) else None)
    ensures DeleteOn(st, shortcuts, userID).err.None? <==>
      forall j | 0 <= j < |shortcuts| :: shortcuts[j] in st.short
    decreases |shortcuts|
  {
    if shortcuts != [] && shortcuts[0] in st.short {
      var rest := shortcuts[1..];
      DeleteOnError(MarkDeleted(st, st.short[shortcuts[0]], userID), rest, userID);
      assert forall j | 1 <= j < |shortcuts| :: shortcuts[j] == rest[j - 1];
    }
  }

  /** DeleteUserLinks marks deleted exactly the reached records owned by `userID`; every
      other record, and every other field, stays as it was. */
  lemma {:induction false} DeleteOnRecords(st: Store, shortcuts: seq<string>, userID: string)
    requires st.Valid()
    ensures forall i | 0 <= i < |st.heap| ::
      DeleteOn(st, shortcuts, userID).store.heap[i] ==
        if i in ReachedRecords(st.short, shortcuts) && st.heap[i].UserID == userID
        then st.heap[i].(IsDeleted := true) else st.heap[i]
    decreases |shortcuts|
  {
    if shortcuts != [] && shortcuts[0] in st.short {
      var st1 := MarkDeleted(st, st.short[shortcuts[0]], userID);
      DeleteOnRecords(st1, shortcuts[1..], userID);
    }
  }

  /** Replays decoded snapshot records through Create in order, each with owner "". */
  function Replayed(st: Store, records: seq<Link>): (r: Store)
    requires st.Valid()
    ensures r.Valid()
  {
    if records == [] then st
    else CreateOn(Replayed(st, records[..|records| - 1]), records[|records| - 1].ToCreateDto(), "").store
  }

  /** The link listing entry for a stored shortcut. */
  function ItemOf(st: Store, k: string): GetUserLinksRequestItem
    requires st.Valid() && k in st.short
  {
    GetUserLinksRequestItem(st.heap[st.short[k]].FullURL, st.heap[st.short[k]].Shortcut)
  }

  /** The shortcuts whose record belongs to `userID`, deleted or not. */
  ghost function OwnedBy(st: Store, userID: string): set<string>
    requires st.Valid()
  {
    set k | k in st.short && st.heap[st.short[k]].UserID == userID
  }

  /** The shortcut -> URL pairs a store resolves, deleted links included. */
  ghost function Pairs(st: Store): map<string, string>
    requires st.Valid()
  {
    map k | k in st.short :: st.heap[st.short[k]].FullURL
  }

  /** The records of a snapshot have pairwise distinct shortcuts and URLs. */
  ghost predicate DistinctKeys(data: seq<Link>)
  {
    forall i, j | 0 <= i < j < |data| ::
      data[i].Shortcut != data[j].Shortcut && data[i].FullURL != data[j].FullURL
  }

  /** The store holding the records of `data` in order, each live and owned by "", and
      each indexed under its shortcut and its URL. */
  function Appended(data: seq<Link>): (r: Store)
    ensures |r.heap| == |data|
  {
    if data == [] then Empty
    else
      var n := |data| - 1;
      var p := Appended(data[..n]);
      Store(p.heap + [Link(data[n].FullURL, data[n].Shortcut, "", false)],
            p.short[data[n].Shortcut := n], p.full[data[n].FullURL := n])
  }

  /** Record j of the appended store is record j of the data, live and owned by "". */
  lemma {:induction false} AppendedRecords(data: seq<Link>)
    ensures forall j | 0 <= j < |data| ::
      Appended(data).heap[j] == Link(data[j].FullURL, data[j].Shortcut, "", false)
  {
    if data != [] {
      var n := |data| - 1;
      AppendedRecords(data[..n]);
      assert forall j | 0 <= j < n :: data[..n][j] == data[j];
    }
  }

  /** A URL that no record carries is not indexed. */
  lemma {:induction false} AppendedURLKeys(data: seq<Link>, url: string)
    requires forall j | 0 <= j < |data| :: data[j].FullURL != url
    ensures url !in Appended(data).full
  {
    if data != [] {
      var n := |data| - 1;
      assert forall j | 0 <= j < n :: data[..n][j] == data[j];
      AppendedURLKeys(data[..n], url);
    }
  }

  /** A shortcut that no record carries is not indexed. */
  lemma {:induction false} AppendedShortcutKeys(data: seq<Link>, shortcut: string)
    requires forall j | 0 <= j < |data| :: data[j].Shortcut != shortcut
    ensures shortcut !in Appended(data).short
  {
    if data != [] {
      var n := |data| - 1;
      assert forall j | 0 <= j < n :: data[..n][j] == data[j];
      AppendedShortcutKeys(data[..n], shortcut);
    }
  }

  /** With distinct shortcuts, each record's shortcut indexes that record. */
  lemma {:induction false} AppendedShortcutIndex(data: seq<Link>)
    requires forall i, j | 0 <= i < j < |data| :: data[i].Shortcut != data[j].Shortcut
    ensures forall j | 0 <= j < |data| ::
      data[j].Shortcut in Appended(data).short && Appended(data).short[data[j].Shortcut] == j
  {
    if data != [] {
      var n := |data| - 1;
      assert forall j | 0 <= j < n :: data[..n][j] == data[j];
      AppendedShortcutIndex(data[..n]);
    }
  }

  /** What SaveInStorage writes has distinct shortcuts and URLs: distinct shortcut keys
      select distinct records, and each record is the one its URL indexes. */
  lemma SnapshotKeysDistinct(st: Store, data: seq<Link>, order: seq<string>)
    requires st.Valid()
    requires |order| == |data| && Enumerates(order, st.short.Keys)
    requires forall i | 0 <= i < |data| :: data[i] == st.heap[st.short[order[i]]]
    ensures DistinctKeys(data)
  {
    forall i, j | 0 <= i < j < |data|
      ensures data[i].Shortcut != data[j].Shortcut && data[i].FullURL != data[j].FullURL
    {
      assert data[i].Shortcut == order[i] && data[j].Shortcut == order[j];
      assert st.full[data[i].FullURL] == st.short[order[i]];
      assert st.full[data[j].FullURL] == st.short[order[j]];
    }
  }

  /** Replaying records with distinct URLs into an empty store appends every one of them:
      Create never meets a URL it already holds. */
  lemma {:induction false} ReplayIntoEmpty(data: seq<Link>)
    requires forall i, j | 0 <= i < j < |data| :: data[i].FullURL != data[j].FullURL
    ensures Replayed(Empty, data) == Appended(data)
  {
    if data != [] {
      var n := |data| - 1;
      assert forall j | 0 <= j < n :: data[..n][j] == data[j];
      ReplayIntoEmpty(data[..n]);
      AppendedURLKeys(data[..n], data[n].FullURL);
    }
  }

  /** Two stores resolve the same pairs when they have the same shortcut keys and each key
      leads to the same URL. */
  lemma SamePairs(a: Store, b: Store)
    requires a.Valid() && b.Valid()
    requires a.short.Keys == b.short.Keys
    requires forall k | k in a.short :: a.heap[a.short[k]].FullURL == b.heap[b.short[k]].FullURL
    ensures Pairs(a) == Pairs(b)
  {
  }

  /** Each shortcut of the store the snapshot was taken from leads, in the appended
      snapshot, to a live record with the URL it led to there, owned by "". */
  lemma RestoredShortcuts(st: Store, data: seq<Link>, order: seq<string>)
    requires st.Valid()
    requires |order| == |data| && (forall i | 0 <= i < |order| :: order[i] in st.short)
    requires forall x | x in st.short :: x in order
    requires forall i | 0 <= i < |data| :: data[i] == st.heap[st.short[order[i]]]
    requires DistinctKeys(data)
    ensures forall k | k in st.short ::
      && k in Appended(data).short && Appended(data).short[k] < |Appended(data).heap|
      && Appended(data).heap[Appended(data).short[k]] == Link(st.heap[st.short[k]].FullURL, k, "", false)
  {
    var r := Appended(data);
    AppendedRecords(data);
    AppendedShortcutIndex(data);
    forall k | k in st.short
      ensures k in r.short && r.short[k] < |r.heap| && r.heap[r.short[k]] == Link(st.heap[st.short[k]].FullURL, k, "", false)
    {
      var j :| 0 <= j < |order| && order[j] == k;
      assert data[j].Shortcut == k;
    }
  }

  /** A shortcut the store lacks is carried by no record of its snapshot. */
  lemma UnsavedShortcut(st: Store, data: seq<Link>, order: seq<string>, k: string)
    requires st.Valid() && k !in st.short
    requires |order| == |data| && (forall i | 0 <= i < |order| :: order[i] in st.short)
    requires forall i | 0 <= i < |data| :: data[i] == st.heap[st.short[order[i]]]
    ensures forall j | 0 <= j < |data| :: data[j].Shortcut != k
  {
  }

  /** The appended snapshot indexes no shortcut the store it was taken from lacks. */
  lemma RestoredNoOtherShortcut(st: Store, data: seq<Link>, order: seq<string>)
    requires st.Valid()
    requires |order| == |data| && (forall i | 0 <= i < |order| :: order[i] in st.short)
    requires forall i | 0 <= i < |data| :: data[i] == st.heap[st.short[order[i]]]
    ensures forall k | k in Appended(data).short :: k in st.short
  {
    forall k | k in Appended(data).short ensures k in st.short {
      if k !in st.short {
        UnsavedShortcut(st, data, order, k);
        AppendedShortcutKeys(data, k);
      }
    }
  }

  /** A store that has the shortcut keys of `st`, each leading to a live record with the URL
      it leads to in `st`, owned by "", resolves the pairs of `st`. */
  lemma RestoredPairs(st: Store, r: Store)
    requires st.Valid() && r.Valid()
    requires forall k | k in st.short ::
      k in r.short && r.short[k] < |r.heap| && r.heap[r.short[k]] == Link(st.heap[st.short[k]].FullURL, k, "", false)
    requires forall k | k in r.short :: k in st.short
    ensures Pairs(r) == Pairs(st)
    ensures forall k | k in r.short :: r.heap[r.short[k]].UserID == "" && !r.heap[r.short[k]].IsDeleted
  {
    SamePairs(r, st);
  }

  /** Snapshot round trip: loading what SaveInStorage wrote into a fresh store restores the
      same shortcut -> URL pairs, every record live and owned by "". */
  lemma SaveLoadRoundTrip(st: Store, data: seq<Link>, order: seq<string>)
    requires st.Valid()
    requires |order| == |data| && Enumerates(order, st.short.Keys)
    requires forall i | 0 <= i < |data| :: data[i] == st.heap[st.short[order[i]]]
    ensures var r := Replayed(Empty, data);
      && Pairs(r) == Pairs(st)
      && (forall k | k in r.short :: r.heap[r.short[k]].UserID == "" && !r.heap[r.short[k]].IsDeleted)
  {
    SnapshotKeysDistinct(st, data, order);
    ReplayIntoEmpty(data);
    var r := Replayed(Empty, data);
    RestoredShortcuts(st, data, order);
    RestoredNoOtherShortcut(st, data, order);
    RestoredPairs(st, r);
  }

  /** The store behind a service configured without a database DSN. */
  class InMemoryLinkRepository {
    var heap: seq<Link>
    var shortStorage: map<string, nat>
    var fullStorage: map<string, nat>

    function Abs(): Store
      reads this
    {
      Store(heap, shortStorage, fullStorage)
    }

    ghost predicate Valid()
      reads this
    {
      Abs().Valid()
    }

    /** NewInMemoryLinksRepository: both maps empty. */
    constructor ()
      ensures Valid() && Abs() == Empty
    {
      heap, shortStorage, fullStorage := [], map[], map[];
    }

    /** Absent, soft-deleted and live shortcuts give three different answers. */
    method GetByShortcut(shortcut: string) returns (r: Result<Link>)
      requires Valid()
      ensures r == LookupShortcut(Abs(), shortcut)
      ensures shortcut !in shortStorage <==> r == Err(NotFound)
      ensures shortcut in shortStorage && heap[shortStorage[shortcut]].IsDeleted <==> r == Err(ObjectDeleted)
      ensures r.Ok? ==> shortcut in shortStorage && r.value == heap[shortStorage[shortcut]] && !r.value.IsDeleted
    {
      if shortcut in shortStorage {
        var l := heap[shortStorage[shortcut]];
        if l.IsDeleted {
          return Err(ObjectDeleted);
        }
        return Ok(l);
      }
      return Err(NotFound);
    }

    /** One listing entry per stored shortcut whose record has this owner, in map order,
        deleted records included. */
    method GetByUserID(userID: string) returns (result: seq<GetUserLinksRequestItem>, ghost order: seq<string>)
      requires Valid()
      ensures Enumerates(order, OwnedBy(Abs(), userID))
      ensures |result| == |order|
      ensures forall i | 0 <= i < |result| :: result[i] == ItemOf(Abs(), order[i])
    {
      result, order := [], [];
      var remaining := shortStorage.Keys;
      while remaining != {}
        invariant remaining <= shortStorage.Keys
        invariant |result| == |order|
        invariant forall i | 0 <= i < |result| :: order[i] in shortStorage && result[i] == ItemOf(Abs(), order[i])
        invariant forall i, j | 0 <= i < j < |order| :: order[i] != order[j]
        invariant forall i | 0 <= i < |order| :: order[i] in OwnedBy(Abs(), userID) && order[i] !in remaining
        invariant forall k | k in OwnedBy(Abs(), userID) :: k in order || k in remaining
        decreases remaining
      {
        var k :| k in remaining;
        var val := heap[shortStorage[k]];
        if val.UserID == userID {
          result := result + [GetUserLinksRequestItem(val.FullURL, val.Shortcut)];
          order := order + [k];
        }
        remaining := remaining - {k};
      }
    }

    /** GetByFullURL: the record stored under the URL, deleted or not. */
    method GetByFullURL(url: string) returns (r: Result<Link>)
      requires Valid()
      ensures r == LookupFullURL(Abs(), url)
      ensures url !in fullStorage <==> r == Err(NotFound)
      ensures r.Ok? ==> r.value.FullURL == url
    {
      if url in fullStorage {
        return Ok(heap[fullStorage[url]]);
      }
      return Err(NotFound);
    }

    /** Create is idempotent by URL: a stored URL returns its record with created = false;
        a new one is inserted under its shortcut and its URL. The store never fails here,
        so the error-return branch of the source (its GetByFullURL only fails with
        ErrNotFound) is not reachable. */
    method Create(dto: CreateLinkDto, userID: string) returns (link: Link, created: bool, err: Option<Error>)
      requires Valid()
      modifies this
      ensures Valid()
      ensures var c := CreateOn(old(Abs()), dto, userID);
        Abs() == c.store && link == c.link && created == c.created && err == None
    {
      var l := GetByFullURL(dto.FullURL);
      if l.Ok? {
        return l.value, false, None;
      }
      var newLink := dto.NewLink(userID);
      var i := |heap|;
      heap := heap + [newLink];
      shortStorage := shortStorage[dto.Shortcut := i];
      fullStorage := fullStorage[dto.FullURL := i];
      return newLink, true, None;
    }

    /** DeleteUserLinks: an owner-checked soft delete that stops at the first unknown
        shortcut, after the earlier ones have been processed. */
    method DeleteUserLinks(shortcuts: seq<string>, userID: string) returns (err: Option<Error>)
      requires Valid()
      modifies this
      ensures Valid()
      ensures var d := DeleteOn(old(Abs()), shortcuts, userID);
        Abs() == d.store && err == d.err
    {
      var i := 0;
      while i < |shortcuts|
        invariant 0 <= i <= |shortcuts|
        invariant Valid()
        invariant DeleteOn(Abs(), shortcuts[i..], userID) == DeleteOn(old(Abs()), shortcuts, userID)
      {
        assert shortcuts[i..][1..] == shortcuts[i + 1..];
        var shortcut := shortcuts[i];
        if shortcut !in shortStorage {
          return Some(NotFound);
        }
        MarkDeletedAt(shortStorage[shortcut], userID);
        i := i + 1;
      }
      return None;
    }

    /** The body of the DeleteUserLinks loop for a stored shortcut: its record is marked
        deleted when `userID` owns it. */
    method MarkDeletedAt(idx: nat, userID: string)
      requires Valid() && idx < |heap|
      modifies this
      ensures Valid() && Abs() == MarkDeleted(old(Abs()), idx, userID)
    {
      if heap[idx].UserID == userID {
        heap := heap[idx := heap[idx].(IsDeleted := true)];
      }
    }

    /** LoadStoredData, with the file and the JSON decoder as inputs: `openErr` is the error
        of opening the snapshot file and `decoded` what the decoder returned. An empty file
        (io.EOF) means no records; any other decode error is returned; each record is replayed
        through Create with owner "". */
    method LoadStoredData(openErr: Option<Error>, decoded: Result<seq<Link>>) returns (err: Option<Error>)
      requires Valid()
      modifies this
      ensures Valid()
      ensures openErr.Some? ==> err == openErr && Abs() == old(Abs())
      ensures openErr.None? && decoded.Err? && !Is(decoded.error, EOF) ==>
        err == Some(decoded.error) && Abs() == old(Abs())
      ensures openErr.None? && decoded.Err? && Is(decoded.error, EOF) ==>
        err == None && Abs() == old(Abs())
      ensures openErr.None? && decoded.Ok? ==>
        err == None && Abs() == Replayed(old(Abs()), decoded.value)
    {
      if openErr.Some? {
        return openErr;
      }
      var storedData: seq<Link> := [];
      if decoded.Err? {
        if !Is(decoded.error, EOF) {
          return Some(decoded.error);
        }
      } else {
        storedData := decoded.value;
      }
      Replay(storedData);
      return None;
    }

    /** The loop of LoadStoredData: each record is passed to Create, in file order. */
    method Replay(records: seq<Link>)
      requires Valid()
      modifies this
      ensures Valid() && Abs() == Replayed(old(Abs()), records)
    {
      var i := 0;
      while i < |records|
        invariant 0 <= i <= |records|
        invariant Valid()
        invariant Abs() == Replayed(old(Abs()), records[..i])
      {
        assert records[..i + 1][..i] == records[..i];
        var _, _, _ := Create(records[i].ToCreateDto(), "");
        i := i + 1;
      }
      assert records[..i] == records;
    }

    /** SaveInStorage, with the file as inputs: `openErr` is the error of opening the file
        for writing, `encodeErr` that of the encoder. Emits every record reachable by
        shortcut, in map order, deleted ones included. */
    method SaveInStorage(openErr: Option<Error>, encodeErr: Option<Error>)
      returns (written: seq<Link>, ghost order: seq<string>, err: Option<Error>)
      requires Valid()
      ensures openErr.Some? ==> err == openErr && written == []
      ensures openErr.None? ==> err == encodeErr
      ensures openErr.None? ==>
        && Enumerates(order, shortStorage.Keys)
        && |written| == |order|
        && forall i | 0 <= i < |written| :: written[i] == heap[shortStorage[order[i]]]
    {
      order := [];
      if openErr.Some? {
        return [], order, openErr;
      }
      written := [];
      var remaining := shortStorage.Keys;
      while remaining != {}
        invariant remaining <= shortStorage.Keys
        invariant |written| == |order|
        invariant forall i | 0 <= i < |written| :: order[i] in shortStorage && written[i] == heap[shortStorage[order[i]]]
        invariant forall i, j | 0 <= i < j < |order| :: order[i] != order[j]
        invariant forall i | 0 <= i < |order| :: order[i] !in remaining
        invariant forall k | k in shortStorage :: k in order || k in remaining
        decreases remaining
      {
        var k :| k in remaining;
        written := written + [heap[shortStorage[k]]];
        order := order + [k];
        remaining := remaining - {k};
      }
      return written, order, encodeErr;
    }

    /** GetTransactionExecuter: this store never supports transactions. */
    method GetTransactionExecuter() returns (err: Option<Error>)
      ensures err == Some(ExecuterNotSupportTransactions)
    {
      return Some(ExecuterNotSupportTransactions);
    }
  }
}

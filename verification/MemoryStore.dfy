// The file-backed memory service: a nested table in memory, rewritten as a list into
// its file after every change. JSON is taken as faithful, so the file holds the list
// itself; hash-map iteration order is arbitrary everywhere.

module MemoryStore {
  import opened Prelude
  import opened Transcript

  type SessionId = string

  datatype Key = Key(app: string, user: string)

  datatype Stored = Stored(content: Content, author: string, millis: int)

  type Sessions = map<SessionId, seq<Stored>>

  type Store = map<Key, Sessions>

  datatype Saved = Saved(key: Key, session: SessionId, entries: seq<Stored>)

  datatype File =
    | Missing
    | Empty
    | Corrupt
    | Listing(sessions: seq<Saved>)

  const NANOS_PER_MILLI := 1_000_000

  // ---------------------------------------------------------------- entries

  function Persist(e: Entry): Stored {
    Stored(e.content, e.author, e.at / NANOS_PER_MILLI)
  }

  function Recall(s: Stored): Entry {
    Entry(s.content, s.author, s.millis * NANOS_PER_MILLI)
  }

  /** An entry comes back with its text and author, and its time cut to the millisecond. */
  lemma RecallOfPersist(e: Entry)
    ensures var back := Recall(Persist(e));
      back.content == e.content && back.author == e.author && back.at <= e.at < back.at + NANOS_PER_MILLI
  {
  }

  function PersistAll(entries: seq<Entry>): (r: seq<Stored>)
    ensures |r| == |entries| && forall i :: 0 <= i < |entries| ==> r[i] == Persist(entries[i])
  {
    seq(|entries|, i requires 0 <= i < |entries| => Persist(entries[i]))
  }

  // ---------------------------------------------------------------- loading and listing

  function Put(store: Store, key: Key, session: SessionId, entries: seq<Stored>): Store {
    store[key := (if key in store then store[key] else map[])[session := entries]]
  }

  function Loaded(sessions: seq<Saved>): Store {
    if sessions == [] then map[]
    else
      var last := sessions[|sessions| - 1];
      Put(Loaded(sessions[..|sessions| - 1]), last.key, last.session, last.entries)
  }

  function LoadFile(file: File): Result<Store, string> {
    match file
    case Missing => Success(map[])
    case Empty => Success(map[])
    case Corrupt => Failure("Failed to parse memory store")
    case Listing(sessions) => Success(Loaded(sessions))
  }

  predicate Holds(store: Store, s: Saved) {
    s.key in store && s.session in store[s.key] && store[s.key][s.session] == s.entries
  }

  predicate SamePlace(a: Saved, b: Saved) {
    a.key == b.key && a.session == b.session
  }

  predicate Distinct(l: seq<Saved>) {
    forall i, j :: 0 <= i < j < |l| ==> !SamePlace(l[i], l[j])
  }

  /** The list names every session of the table with its entries, once, and nothing else. */
  ghost predicate Lists(sessions: seq<Saved>, store: Store) {
    && (forall i :: 0 <= i < |sessions| ==> Holds(store, sessions[i]))
    && (forall k, sid :: k in store && sid in store[k] ==> Saved(k, sid, store[k][sid]) in sessions)
    && Distinct(sessions)
  }

  /** Every user's table has a session. */
  ghost predicate NoneEmpty(store: Store) {
    forall k :: k in store ==> store[k] != map[]
  }

  ghost predicate Enumerates<T(!new)>(order: seq<T>, keys: set<T>) {
    && (forall k :: k in order <==> k in keys)
    && forall i, j :: 0 <= i < j < |order| ==> order[i] != order[j]
  }

  lemma {:induction false} LoadedHolds(sessions: seq<Saved>, store: Store, s: Saved)
    requires forall i :: 0 <= i < |sessions| ==> Holds(store, sessions[i])
    ensures Holds(Loaded(sessions), s) <==> s in sessions
    ensures forall k :: k in Loaded(sessions) ==> Loaded(sessions)[k] != map[]
    ensures forall k :: k in Loaded(sessions) ==> k in store
  {
    if sessions != [] {
      var n := |sessions| - 1;
      LoadedHolds(sessions[..n], store, s);
      assert sessions == sessions[..n] + [sessions[n]];
      var last := sessions[n];
      assert last.session in Loaded(sessions)[last.key];
    }
  }

  lemma SameTables(a: Store, b: Store)
    requires NoneEmpty(a) && NoneEmpty(b)
    requires forall s :: Holds(a, s) <==> Holds(b, s)
    ensures a == b
  {
    forall k ensures k in a ==> k in b && a[k] == b[k] {
      if k in a {
        KeyCarries(a, b, k);
      }
    }
    forall k ensures k in b ==> k in a {
      if k in b {
        KeyCarries(b, a, k);
      }
    }
  }

  lemma KeyCarries(a: Store, b: Store, k: Key)
    requires k in a && a[k] != map[] && (forall s :: Holds(a, s) <==> Holds(b, s))
    ensures k in b && a[k] == b[k]
  {
    var sid :| sid in a[k];
    assert Holds(a, Saved(k, sid, a[k][sid]));
    forall t ensures t in a[k] <==> t in b[k] {
      if t in a[k] {
        assert Holds(a, Saved(k, t, a[k][t]));
      }
      if t in b[k] {
        assert Holds(b, Saved(k, t, b[k][t]));
      }
    }
    forall t | t in a[k] ensures a[k][t] == b[k][t] {
      assert Holds(a, Saved(k, t, a[k][t]));
    }
  }

  /** Main result: a list of the table loads back as the very same table, whatever order it was written
      in, exactly if every user's table has a session. */
  lemma LoadRestores(sessions: seq<Saved>, store: Store)
    requires Lists(sessions, store)
    ensures Loaded(sessions) == store <==> NoneEmpty(store)
  {
    forall s ensures Holds(Loaded(sessions), s) <==> Holds(store, s) {
      LoadedHolds(sessions, store, s);
    }
    var any := Saved(Key("", ""), "", []);
    LoadedHolds(sessions, store, any);
    if NoneEmpty(store) {
      SameTables(Loaded(sessions), store);
    }
  }

  // ---------------------------------------------------------------- words and matches

  function FirstSpace(s: string): (n: nat)
    ensures n <= |s| && (n < |s| ==> IsSpace(s[n]))
    ensures forall i :: 0 <= i < n ==> !IsSpace(s[i])
  {
    if s == "" || IsSpace(s[0]) then 0 else 1 + FirstSpace(s[1..])
  }

  /** The lower-cased words between white space. */
  function Words(s: string): set<string> {
    if s == "" then {}
    else if IsSpace(s[0]) then Words(s[1..])
    else
      var n := FirstSpace(s);
      {AsciiLower(s[..n])} + Words(s[n..])
  }

  /** The part of a text from `i` up to `j` has no white space in it and white space or nothing around it. */
  predicate Maximal(s: string, i: nat, j: nat) {
    && i < j <= |s| && (forall k :: i <= k < j ==> !IsSpace(s[k]))
    && (i == 0 || IsSpace(s[i - 1])) && (j == |s| || IsSpace(s[j]))
  }

  /** `word` stands in the text, in capitals or not. */
  ghost predicate IsWord(s: string, word: string) {
    exists i: nat, j: nat :: Maximal(s, i, j) && Lowers(s[i..j], word)
  }

  function PartWords(p: Part): set<string> {
    if p.Text? then Words(p.text) else {}
  }

  function ContentWords(parts: seq<Part>): set<string> {
    if parts == [] then {} else ContentWords(parts[..|parts| - 1]) + PartWords(parts[|parts| - 1])
  }

  predicate Matches(query: set<string>, s: Stored) {
    query * ContentWords(s.content.parts) != {}
  }

  /** The matching entries of one session, in its order. */
  function Found(query: set<string>, entries: seq<Stored>): seq<Entry> {
    if entries == [] then []
    else
      var last := entries[|entries| - 1];
      Found(query, entries[..|entries| - 1]) + if Matches(query, last) then [Recall(last)] else []
  }

  /** The matches of several sessions, one after the other. */
  function FoundIn(query: set<string>, sessions: Sessions, order: seq<SessionId>): seq<Entry>
    requires forall sid :: sid in order ==> sid in sessions
  {
    if order == [] then []
    else FoundIn(query, sessions, order[..|order| - 1]) + Found(query, sessions[order[|order| - 1]])
  }

  // ---------------------------------------------------------------- the service

  /** The saved form of one user's sessions, listed in the given order. */
  function Listed(key: Key, sessions: Sessions, order: seq<SessionId>): seq<Saved>
    requires forall sid :: sid in order ==> sid in sessions
  {
    if order == [] then []
    else
      var last := order[|order| - 1];
      Listed(key, sessions, order[..|order| - 1]) + [Saved(key, last, sessions[last])]
  }

  /** The orders in which the nested maps happen to be iterated. */
  datatype Orders = Orders(keys: seq<Key>, sessions: map<Key, seq<SessionId>>)

  ghost predicate OrdersOf(o: Orders, store: Store) {
    && Enumerates(o.keys, store.Keys)
    && forall k :: k in store ==> k in o.sessions && Enumerates(o.sessions[k], store[k].Keys)
  }

  function AllListed(store: Store, o: Orders, n: nat): seq<Saved>
    requires OrdersOf(o, store) && n <= |o.keys|
  {
    if n == 0 then []
    else
      var k := o.keys[n - 1];
      AllListed(store, o, n - 1) + Listed(k, store[k], o.sessions[k])
  }

  class FileMemoryService {
    var store: Store
    var file: File

    ghost predicate Valid()
      reads this
    {
      NoneEmpty(store)
    }

    /** A restart: the table is what the file holds. */
    static method Open(file: File) returns (r: Result<FileMemoryService, string>)
      ensures r.Success? <==> LoadFile(file).Success?
      ensures r.Success? <==> !file.Corrupt?
      ensures file.Missing? || file.Empty? ==> r.value.store == map[]
      ensures r.Success? ==>
        fresh(r.value) && r.value.file == file && r.value.store == LoadFile(file).value && r.value.Valid()
    {
      var loaded := map[];
      match file {
        case Missing =>
        case Empty =>
        case Corrupt => return Failure("Failed to parse memory store");
        case Listing(sessions) => loaded := LoadLoop(sessions);
      }
      LoadedNoneEmpty(file);
      var service := new FileMemoryService.OfTable(loaded, file);
      r := Success(service);
    }

    constructor OfTable(store: Store, file: File)
      ensures this.store == store && this.file == file
    {
      this.store, this.file := store, file;
    }

    static method LoadLoop(sessions: seq<Saved>) returns (store: Store)
      ensures store == Loaded(sessions)
    {
      store := map[];
      for i := 0 to |sessions|
        invariant store == Loaded(sessions[..i])
      {
        assert sessions[..i + 1][..i] == sessions[..i];
        var session := sessions[i];
        var byUser := if session.key in store then store[session.key] else map[];
        store := store[session.key := byUser[session.session := session.entries]];
      }
      assert sessions[..|sessions|] == sessions;
    }

    /** The loops that flatten the table. */
    method Flatten(o: Orders) returns (sessions: seq<Saved>)
      requires OrdersOf(o, store)
      ensures sessions == AllListed(store, o, |o.keys|)
    {
      sessions := [];
      for n := 0 to |o.keys|
        invariant sessions == AllListed(store, o, n)
      {
        var key := o.keys[n];
        var order := o.sessions[key];
        ghost var before := sessions;
        for i := 0 to |order|
          invariant sessions == before + Listed(key, store[key], order[..i])
        {
          assert order[..i + 1][..i] == order[..i];
          sessions := sessions + [Saved(key, order[i], store[key][order[i]])];
        }
        assert order[..|order|] == order;
      }
    }

    /** `written` says whether the directory, the temporary file and the rename all worked; only the
        rename touches the file. */
    method AddSession(
      key: Key, session: SessionId, entries: seq<Entry>, o: Orders, written: bool) returns (r: Result<(), string>)
      requires Valid() && OrdersOf(o, Put(store, key, session, PersistAll(entries)))
      modifies this
      ensures Valid()
      ensures store == Put(old(store), key, session, PersistAll(entries))
      ensures r.Success? <==> written
      ensures !written ==> file == old(file)
      ensures written ==> file.Listing? && Lists(file.sessions, store) && LoadFile(file) == Success(store)
    {
      var persisted := PersistAll(entries);
      PutNoneEmpty(store, key, session, persisted);
      var byUser := if key in store then store[key] else map[];
      store := store[key := byUser[session := persisted]];
      var sessions := Flatten(o);
      if !written {
        return Failure("Failed to write memory store");
      }
      ListingRestores(store, o);
      file := Listing(sessions);
      r := Success(());
    }

    method Search(key: Key, query: string, order: seq<SessionId>) returns (memories: seq<Entry>)
      requires key in store ==> Enumerates(order, store[key].Keys)
      ensures memories == if Words(query) == {} || key !in store then [] else FoundIn(Words(query), store[key], order)
      ensures forall x ::
        x in memories <==> key in store && exists at: (SessionId, nat) :: FoundAt(query, store[key], at, x)
    {
      if key in store {
        SearchMembers(query, store[key], order);
      }
      var words := Words(query);
      if words == {} || key !in store {
        return [];
      }
      var sessions := store[key];
      memories := [];
      for i := 0 to |order|
        invariant memories == FoundIn(words, sessions, order[..i])
      {
        assert order[..i + 1][..i] == order[..i];
        var entries := sessions[order[i]];
        ghost var before := memories;
        for j := 0 to |entries|
          invariant memories == before + Found(words, entries[..j])
        {
          assert entries[..j + 1][..j] == entries[..j];
          if Matches(words, entries[j]) {
            memories := memories + [Recall(entries[j])];
          }
        }
        assert entries[..|entries|] == entries;
      }
      assert order[..|order|] == order;
    }
  }

  lemma PutNoneEmpty(store: Store, key: Key, session: SessionId, entries: seq<Stored>)
    requires NoneEmpty(store)
    ensures NoneEmpty(Put(store, key, session, entries))
  {
    assert session in Put(store, key, session, entries)[key];
  }

  lemma ListingRestores(store: Store, o: Orders)
    requires NoneEmpty(store) && OrdersOf(o, store)
    ensures Lists(AllListed(store, o, |o.keys|), store) && Loaded(AllListed(store, o, |o.keys|)) == store
  {
    AllListedLists(store, o);
    LoadRestores(AllListed(store, o, |o.keys|), store);
  }

  lemma LoadedNoneEmpty(file: File)
    ensures LoadFile(file).Success? ==> NoneEmpty(LoadFile(file).value)
  {
    if file.Listing? {
      LoadedIsNoneEmpty(file.sessions);
    }
  }

  lemma {:induction false} LoadedIsNoneEmpty(sessions: seq<Saved>)
    ensures NoneEmpty(Loaded(sessions))
  {
    if sessions != [] {
      var last := sessions[|sessions| - 1];
      LoadedIsNoneEmpty(sessions[..|sessions| - 1]);
      assert last.session in Loaded(sessions)[last.key];
    }
  }

  lemma {:induction false} ListedIn(key: Key, sessions: Sessions, order: seq<SessionId>)
    requires forall sid :: sid in order ==> sid in sessions
    ensures |Listed(key, sessions, order)| == |order|
    ensures forall i :: 0 <= i < |order| ==> Listed(key, sessions, order)[i] == Saved(key, order[i], sessions[order[i]])
  {
    if order != [] {
      ListedIn(key, sessions, order[..|order| - 1]);
    }
  }

  lemma DistinctTogether(a: seq<Saved>, b: seq<Saved>)
    requires Distinct(a) && Distinct(b)
    requires forall x, y :: x in a && y in b ==> !SamePlace(x, y)
    ensures Distinct(a + b)
  {
    var l := a + b;
    forall i, j | 0 <= i < j < |l| ensures !SamePlace(l[i], l[j]) {
      if i < |a| <= j {
        assert l[i] in a && l[j] in b;
      }
    }
  }

  /** One user's listing holds that user's sessions, each once. */
  lemma ListedHolds(store: Store, o: Orders, k: Key)
    requires OrdersOf(o, store) && k in store
    ensures var mine := Listed(k, store[k], o.sessions[k]);
      Distinct(mine) && forall s :: s in mine <==> Holds(store, s) && s.key == k
  {
    var mine := Listed(k, store[k], o.sessions[k]);
    ListedIn(k, store[k], o.sessions[k]);
    forall s ensures s in mine <==> Holds(store, s) && s.key == k {
      if Holds(store, s) && s.key == k {
        var i :| 0 <= i < |o.sessions[k]| && o.sessions[k][i] == s.session;
        assert mine[i] == s;
      }
    }
  }

  /** What the first `n` users' listing contains. */
  lemma {:induction false} AllListedContains(store: Store, o: Orders, n: nat)
    requires OrdersOf(o, store) && n <= |o.keys|
    ensures forall s :: s in AllListed(store, o, n) <==> Holds(store, s) && s.key in o.keys[..n]
    ensures Distinct(AllListed(store, o, n))
  {
    if n > 0 {
      var k := o.keys[n - 1];
      AllListedContains(store, o, n - 1);
      ListedHolds(store, o, k);
      assert o.keys[..n] == o.keys[..n - 1] + [k];
      DistinctTogether(AllListed(store, o, n - 1), Listed(k, store[k], o.sessions[k]));
    }
  }

  lemma AllListedLists(store: Store, o: Orders)
    requires OrdersOf(o, store)
    ensures Lists(AllListed(store, o, |o.keys|), store)
  {
    AllListedContains(store, o, |o.keys|);
    assert o.keys[..|o.keys|] == o.keys;
    forall k, sid | k in store && sid in store[k]
      ensures Saved(k, sid, store[k][sid]) in AllListed(store, o, |o.keys|)
    {
      assert Holds(store, Saved(k, sid, store[k][sid]));
    }
  }

  // ---------------------------------------------------------------- runs and restarts

  datatype State = State(store: Store, file: File)

  /** One add; `saved` is the list written, or None if writing failed somewhere. */
  datatype Add = Add(key: Key, session: SessionId, entries: seq<Entry>, saved: Option<seq<Saved>>)

  function Added(store: Store, a: Add): Store {
    Put(store, a.key, a.session, PersistAll(a.entries))
  }

  ghost predicate Possible(store: Store, a: Add) {
    a.saved.Some? ==> Lists(a.saved.value, Added(store, a))
  }

  function After(s: State, a: Add): State {
    State(Added(s.store, a), if a.saved.Some? then Listing(a.saved.value) else s.file)
  }

  ghost predicate PossibleRun(s: State, adds: seq<Add>)
    decreases |adds|
  {
    adds == [] || (Possible(s.store, adds[0]) && PossibleRun(After(s, adds[0]), adds[1..]))
  }

  function AfterRun(s: State, adds: seq<Add>): State
    decreases |adds|
  {
    if adds == [] then s else AfterRun(After(s, adds[0]), adds[1..])
  }

  /** The table as of the last add that was written. */
  function Durable(store: Store, durable: Store, adds: seq<Add>): Store
    decreases |adds|
  {
    if adds == [] then durable
    else
      var next := Added(store, adds[0]);
      Durable(next, if adds[0].saved.Some? then next else durable, adds[1..])
  }

  lemma {:induction false} RestartLoads(s: State, durable: Store, adds: seq<Add>)
    requires NoneEmpty(s.store) && LoadFile(s.file) == Success(durable) && PossibleRun(s, adds)
    ensures LoadFile(AfterRun(s, adds).file) == Success(Durable(s.store, durable, adds))
    ensures NoneEmpty(AfterRun(s, adds).store)
    decreases |adds|
  {
    if adds != [] {
      var next := After(s, adds[0]);
      PutNoneEmpty(s.store, adds[0].key, adds[0].session, PersistAll(adds[0].entries));
      if adds[0].saved.Some? {
        LoadRestores(adds[0].saved.value, next.store);
        RestartLoads(next, next.store, adds[1..]);
      } else {
        RestartLoads(next, durable, adds[1..]);
      }
    }
  }

  lemma {:induction false} DurableIsLatest(s: State, durable: Store, adds: seq<Add>)
    requires adds != [] && adds[|adds| - 1].saved.Some?
    ensures Durable(s.store, durable, adds) == AfterRun(s, adds).store
    decreases |adds|
  {
    var next := After(s, adds[0]);
    if |adds| > 1 {
      assert adds[1..][|adds| - 2] == adds[|adds| - 1];
      DurableIsLatest(next, if adds[0].saved.Some? then next.store else durable, adds[1..]);
    } else {
      assert adds[1..] == [];
    }
  }

  /** Main result: start from whatever a file loads as and add in any way, written in any iteration order
      and failing anywhere. A restart finds the table as of the last written add; so when the last add was
      written, the file and the memory agree. */
  lemma FileAgrees(file: File, adds: seq<Add>)
    requires LoadFile(file).Success?
    requires PossibleRun(State(LoadFile(file).value, file), adds)
    ensures var store := LoadFile(file).value;
      var last := AfterRun(State(store, file), adds);
      && LoadFile(last.file) == Success(Durable(store, store, adds))
      && (adds == [] || adds[|adds| - 1].saved.Some? ==> LoadFile(last.file) == Success(last.store))
  {
    var store := LoadFile(file).value;
    LoadedNoneEmpty(file);
    RestartLoads(State(store, file), store, adds);
    if adds != [] && adds[|adds| - 1].saved.Some? {
      DurableIsLatest(State(store, file), store, adds);
    }
  }

  /** The entries of the last add to one session. */
  function LastFor(adds: seq<Add>, key: Key, session: SessionId): Option<seq<Entry>>
    decreases |adds|
  {
    if adds == [] then None
    else
      var later := LastFor(adds[1..], key, session);
      if later.Some? then later
      else if adds[0].key == key && adds[0].session == session then Some(adds[0].entries)
      else None
  }

  /** An add replaces its own session's entries and nothing else, over every run. */
  lemma {:induction false} StoreIsLatest(s: State, adds: seq<Add>, x: Saved)
    ensures Holds(AfterRun(s, adds).store, x) <==>
            match LastFor(adds, x.key, x.session)
            case Some(entries) => x.entries == PersistAll(entries)
            case None => Holds(s.store, x)
    decreases |adds|
  {
    if adds != [] {
      StoreIsLatest(After(s, adds[0]), adds[1..], x);
    }
  }

  // ---------------------------------------------------------------- searching

  lemma {:induction false} FoundIsMatches(query: set<string>, entries: seq<Stored>, x: Entry)
    ensures x in Found(query, entries) <==>
      exists i :: 0 <= i < |entries| && Matches(query, entries[i]) && x == Recall(entries[i])
  {
    if entries != [] {
      var n := |entries| - 1;
      FoundIsMatches(query, entries[..n], x);
      if i :| 0 <= i < |entries| && Matches(query, entries[i]) && x == Recall(entries[i]) {
        assert i < n ==> entries[..n][i] == entries[i];
      }
      if i :| 0 <= i < n && Matches(query, entries[..n][i]) && x == Recall(entries[..n][i]) {
        assert entries[i] == entries[..n][i];
      }
    }
  }

  function Without(order: seq<SessionId>, j: nat): seq<SessionId>
    requires j < |order|
  {
    order[..j] + order[j + 1..]
  }

  lemma WithoutBits(order: seq<SessionId>, j: nat)
    requires j < |order|
    ensures multiset(order) == multiset(Without(order, j)) + multiset{order[j]}
    ensures forall sid :: sid in Without(order, j) ==> sid in order
    ensures var n := |order| - 1;
      if j == n then Without(order, j) == order[..n] else Without(order, j) == Without(order[..n], j) + [order[n]]
  {
    assert order == order[..j] + [order[j]] + order[j + 1..];
  }

  lemma FoundInAppends(query: set<string>, sessions: Sessions, order: seq<SessionId>, last: SessionId)
    requires forall sid :: sid in order + [last] ==> sid in sessions
    ensures multiset(FoundIn(query, sessions, order + [last])) ==
            multiset(FoundIn(query, sessions, order)) + multiset(Found(query, sessions[last]))
  {
    assert (order + [last])[..|order|] == order;
  }

  lemma {:induction false} PullOut(query: set<string>, sessions: Sessions, order: seq<SessionId>, j: nat)
    requires j < |order| && forall sid :: sid in order ==> sid in sessions
    ensures forall sid :: sid in Without(order, j) ==> sid in sessions
    ensures multiset(FoundIn(query, sessions, order)) ==
            multiset(FoundIn(query, sessions, Without(order, j))) + multiset(Found(query, sessions[order[j]]))
  {
    var n := |order| - 1;
    WithoutBits(order, j);
    assert order == order[..n] + [order[n]];
    FoundInAppends(query, sessions, order[..n], order[n]);
    if j < n {
      PullOut(query, sessions, order[..n], j);
      FoundInAppends(query, sessions, Without(order[..n], j), order[n]);
    }
  }

  lemma SameRest(a: seq<SessionId>, b: seq<SessionId>, j: nat)
    requires a != [] && j < |b| && b[j] == a[|a| - 1] && multiset(a) == multiset(b)
    ensures multiset(a[..|a| - 1]) == multiset(Without(b, j))
  {
    var n := |a| - 1;
    WithoutBits(b, j);
    assert a == a[..n] + [a[n]];
    Cancel(multiset(a[..n]), multiset(Without(b, j)), a[n]);
  }

  lemma Cancel<T>(p: multiset<T>, q: multiset<T>, x: T)
    requires p + multiset{x} == q + multiset{x}
    ensures p == q
  {
    assert p == p + multiset{x} - multiset{x};
    assert q == q + multiset{x} - multiset{x};
  }

  lemma {:induction false} OrderDoesNotShow(
    query: set<string>, sessions: Sessions, a: seq<SessionId>, b: seq<SessionId>)
    requires forall sid :: sid in a ==> sid in sessions
    requires forall sid :: sid in b ==> sid in sessions
    requires multiset(a) == multiset(b)
    ensures multiset(FoundIn(query, sessions, a)) == multiset(FoundIn(query, sessions, b))
  {
    if a == [] {
      assert |b| == |multiset(b)|;
    } else {
      var n := |a| - 1;
      assert a[n] in multiset(b);
      var j :| 0 <= j < |b| && b[j] == a[n];
      SameRest(a, b, j);
      assert a == a[..n] + [a[n]];
      FoundInAppends(query, sessions, a[..n], a[n]);
      PullOut(query, sessions, b, j);
      OrderDoesNotShow(query, sessions, a[..n], Without(b, j));
    }
  }

  lemma {:induction false} EnumerationsMatch<T>(a: seq<T>, b: seq<T>)
    requires forall i, j :: 0 <= i < j < |a| ==> a[i] != a[j]
    requires forall i, j :: 0 <= i < j < |b| ==> b[i] != b[j]
    requires forall x :: x in a <==> x in b
    ensures multiset(a) == multiset(b)
  {
    forall x ensures multiset(a)[x] == multiset(b)[x] {
      CountOnce(a, x);
      CountOnce(b, x);
    }
  }

  lemma {:induction false} CountOnce<T>(a: seq<T>, x: T)
    requires forall i, j :: 0 <= i < j < |a| ==> a[i] != a[j]
    ensures multiset(a)[x] == if x in a then 1 else 0
  {
    if a != [] {
      var n := |a| - 1;
      CountOnce(a[..n], x);
      assert a == a[..n] + [a[n]];
    }
  }

  /** Main result: whichever order the sessions are visited in, a search finds the same entries the same
      number of times, and finds exactly those that share a word with the query. */
  lemma SearchIsDetermined(query: set<string>, sessions: Sessions, a: seq<SessionId>, b: seq<SessionId>, x: Entry)
    requires Enumerates(a, sessions.Keys) && Enumerates(b, sessions.Keys)
    ensures multiset(FoundIn(query, sessions, a)) == multiset(FoundIn(query, sessions, b))
    ensures x in FoundIn(query, sessions, a) <==>
            exists sid, i :: sid in sessions && 0 <= i < |sessions[sid]| && Matches(query, sessions[sid][i]) &&
              x == Recall(sessions[sid][i])
  {
    EnumerationsMatch(a, b);
    OrderDoesNotShow(query, sessions, a, b);
    FoundInSome(query, sessions, a, x);
    if sid, i :|
      sid in sessions && 0 <= i < |sessions[sid]| && Matches(query, sessions[sid][i]) && x == Recall(sessions[sid][i])
    {
      FoundIsMatches(query, sessions[sid], x);
    }
    if sid :| sid in a && x in Found(query, sessions[sid]) {
      FoundIsMatches(query, sessions[sid], x);
    }
  }

  lemma FoundInStep(query: set<string>, sessions: Sessions, order: seq<SessionId>, x: Entry)
    requires order != [] && forall sid :: sid in order ==> sid in sessions
    ensures var n := |order| - 1;
      x in FoundIn(query, sessions, order) <==>
        x in FoundIn(query, sessions, order[..n]) || x in Found(query, sessions[order[n]])
  {
  }

  lemma {:induction false} FoundInSome(query: set<string>, sessions: Sessions, order: seq<SessionId>, x: Entry)
    requires forall sid :: sid in order ==> sid in sessions
    ensures x in FoundIn(query, sessions, order) <==> exists sid :: sid in order && x in Found(query, sessions[sid])
  {
    if order != [] {
      var n := |order| - 1;
      FoundInStep(query, sessions, order, x);
      FoundInSome(query, sessions, order[..n], x);
      if sid :| sid in order && x in Found(query, sessions[sid]) {
        assert sid == order[n] || sid in order[..n];
      }
    }
  }

  /** Main result: after a run whose last add was written, a restarted service has the same users and finds
      the same entries the same number of times, whatever the iteration orders before and after. */
  lemma SearchSurvivesRestart(
    file: File, adds: seq<Add>, key: Key, query: set<string>, a: seq<SessionId>, b: seq<SessionId>)
    requires LoadFile(file).Success? && PossibleRun(State(LoadFile(file).value, file), adds)
    requires adds != [] && adds[|adds| - 1].saved.Some?
    requires var s := AfterRun(State(LoadFile(file).value, file), adds);
      key in s.store && Enumerates(a, s.store[key].Keys) &&
        (LoadFile(s.file).Success? && key in LoadFile(s.file).value ==>
        Enumerates(b, LoadFile(s.file).value[key].Keys))
    ensures var s := AfterRun(State(LoadFile(file).value, file), adds);
      && LoadFile(s.file).Success? && key in LoadFile(s.file).value
      && multiset(FoundIn(query, LoadFile(s.file).value[key], b)) == multiset(FoundIn(query, s.store[key], a))
  {
    FileAgrees(file, adds);
    var s := AfterRun(State(LoadFile(file).value, file), adds);
    SearchIsDetermined(query, s.store[key], a, b, Entry(SystemText(""), "", 0));
  }

  // ---------------------------------------------------------------- queries

  lemma {:induction false} WordsOfSpaced(a: string, c: char, b: string)
    requires IsSpace(c)
    ensures Words(a + [c] + b) == Words(a) + Words(b)
    decreases |a|
  {
    var s := a + [c] + b;
    if a == "" {
      assert s[1..] == b;
    } else if IsSpace(a[0]) {
      assert s[1..] == a[1..] + [c] + b;
      WordsOfSpaced(a[1..], c, b);
    } else {
      FirstSpaceOfSpaced(a, c, b);
      var n := FirstSpace(a);
      assert s[..n] == a[..n] && s[n..] == a[n..] + [c] + b;
      WordsOfSpaced(a[n..], c, b);
    }
  }

  lemma {:induction false} FirstSpaceOfSpaced(a: string, c: char, b: string)
    requires IsSpace(c)
    ensures FirstSpace(a + [c] + b) == FirstSpace(a)
    decreases |a|
  {
    var s := a + [c] + b;
    if a != "" && !IsSpace(a[0]) {
      assert s[1..] == a[1..] + [c] + b;
      FirstSpaceOfSpaced(a[1..], c, b);
    }
  }

  /** A query of two parts finds what either part finds. */
  lemma QueryIsUnion(a: string, b: string, s: Stored)
    ensures Matches(Words(a + " " + b), s) <==> Matches(Words(a), s) || Matches(Words(b), s)
  {
    WordsOfSpaced(a, ' ', b);
    var w := ContentWords(s.content.parts);
    assert (Words(a) + Words(b)) * w == Words(a) * w + Words(b) * w;
  }

  // ---------------------------------------------------------------- what is found

  /** Words do not change when a text is cut where one cannot begin, or where it begins anyway. */
  lemma MaximalShifts(s: string, p: nat, i: nat, j: nat)
    requires p <= |s| && (p == 0 || p == |s| || IsSpace(s[p - 1]) || IsSpace(s[p]))
    ensures Maximal(s[p..], i, j) <==> Maximal(s, p + i, p + j)
  {
    if i < j <= |s| - p {
      assert i == 0 || s[p..][i - 1] == s[p + i - 1];
      if forall k :: p + i <= k < p + j ==> !IsSpace(s[k]) {
        forall k | i <= k < j ensures !IsSpace(s[p..][k]) {
          assert !IsSpace(s[p + k]);
        }
      }
      if forall k :: i <= k < j ==> !IsSpace(s[p..][k]) {
        forall k | p + i <= k < p + j ensures !IsSpace(s[k]) {
          assert !IsSpace(s[p..][k - p]);
        }
      }
    }
  }

  lemma WordsShift(s: string, p: nat, word: string)
    requires p <= |s| && (p == 0 || p == |s| || IsSpace(s[p - 1]) || IsSpace(s[p]))
    ensures IsWord(s[p..], word) ==> IsWord(s, word)
    ensures (exists i: nat, j: nat :: p <= i && Maximal(s, i, j) && Lowers(s[i..j], word)) ==> IsWord(s[p..], word)
  {
    if i: nat, j: nat :| Maximal(s[p..], i, j) && Lowers(s[p..][i..j], word) {
      MaximalShifts(s, p, i, j);
      assert s[p..][i..j] == s[p + i..p + j];
    }
    if i: nat, j: nat :| p <= i && Maximal(s, i, j) && Lowers(s[i..j], word) {
      MaximalShifts(s, p, i - p, j - p);
      assert s[p..][i - p..j - p] == s[i..j];
    }
  }

  /** A word that begins before the first white space is what stands before it. */
  lemma FirstWord(s: string, i: nat, j: nat)
    requires Maximal(s, i, j) && i < FirstSpace(s)
    ensures i == 0 && j == FirstSpace(s)
  {
  }

  /** Main result: the words of a text are exactly the longest parts of it without white space, in
      small letters. */
  lemma {:induction false} WordsAre(s: string, word: string)
    ensures word in Words(s) <==> IsWord(s, word)
    decreases |s|
  {
    if s != "" && IsSpace(s[0]) {
      WordsAre(s[1..], word);
      WordsShift(s, 1, word);
    } else if s != "" {
      var n := FirstSpace(s);
      WordsAre(s[n..], word);
      WordsShift(s, n, word);
      LowerIs(s[..n], word);
      assert Maximal(s, 0, n) && s[0..n] == s[..n];
      if i: nat, j: nat :| Maximal(s, i, j) && Lowers(s[i..j], word) {
        if i < n {
          FirstWord(s, i, j);
        }
      }
    }
  }

  lemma {:induction false} ContentWordsAre(parts: seq<Part>, word: string)
    ensures word in ContentWords(parts) <==>
      exists p :: 0 <= p < |parts| && parts[p].Text? && IsWord(parts[p].text, word)
  {
    if parts != [] {
      var n := |parts| - 1;
      ContentWordsAre(parts[..n], word);
      if parts[n].Text? {
        WordsAre(parts[n].text, word);
      }
      if p :| 0 <= p < |parts| && parts[p].Text? && IsWord(parts[p].text, word) {
        assert p < n ==> parts[..n][p] == parts[p];
      }
      if p :| 0 <= p < n && parts[..n][p].Text? && IsWord(parts[..n][p].text, word) {
        assert parts[p] == parts[..n][p];
      }
    }
  }

  /** Some word of the query is a word of some text part. */
  ghost predicate Shares(query: string, s: Stored) {
    exists word, p ::
      0 <= p < |s.content.parts| && s.content.parts[p].Text? && IsWord(query, word)
      && IsWord(s.content.parts[p].text, word)
  }

  lemma MatchesIff(query: string, s: Stored)
    ensures Matches(Words(query), s) <==> Shares(query, s)
  {
    var parts := s.content.parts;
    if Matches(Words(query), s) {
      var word :| word in Words(query) * ContentWords(parts);
      WordsAre(query, word);
      ContentWordsAre(parts, word);
    }
    if word, p :| 0 <= p < |parts| && parts[p].Text? && IsWord(query, word) && IsWord(parts[p].text, word) {
      WordsAre(query, word);
      ContentWordsAre(parts, word);
      assert word in Words(query) * ContentWords(parts);
    }
  }

  /** The entry as it is found: content and author, and the time in milliseconds. */
  predicate ComesBack(s: Stored, x: Entry) {
    x.content == s.content && x.author == s.author && x.at == s.millis * 1_000_000
  }

  /** A position of one session holds a match, and `x` is how it is found. */
  ghost predicate FoundAt(query: string, sessions: Sessions, at: (SessionId, nat), x: Entry) {
    && at.0 in sessions && at.1 < |sessions[at.0]|
    && Shares(query, sessions[at.0][at.1]) && ComesBack(sessions[at.0][at.1], x)
  }

  /** `at` are the positions of one session's matches, in its order, and `found` what they are found as. */
  ghost predicate FoundHere(query: string, entries: seq<Stored>, found: seq<Entry>, at: seq<nat>) {
    && |at| == |found|
    && (forall k :: 0 <= k < |at| ==>
          at[k] < |entries| && Shares(query, entries[at[k]]) && ComesBack(entries[at[k]], found[k]))
    && (forall k, l :: 0 <= k < l < |at| ==> at[k] < at[l])
    && forall i :: 0 <= i < |entries| && Shares(query, entries[i]) ==> i in at
  }

  /** One more entry at the end of the session. */
  lemma {:induction false} FoundHereNext(
    query: string, entries: seq<Stored>, found: seq<Entry>, at: seq<nat>, s: Stored)
    requires FoundHere(query, entries, found, at)
    ensures if Shares(query, s) then FoundHere(query, entries + [s], found + [Recall(s)], at + [|entries|])
            else FoundHere(query, entries + [s], found, at)
  {
    var all := entries + [s];
    forall i | 0 <= i < |entries| && Shares(query, all[i]) ensures i in at {
      assert all[i] == entries[i];
    }
  }

  lemma {:induction false} FoundPositions(query: string, entries: seq<Stored>) returns (at: seq<nat>)
    ensures FoundHere(query, entries, Found(Words(query), entries), at)
  {
    at := [];
    if entries != [] {
      var n := |entries| - 1;
      at := FoundPositions(query, entries[..n]);
      MatchesIff(query, entries[n]);
      FoundHereNext(query, entries[..n], Found(Words(query), entries[..n]), at, entries[n]);
      assert entries == entries[..n] + [entries[n]];
      if Matches(Words(query), entries[n]) {
        at := at + [n];
      }
    }
  }

  function Tagged(sid: SessionId, at: seq<nat>): (r: seq<(SessionId, nat)>)
    ensures |r| == |at| && forall k :: 0 <= k < |at| ==> r[k] == (sid, at[k])
  {
    seq(|at|, k requires 0 <= k < |at| => (sid, at[k]))
  }

  /** `at` are the positions of the matches of the sessions visited, each once, those of one session in its
      order, and `found` what they are found as. */
  ghost predicate FoundAmong(
    query: string, sessions: Sessions, order: seq<SessionId>, found: seq<Entry>, at: seq<(SessionId, nat)>)
    requires forall sid :: sid in order ==> sid in sessions
  {
    && |at| == |found|
    && (forall k :: 0 <= k < |at| ==> at[k].0 in order && FoundAt(query, sessions, at[k], found[k]))
    && (forall k, l :: 0 <= k < l < |at| && at[k].0 == at[l].0 ==> at[k].1 < at[l].1)
    && forall sid, i: nat ::
      sid in order && i < |sessions[sid]| && Shares(query, sessions[sid][i]) ==> (sid, i) in at
  }

  /** One more session visited. */
  lemma {:induction false} FoundAmongNext(
    query: string, sessions: Sessions, order: seq<SessionId>, found: seq<Entry>, at: seq<(SessionId, nat)>,
    last: SessionId, more: seq<Entry>, mine: seq<nat>)
    requires last in sessions && last !in order && forall sid :: sid in order ==> sid in sessions
    requires FoundAmong(query, sessions, order, found, at) && FoundHere(query, sessions[last], more, mine)
    ensures FoundAmong(query, sessions, order + [last], found + more, at + Tagged(last, mine))
  {
    var all := at + Tagged(last, mine);
    forall sid, i: nat | sid in order + [last] && i < |sessions[sid]| && Shares(query, sessions[sid][i])
      ensures (sid, i) in all
    {
      if sid == last {
        var k :| 0 <= k < |mine| && mine[k] == i;
        assert all[|at| + k] == (sid, i);
      }
    }
  }

  /** Main result: a search finds every entry that shares a word with the query, each once, those of one
      session in its order, and nothing else. `at` says where each was found. */
  lemma {:induction false} SearchFinds(query: string, sessions: Sessions, order: seq<SessionId>)
    returns (at: seq<(SessionId, nat)>)
    requires forall sid :: sid in order ==> sid in sessions
    requires forall i, j :: 0 <= i < j < |order| ==> order[i] != order[j]
    ensures FoundAmong(query, sessions, order, FoundIn(Words(query), sessions, order), at)
  {
    at := [];
    if order != [] {
      var n := |order| - 1;
      at := SearchFinds(query, sessions, order[..n]);
      var mine := FoundPositions(query, sessions[order[n]]);
      FoundAmongNext(query, sessions, order[..n], FoundIn(Words(query), sessions, order[..n]), at, order[n],
        Found(Words(query), sessions[order[n]]), mine);
      assert order == order[..n] + [order[n]];
      at := at + Tagged(order[n], mine);
    }
  }

  lemma SearchMembers(query: string, sessions: Sessions, order: seq<SessionId>)
    requires Enumerates(order, sessions.Keys)
    ensures forall x ::
      x in FoundIn(Words(query), sessions, order) <==> exists at: (SessionId, nat) :: FoundAt(query, sessions, at, x)
    ensures Words(query) == {} ==> forall x, at: (SessionId, nat) :: !FoundAt(query, sessions, at, x)
  {
    var found := FoundIn(Words(query), sessions, order);
    var where := SearchFinds(query, sessions, order);
    forall x, at: (SessionId, nat) | FoundAt(query, sessions, at, x) ensures x in found && Words(query) != {} {
      MatchesIff(query, sessions[at.0][at.1]);
      var k :| 0 <= k < |where| && where[k] == at;
      assert ComesBack(sessions[at.0][at.1], found[k]) && found[k] == x;
    }
  }
}

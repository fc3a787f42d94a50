/** The remote side of the Google Drive API, as seen by the connector: an in-memory
    store of created items with a fresh-id counter, a log of every request issued
    to it, and a fault plan saying which requests fail with an I/O error. */
module DriveBackend {
  import opened Wrappers

  /** The metadata sent with a create request. A `None` name is Java's `null`. */
  datatype Metadata = Metadata(name: Option<string>, driveId: string, parents: seq<string>, mimeType: string)

  /** A stored file or folder; folders carry no content. */
  datatype Item = Item(id: string, meta: Metadata, content: Option<seq<bv8>>)

  /** A shared drive as returned by the drives listing. */
  datatype DriveInfo = DriveInfo(id: string, name: string)

  /** One page of the drives listing; page tokens are the index of the page they designate. */
  datatype DrivesPage = DrivesPage(drives: seq<DriveInfo>, nextPageToken: Option<nat>)

  /** A request issued to the remote store. */
  datatype Call =
    | CreateCall(meta: Metadata, content: Option<seq<bv8>>)
    | DeleteCall(fileId: string)
    | ListFilesCall(driveId: string, q: Option<string>)
    | ListDrivesCall(pageToken: Option<nat>)

  /** Why a request failed; every kind reaches the client as an `IOException`. */
  datatype RemoteError = Unavailable | NotFound | InvalidRequest

  /** The whole remote state. `failAt` holds the positions in `log` of the requests
      that fail; `drivePages` is the drives listing, page by page. */
  datatype Store = Store(items: seq<Item>, nextId: nat, log: seq<Call>, failAt: set<nat>,
                         drivePages: seq<seq<DriveInfo>>)

  function Digit(d: nat): (c: char)
    requires d < 10
    ensures '0' <= c <= '9'
  {
    (48 + d) as char
  }

  /** The id the store hands out for its `n`-th created item: `n` in decimal. */
  function IdOf(n: nat): (id: string)
    ensures 0 < |id|
    ensures forall i :: 0 <= i < |id| ==> '0' <= id[i] <= '9'
    ensures n >= 10 ==> |id| >= 2
    decreases n
  {
    if n < 10 then [Digit(n)] else IdOf(n / 10) + [Digit(n % 10)]
  }

  lemma {:induction false} IdOfInjective(a: nat, b: nat)
    ensures IdOf(a) == IdOf(b) ==> a == b
    decreases a
  {
    if IdOf(a) == IdOf(b) {
      if a < 10 && b < 10 {
        assert IdOf(a)[0] == Digit(a) && IdOf(b)[0] == Digit(b);
      } else if a >= 10 && b >= 10 {
        var ia, ib := IdOf(a), IdOf(b);
        assert ia[|ia| - 1] == Digit(a % 10) && ib[|ib| - 1] == Digit(b % 10);
        assert ia[..|ia| - 1] == IdOf(a / 10) && ib[..|ib| - 1] == IdOf(b / 10);
        IdOfInjective(a / 10, b / 10);
      }
    }
  }

  /** The ids handed out while the counter went from 0 to `n`. */
  ghost function Issued(n: nat): set<string> {
    set k | 0 <= k < n :: IdOf(k)
  }

  /** The id handed out next is new. */
  lemma FreshId(n: nat)
    ensures IdOf(n) !in Issued(n)
  {
    forall k | 0 <= k < n ensures IdOf(k) != IdOf(n) {
      IdOfInjective(k, n);
    }
  }

  /** Every stored id was handed out by the counter, and no two items share an id. */
  ghost predicate ValidStore(s: Store) {
    (forall x :: x in s.items ==> x.id in Issued(s.nextId)) && UniqueIds(s.items)
  }

  ghost predicate UniqueIds(items: seq<Item>) {
    items == [] || (!HasId(items[1..], items[0].id) && UniqueIds(items[1..]))
  }

  predicate HasId(items: seq<Item>, id: string) {
    exists x :: x in items && x.id == id
  }

  /** `items` without the items whose id is `id`, in their original order. */
  function Without(items: seq<Item>, id: string): (r: seq<Item>)
    ensures forall x :: x in r <==> x in items && x.id != id
    ensures |r| <= |items|
  {
    if items == [] then []
    else (if items[0].id == id then [] else [items[0]]) + Without(items[1..], id)
  }

  /** The items of drive `driveId`, restricted to the children of `parent` when one is given. */
  function Select(items: seq<Item>, driveId: string, parent: Option<string>): seq<Item> {
    if items == [] then []
    else (if InListing(items[0], driveId, parent) then [items[0]] else []) + Select(items[1..], driveId, parent)
  }

  predicate InListing(x: Item, driveId: string, parent: Option<string>) {
    x.meta.driveId == driveId && (parent.Some? ==> parent.value in x.meta.parents)
  }

  /** A listing holds exactly the stored items that match it. */
  lemma {:induction false} SelectMembers(items: seq<Item>, driveId: string, parent: Option<string>)
    ensures forall x :: x in Select(items, driveId, parent) <==> x in items && InListing(x, driveId, parent)
  {
    if items != [] {
      SelectMembers(items[1..], driveId, parent);
      assert items == [items[0]] + items[1..];
    }
  }

  const ParentsSuffix := "' in parents"

  /** The store's reading of a `'<id>' in parents` query. Only literals without a quote
      or a backslash are read; every other query is refused. */
  function ParseParentsQuery(q: string): Option<string> {
    if |q| > |ParentsSuffix| && q[0] == '\'' && q[|q| - |ParentsSuffix|..] == ParentsSuffix
       && '\'' !in q[1..|q| - |ParentsSuffix|] && '\\' !in q[1..|q| - |ParentsSuffix|]
    then Some(q[1..|q| - |ParentsSuffix|])
    else None
  }

  /** Appends a request to the log. */
  function Record(s: Store, c: Call): Store {
    s.(log := s.log + [c])
  }

  /** Whether the request about to be issued is one that fails. */
  predicate FailsNext(s: Store) {
    |s.log| in s.failAt
  }

  /** `files().create(...)`: one new item with a fresh id. */
  function CreateItem(s: Store, meta: Metadata, content: Option<seq<bv8>>): (Store, Result<string, RemoteError>) {
    var s1 := Record(s, CreateCall(meta, content));
    if FailsNext(s) then (s1, Err(Unavailable))
    else
      var id := IdOf(s.nextId);
      (s1.(items := s.items + [Item(id, meta, content)], nextId := s.nextId + 1), Ok(id))
  }

  /** `files().delete(id)`: removes the item with that id; an unknown id is not found. */
  function DeleteItem(s: Store, id: string): (Store, Outcome<RemoteError>) {
    var s1 := Record(s, DeleteCall(id));
    if FailsNext(s) then (s1, Fail(Unavailable))
    else if !HasId(s.items, id) then (s1, Fail(NotFound))
    else (s1.(items := Without(s.items, id)), Pass)
  }

  /** `files().list()` over the corpus of drive `driveId`, with an optional query. */
  function ListItems(s: Store, driveId: string, q: Option<string>): (Store, Result<seq<Item>, RemoteError>) {
    var s1 := Record(s, ListFilesCall(driveId, q));
    if FailsNext(s) then (s1, Err(Unavailable))
    else if q.None? then (s1, Ok(Select(s.items, driveId, None)))
    else match ParseParentsQuery(q.value)
      case None => (s1, Err(InvalidRequest))
      case Some(parent) => (s1, Ok(Select(s.items, driveId, Some(parent))))
  }

  /** The page index a token designates; the absent token designates the first page. */
  function PageIndex(pageToken: Option<nat>): nat {
    if pageToken.None? then 0 else pageToken.value
  }

  /** `drives().list().setPageToken(pageToken)`: the designated page, and a token for the next one if any. */
  function ListDrivesPage(s: Store, pageToken: Option<nat>): (Store, Result<DrivesPage, RemoteError>) {
    var s1 := Record(s, ListDrivesCall(pageToken));
    var i := PageIndex(pageToken);
    if FailsNext(s) then (s1, Err(Unavailable))
    else if i < |s.drivePages| then
      (s1, Ok(DrivesPage(s.drivePages[i], if i + 1 < |s.drivePages| then Some(i + 1) else None)))
    else if pageToken.None? then (s1, Ok(DrivesPage([], None)))
    else (s1, Err(InvalidRequest))
  }

  /** A create keeps the store valid and hands out an id no stored item has. */
  lemma CreateKeepsValid(s: Store, meta: Metadata, content: Option<seq<bv8>>)
    requires ValidStore(s)
    ensures var (s1, r) := CreateItem(s, meta, content);
      ValidStore(s1) && (r.Ok? ==> !HasId(s.items, r.value))
  {
    var (s1, r) := CreateItem(s, meta, content);
    if r.Ok? {
      FreshId(s.nextId);
      assert Issued(s.nextId) + {IdOf(s.nextId)} <= Issued(s1.nextId);
      UniqueAppend(s.items, Item(r.value, meta, content));
    }
  }

  lemma {:induction false} UniqueAppend(items: seq<Item>, x: Item)
    requires UniqueIds(items) && !HasId(items, x.id)
    ensures UniqueIds(items + [x])
  {
    if items != [] {
      assert (items + [x])[1..] == items[1..] + [x];
      UniqueAppend(items[1..], x);
      assert !HasId(items[1..] + [x], items[0].id) by {
        assert items[0] in items;
      }
    } else {
      assert [x][1..] == [];
    }
  }

  /** A delete of a stored id removes exactly that item and keeps the store valid;
      any other outcome leaves the items as they were. */
  lemma DeleteRemovesOnly(s: Store, id: string)
    requires ValidStore(s)
    ensures var (s1, r) := DeleteItem(s, id);
      && s1.log == s.log + [DeleteCall(id)]
      && (r.Pass? <==> !FailsNext(s) && HasId(s.items, id))
      && (r.Pass? ==> !HasId(s1.items, id) && |s1.items| == |s.items| - 1)
      && (forall x :: x in s.items && x.id != id ==> x in s1.items)
      && (r.Fail? ==> s1.items == s.items)
      && ValidStore(s1)
  {
    WithoutOfUnique(s.items, id);
  }

  /** With unique ids, removing an id drops one item if it is present and none otherwise. */
  lemma {:induction false} WithoutOfUnique(items: seq<Item>, id: string)
    requires UniqueIds(items)
    ensures UniqueIds(Without(items, id))
    ensures HasId(items, id) ==> |Without(items, id)| == |items| - 1
    ensures !HasId(items, id) ==> Without(items, id) == items
  {
    if items != [] {
      var rest := Without(items[1..], id);
      WithoutOfUnique(items[1..], id);
      if items[0].id == id {
        assert Without(items, id) == rest;
        assert rest == items[1..];
      } else {
        assert Without(items, id) == [items[0]] + rest;
        assert ([items[0]] + rest)[1..] == rest;
        assert !HasId(rest, items[0].id);
        assert HasId(items, id) <==> HasId(items[1..], id) by {
          if HasId(items, id) {
            var x :| x in items && x.id == id;
            assert x in items[1..];
          }
        }
        if !HasId(items, id) {
          assert items == [items[0]] + items[1..];
        }
      }
    }
  }

  /** The remote store a Drive session talks to. Each method applies one request to it. */
  class RemoteDrive {
    var items: seq<Item>
    var nextId: nat
    var log: seq<Call>
    const failAt: set<nat>
    const drivePages: seq<seq<DriveInfo>>

    function Snapshot(): Store
      reads this
    {
      Store(items, nextId, log, failAt, drivePages)
    }

    /** The store this session talks to keeps its ids issued and unique. */
    ghost predicate Valid()
      reads this
    {
      ValidStore(Snapshot())
    }

    constructor (failAt: set<nat>, drivePages: seq<seq<DriveInfo>>)
      ensures Snapshot() == Store([], 0, [], failAt, drivePages)
      ensures Valid()
    {
      this.items, this.nextId, this.log := [], 0, [];
      this.failAt, this.drivePages := failAt, drivePages;
    }

    method Create(meta: Metadata, content: Option<seq<bv8>>) returns (r: Result<string, RemoteError>)
      modifies this
      ensures (Snapshot(), r) == CreateItem(old(Snapshot()), meta, content)
      ensures old(Valid()) ==> Valid()
    {
      if Valid() {
        CreateKeepsValid(Snapshot(), meta, content);
      }
      var step := CreateItem(Snapshot(), meta, content);
      items, nextId, log, r := step.0.items, step.0.nextId, step.0.log, step.1;
    }

    method Delete(id: string) returns (r: Outcome<RemoteError>)
      modifies this
      ensures (Snapshot(), r) == DeleteItem(old(Snapshot()), id)
      ensures old(Valid()) ==> Valid()
    {
      if Valid() {
        DeleteRemovesOnly(Snapshot(), id);
      }
      var step := DeleteItem(Snapshot(), id);
      items, nextId, log, r := step.0.items, step.0.nextId, step.0.log, step.1;
    }

    method List(driveId: string, q: Option<string>) returns (r: Result<seq<Item>, RemoteError>)
      modifies this
      ensures (Snapshot(), r) == ListItems(old(Snapshot()), driveId, q)
      ensures old(Valid()) ==> Valid()
    {
      var step := ListItems(Snapshot(), driveId, q);
      log, r := step.0.log, step.1;
    }

    method Drives(pageToken: Option<nat>) returns (r: Result<DrivesPage, RemoteError>)
      modifies this
      ensures (Snapshot(), r) == ListDrivesPage(old(Snapshot()), pageToken)
      ensures old(Valid()) ==> Valid()
    {
      var step := ListDrivesPage(Snapshot(), pageToken);
      log, r := step.0.log, step.1;
    }
  }
}

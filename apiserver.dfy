/**
 * The live-resource client the controller talks to (`client.Client`):
 * get, create, update and delete by kind and identity. Transport failures
 * are an input: every call on a key in `failing` fails and changes nothing.
 */
module ApiServer {
  import opened Wrappers
  import opened K8s

  datatype ApiError = NotFound | AlreadyExists | Transport

  /** A write the controller issued, whatever its outcome. */
  datatype Write = Created(key: Key) | Updated(key: Key) | Deleted(key: Key)

  datatype Fetched = Found(obj: Object) | Missing | FetchFailed

  type Store = map<Key, Object>

  /** Every object is stored under its own key. */
  ghost predicate WellKeyed(objects: Store) {
    forall k | k in objects :: KeyOf(objects[k]) == k
  }

  function Lookup(objects: Store, failing: set<Key>, key: Key): (r: Fetched)
    ensures r.Found? <==> key !in failing && key in objects
    ensures r.Found? ==> r.obj == objects[key]
    ensures r.FetchFailed? <==> key in failing
  {
    if key in failing then FetchFailed
    else if key in objects then Found(objects[key])
    else Missing
  }

  function CreateError(objects: Store, failing: set<Key>, obj: Object): Option<ApiError> {
    if KeyOf(obj) in failing then Some(Transport)
    else if KeyOf(obj) in objects then Some(AlreadyExists)
    else None
  }

  function UpdateError(objects: Store, failing: set<Key>, obj: Object): Option<ApiError> {
    if KeyOf(obj) in failing then Some(Transport)
    else if KeyOf(obj) !in objects then Some(NotFound)
    else None
  }

  function DeleteError(objects: Store, failing: set<Key>, key: Key): Option<ApiError> {
    if key in failing then Some(Transport)
    else if key !in objects then Some(NotFound)
    else None
  }

  function AfterCreate(objects: Store, failing: set<Key>, obj: Object): (r: Store)
    ensures WellKeyed(objects) ==> WellKeyed(r)
  {
    if CreateError(objects, failing, obj).None? then objects[KeyOf(obj) := obj] else objects
  }

  function AfterUpdate(objects: Store, failing: set<Key>, obj: Object): (r: Store)
    ensures WellKeyed(objects) ==> WellKeyed(r)
  {
    if UpdateError(objects, failing, obj).None? then objects[KeyOf(obj) := obj] else objects
  }

  function AfterDelete(objects: Store, failing: set<Key>, key: Key): (r: Store)
    ensures WellKeyed(objects) ==> WellKeyed(r)
  {
    if DeleteError(objects, failing, key).None? then objects - {key} else objects
  }

  /** The keys of the deletes in a write log, in order. */
  function DeletedKeys(ws: seq<Write>): (r: seq<Key>)
    ensures forall k :: k in r <==> Deleted(k) in ws
  {
    if ws == [] then []
    else (if ws[0].Deleted? then [ws[0].key] else []) + DeletedKeys(ws[1..])
  }

  lemma {:induction false} DeletedKeysAppend(a: seq<Write>, b: seq<Write>)
    ensures DeletedKeys(a + b) == DeletedKeys(a) + DeletedKeys(b)
  {
    if a == [] {
      assert a + b == b;
    } else {
      var head := if a[0].Deleted? then [a[0].key] else [];
      assert (a + b)[0] == a[0];
      assert (a + b)[1..] == a[1..] + b;
      DeletedKeysAppend(a[1..], b);
      calc {
        DeletedKeys(a + b);
        head + DeletedKeys(a[1..] + b);
        head + (DeletedKeys(a[1..]) + DeletedKeys(b));
        (head + DeletedKeys(a[1..])) + DeletedKeys(b);
        DeletedKeys(a) + DeletedKeys(b);
      }
    }
  }

  /** `after` extends the log `before`, and the deletes it adds are exactly `deleted`, in order. */
  ghost predicate Extends(before: seq<Write>, after: seq<Write>, deleted: seq<Key>) {
    before <= after && DeletedKeys(after) == DeletedKeys(before) + deleted
  }

  /** Moreover every write it adds is for a key in `keys`. */
  ghost predicate Logged(before: seq<Write>, after: seq<Write>, keys: set<Key>, deleted: seq<Key>) {
    && Extends(before, after, deleted)
    && (forall i | |before| <= i < |after| :: after[i].key in keys)
  }

  lemma ExtendsTrans(a: seq<Write>, b: seq<Write>, c: seq<Write>, d1: seq<Key>, d2: seq<Key>)
    requires Extends(a, b, d1) && Extends(b, c, d2)
    ensures Extends(a, c, d1 + d2)
  {
    assert DeletedKeys(a) + d1 + d2 == DeletedKeys(a) + (d1 + d2);
  }

  lemma LoggedTrans(a: seq<Write>, b: seq<Write>, c: seq<Write>, k1: set<Key>, k2: set<Key>, d1: seq<Key>, d2: seq<Key>)
    requires Logged(a, b, k1, d1) && Logged(b, c, k2, d2)
    ensures Logged(a, c, k1 + k2, d1 + d2)
  {
    ExtendsTrans(a, b, c, d1, d2);
  }

  lemma LoggedWeaken(a: seq<Write>, b: seq<Write>, k1: set<Key>, k2: set<Key>, d: seq<Key>)
    requires Logged(a, b, k1, d) && k1 <= k2
    ensures Logged(a, b, k2, d)
  {
  }

  /** A write log extended by `ws`, all for `key`, whose deletes are `deleted`. */
  lemma LoggedAppend(before: seq<Write>, ws: seq<Write>, key: Key, deleted: seq<Key>)
    requires forall w | w in ws :: w.key == key
    requires DeletedKeys(ws) == deleted
    ensures Logged(before, before + ws, {key}, deleted)
  {
    DeletedKeysAppend(before, ws);
    forall i | |before| <= i < |before + ws| ensures (before + ws)[i].key in {key} {
      assert (before + ws)[i] == ws[i - |before|];
    }
  }

  class Client {
    var objects: Store
    var failing: set<Key>
    var writes: seq<Write>

    ghost predicate Valid()
      reads this
    {
      WellKeyed(objects)
    }

    constructor (objects: Store, failing: set<Key>)
      requires WellKeyed(objects)
      ensures Valid()
      ensures this.objects == objects && this.failing == failing && writes == []
    {
      this.objects := objects;
      this.failing := failing;
      this.writes := [];
    }

    method Get(key: Key) returns (r: Fetched)
      ensures r == Lookup(objects, failing, key)
    {
      if key in failing {
        r := FetchFailed;
      } else if key in objects {
        r := Found(objects[key]);
      } else {
        r := Missing;
      }
    }

    method Create(obj: Object) returns (err: Option<ApiError>)
      requires Valid()
      modifies this
      ensures Valid() && failing == old(failing)
      ensures err == CreateError(old(objects), failing, obj)
      ensures objects == AfterCreate(old(objects), failing, obj)
      ensures writes == old(writes) + [Created(KeyOf(obj))]
    {
      err := CreateError(objects, failing, obj);
      if err.None? {
        objects := objects[KeyOf(obj) := obj];
      }
      writes := writes + [Created(KeyOf(obj))];
    }

    method Update(obj: Object) returns (err: Option<ApiError>)
      requires Valid()
      modifies this
      ensures Valid() && failing == old(failing)
      ensures err == UpdateError(old(objects), failing, obj)
      ensures objects == AfterUpdate(old(objects), failing, obj)
      ensures writes == old(writes) + [Updated(KeyOf(obj))]
    {
      err := UpdateError(objects, failing, obj);
      if err.None? {
        objects := objects[KeyOf(obj) := obj];
      }
      writes := writes + [Updated(KeyOf(obj))];
    }

    method Delete(key: Key) returns (err: Option<ApiError>)
      requires Valid()
      modifies this
      ensures Valid() && failing == old(failing)
      ensures err == DeleteError(old(objects), failing, key)
      ensures objects == AfterDelete(old(objects), failing, key)
      ensures writes == old(writes) + [Deleted(key)]
    {
      err := DeleteError(objects, failing, key);
      if err.None? {
        objects := objects - {key};
      }
      writes := writes + [Deleted(key)];
    }
  }
}

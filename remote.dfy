// The S3 bucket as the command line module sees it through boto: keyed
// objects with their contents, ETag (the MD5 of the contents) and
// Last-Modified text, a prefix listing, and the two mutations the module
// issues (set_contents_from_filename and delete), recorded in a log.

module Remote {
  import opened Text
  import opened Md5

  /** A boto key: name, contents, ETag and Last-Modified as S3 reports it. */
  datatype RemoteObj = RemoteObj(key: string, data: seq<byte>, md5: string, lastModified: string)

  /** A mutation of the bucket. */
  datatype Op = Put(key: string, data: seq<byte>) | Delete(key: string)

  /** Every object is stored under its own name. */
  predicate Keyed(objects: map<string, RemoteObj>) {
    forall k :: k in objects ==> objects[k].key == k
  }

  /** The effect of one mutation: a put replaces the object, with the ETag S3
      computes and the time of the upload; deleting a missing key does nothing. */
  function Apply(objects: map<string, RemoteObj>, op: Op, etag: Digest, now: string): map<string, RemoteObj> {
    match op
    case Put(k, data) => objects[k := RemoteObj(k, data, etag(data), now)]
    case Delete(k) => objects - {k}
  }

  function ApplyAll(objects: map<string, RemoteObj>, ops: seq<Op>, etag: Digest, now: string): map<string, RemoteObj>
    decreases |ops|
  {
    if ops == [] then objects
    else Apply(ApplyAll(objects, ops[..|ops| - 1], etag, now), ops[|ops| - 1], etag, now)
  }

  /** Replaying a log in two parts is replaying it whole. */
  lemma {:induction false} ApplyAllConcat(objects: map<string, RemoteObj>, a: seq<Op>, b: seq<Op>, etag: Digest, now: string)
    ensures ApplyAll(objects, a + b, etag, now) == ApplyAll(ApplyAll(objects, a, etag, now), b, etag, now)
    decreases |b|
  {
    if b == [] {
      assert a + b == a;
    } else {
      assert (a + b)[..|a + b| - 1] == a + b[..|b| - 1];
      ApplyAllConcat(objects, a, b[..|b| - 1], etag, now);
    }
  }

  lemma {:induction false} ApplyAllKeyed(objects: map<string, RemoteObj>, ops: seq<Op>, etag: Digest, now: string)
    requires Keyed(objects)
    ensures Keyed(ApplyAll(objects, ops, etag, now))
    decreases |ops|
  {
    if ops != [] {
      ApplyAllKeyed(objects, ops[..|ops| - 1], etag, now);
    }
  }

  /** A key the log never mentions keeps its object. */
  lemma {:induction false} UntouchedKey(objects: map<string, RemoteObj>, ops: seq<Op>, etag: Digest, now: string, k: string)
    requires forall i :: 0 <= i < |ops| ==> ops[i].key != k
    ensures k in ApplyAll(objects, ops, etag, now) <==> k in objects
    ensures k in objects ==> ApplyAll(objects, ops, etag, now)[k] == objects[k]
    decreases |ops|
  {
    if ops != [] {
      UntouchedKey(objects, ops[..|ops| - 1], etag, now, k);
    }
  }

  /** The last mutation of a key decides whether it is present afterwards. */
  lemma {:induction false} LastOpDecides(objects: map<string, RemoteObj>, ops: seq<Op>, etag: Digest, now: string, i: nat)
    requires i < |ops|
    requires forall j :: i < j < |ops| ==> ops[j].key != ops[i].key
    ensures ops[i].key in ApplyAll(objects, ops, etag, now) <==> ops[i].Put?
    decreases |ops|
  {
    if i < |ops| - 1 {
      LastOpDecides(objects, ops[..|ops| - 1], etag, now, i);
    }
  }

  /** `items` is a listing of the objects under `prefix`: every listed object is
      the stored object of its key and has the prefix, every such key is listed,
      and no key is listed twice. */
  predicate IsListing(objects: map<string, RemoteObj>, prefix: string, items: seq<RemoteObj>) {
    && (forall i :: 0 <= i < |items| ==>
          items[i].key in objects && objects[items[i].key] == items[i] && StartsWith(items[i].key, prefix))
    && (forall k :: k in objects && StartsWith(k, prefix) ==> exists i :: 0 <= i < |items| && items[i].key == k)
    && (forall i, j :: 0 <= i < j < |items| ==> items[i].key != items[j].key)
  }

  /** The bucket. `log` records every mutation issued through this model, and
      the objects are always the initial ones with the log replayed. */
  class Store {
    const initial: map<string, RemoteObj>
    /** The ETag S3 assigns to uploaded contents. */
    const etag: Digest
    /** The Last-Modified text S3 gives an upload. */
    const now: string
    var objects: map<string, RemoteObj>
    var log: seq<Op>

    predicate Valid()
      reads this
    {
      Keyed(initial) && objects == ApplyAll(initial, log, etag, now)
    }

    constructor(initial: map<string, RemoteObj>, etag: Digest, now: string)
      requires Keyed(initial)
      ensures Valid() && log == [] && objects == initial
      ensures this.initial == initial && this.etag == etag && this.now == now
    {
      this.initial := initial;
      this.etag := etag;
      this.now := now;
      objects := initial;
      log := [];
    }

    /** Key.set_contents_from_filename */
    method Put(key: string, data: seq<byte>)
      requires Valid()
      modifies this
      ensures Valid() && log == old(log) + [Op.Put(key, data)]
      ensures objects == old(objects)[key := RemoteObj(key, data, etag(data), now)]
    {
      log := log + [Op.Put(key, data)];
      objects := objects[key := RemoteObj(key, data, etag(data), now)];
    }

    /** Key.delete */
    method Delete(key: string)
      requires Valid()
      modifies this
      ensures Valid() && log == old(log) + [Op.Delete(key)]
      ensures objects == old(objects) - {key}
    {
      log := log + [Op.Delete(key)];
      objects := objects - {key};
    }

    /** Bucket.list(prefix=...): the objects whose key starts with the prefix,
        each once. S3's key order is not modelled: the result is some
        enumeration of them. */
    method List(prefix: string) returns (items: seq<RemoteObj>)
      requires Valid()
      ensures IsListing(objects, prefix, items)
    {
      ApplyAllKeyed(initial, log, etag, now);
      items := Enumerate(objects, prefix);
    }
  }

  /** Some enumeration of the objects under `prefix`. */
  method Enumerate(objects: map<string, RemoteObj>, prefix: string) returns (items: seq<RemoteObj>)
    requires Keyed(objects)
    ensures IsListing(objects, prefix, items)
  {
    var pending := set k | k in objects && StartsWith(k, prefix);
    items := [];
    while pending != {}
      invariant pending <= objects.Keys
      invariant forall k :: k in pending ==> StartsWith(k, prefix)
      invariant forall i :: 0 <= i < |items| ==>
        items[i].key in objects && objects[items[i].key] == items[i] && StartsWith(items[i].key, prefix)
      invariant forall i :: 0 <= i < |items| ==> items[i].key !in pending
      invariant forall k :: k in objects && StartsWith(k, prefix) && k !in pending ==>
        exists i :: 0 <= i < |items| && items[i].key == k
      invariant forall i, j :: 0 <= i < j < |items| ==> items[i].key != items[j].key
      decreases pending
    {
      var k :| k in pending;
      assert objects[k].key == k;
      var prev := items;
      items := items + [objects[k]];
      pending := pending - {k};
      forall k' | k' in objects && StartsWith(k', prefix) && k' !in pending
        ensures exists i :: 0 <= i < |items| && items[i].key == k'
      {
        if k' == k {
          assert items[|prev|].key == k';
        } else {
          var i :| 0 <= i < |prev| && prev[i].key == k';
          assert items[i].key == k';
        }
      }
    }
  }
}

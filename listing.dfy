// list_metadata and list_rpms of s3yum/s3yum_cli.py: a prefix listing of the
// bucket, filtered into the context's metadata and package lists.

module Listing {
  import opened Wrappers
  import opened Text
  import opened Paths
  import opened Remote
  import opened Session
  import opened Transfer

  /** The listed items list_metadata keeps: every one that is not a folder
      marker, in listing order. */
  function KeepMetadata(items: seq<RemoteObj>): (kept: seq<RemoteObj>)
    ensures |kept| <= |items|
    ensures forall i :: 0 <= i < |kept| ==> !IsFolderKey(kept[i].key) && kept[i] in items
    decreases |items|
  {
    if items == [] then []
    else
      var front := KeepMetadata(items[..|items| - 1]);
      var last := items[|items| - 1];
      if IsFolderKey(last.key) then front else front + [last]
  }

  /** The listed items list_rpms keeps: every one whose key ends in '.rpm'. */
  function KeepRpms(items: seq<RemoteObj>): (kept: seq<RemoteObj>)
    ensures |kept| <= |items|
    ensures forall i :: 0 <= i < |kept| ==> EndsWith(kept[i].key, ".rpm") && kept[i] in items
    decreases |items|
  {
    if items == [] then []
    else
      var front := KeepRpms(items[..|items| - 1]);
      var last := items[|items| - 1];
      if EndsWith(last.key, ".rpm") then front + [last] else front
  }

  /** list_metadata keeps exactly the listed items that are not folder markers. */
  lemma {:induction false} KeepMetadataExact(items: seq<RemoteObj>, x: RemoteObj)
    ensures x in KeepMetadata(items) <==> x in items && !IsFolderKey(x.key)
    decreases |items|
  {
    if items != [] {
      var front := items[..|items| - 1];
      KeepMetadataExact(front, x);
      assert items == front + [items[|items| - 1]];
    }
  }

  /** list_rpms keeps exactly the listed items whose key ends in '.rpm'. */
  lemma {:induction false} KeepRpmsExact(items: seq<RemoteObj>, x: RemoteObj)
    ensures x in KeepRpms(items) <==> x in items && EndsWith(x.key, ".rpm")
    decreases |items|
  {
    if items != [] {
      var front := items[..|items| - 1];
      KeepRpmsExact(front, x);
      assert items == front + [items[|items| - 1]];
    }
  }

  /** The metadata listing of a bucket: exactly the stored objects under
      s3join(path, 'repodata') that are not folder markers. */
  lemma MetadataListing(objects: map<string, RemoteObj>, path: string, listing: seq<RemoteObj>, x: RemoteObj)
    requires IsListing(objects, S3Join([path, Repodata]), listing)
    ensures x in KeepMetadata(listing) <==>
              x.key in objects && objects[x.key] == x && StartsWith(x.key, S3Join([path, Repodata]))
              && !IsFolderKey(x.key)
  {
    KeepMetadataExact(listing, x);
    if x.key in objects && objects[x.key] == x && StartsWith(x.key, S3Join([path, Repodata])) {
      var i :| 0 <= i < |listing| && listing[i].key == x.key;
      assert listing[i] == x;
    }
  }

  /** The package listing of a bucket: exactly the stored objects under the
      repo path whose key ends in '.rpm'. */
  lemma RpmListing(objects: map<string, RemoteObj>, path: string, listing: seq<RemoteObj>, x: RemoteObj)
    requires IsListing(objects, path, listing)
    ensures x in KeepRpms(listing) <==>
              x.key in objects && objects[x.key] == x && StartsWith(x.key, path) && EndsWith(x.key, ".rpm")
  {
    KeepRpmsExact(listing, x);
    if x.key in objects && objects[x.key] == x && StartsWith(x.key, path) {
      var i :| 0 <= i < |listing| && listing[i].key == x.key;
      assert listing[i] == x;
    }
  }

  /** The package prefix is a plain string prefix: a repo at "dev" also picks
      up the packages of a sibling repo at "devel". */
  lemma SiblingRepoListed(objects: map<string, RemoteObj>, listing: seq<RemoteObj>, x: RemoteObj)
    requires x.key == "devel/x.rpm" && x.key in objects && objects[x.key] == x
    requires IsListing(objects, "dev", listing)
    ensures x in KeepRpms(listing)
  {
    assert EndsWith(x.key, ".rpm") by {
      assert x.key[|x.key| - 4..] == ".rpm";
    }
    assert StartsWith(x.key, "dev") by {
      assert x.key[..3] == "dev";
    }
    RpmListing(objects, "dev", listing, x);
  }

  /** list_metadata: the repodata prefix and the non-folder items under it.
      `listing` is the order in which the bucket listed them. */
  method ListMetadata(ctx: Context) returns (ghost listing: seq<RemoteObj>)
    requires ctx.store.Valid()
    modifies ctx
    ensures ctx.repodataPath == S3Join([ctx.opts.path, Repodata])
    ensures IsListing(ctx.store.objects, ctx.repodataPath, listing)
    ensures ctx.repodataItems == KeepMetadata(listing)
    ensures ctx.rpmItems == old(ctx.rpmItems) && ctx.workingDir == old(ctx.workingDir)
    ensures ctx.workingDirRepodata == old(ctx.workingDirRepodata)
  {
    ctx.repodataPath := S3Join([ctx.opts.path, Repodata]);
    var items := ctx.store.List(ctx.repodataPath);
    listing := items;
    ctx.repodataItems := [];
    var i := 0;
    while i < |items|
      invariant 0 <= i <= |items|
      invariant ctx.repodataItems == KeepMetadata(items[..i])
      invariant ctx.repodataPath == S3Join([ctx.opts.path, Repodata])
      invariant ctx.rpmItems == old(ctx.rpmItems) && ctx.workingDir == old(ctx.workingDir)
      invariant ctx.workingDirRepodata == old(ctx.workingDirRepodata)
    {
      assert items[..i + 1][..i] == items[..i];
      if !IsFolderKey(items[i].key) {
        ctx.repodataItems := ctx.repodataItems + [items[i]];
      }
      i := i + 1;
    }
    assert items[..i] == items;
  }

  /** list_rpms: the items under the repo path whose key ends in '.rpm'. */
  method ListRpms(ctx: Context) returns (ghost listing: seq<RemoteObj>)
    requires ctx.store.Valid()
    modifies ctx
    ensures IsListing(ctx.store.objects, ctx.opts.path, listing)
    ensures ctx.rpmItems == KeepRpms(listing)
    ensures ctx.repodataPath == old(ctx.repodataPath) && ctx.repodataItems == old(ctx.repodataItems)
    ensures ctx.workingDir == old(ctx.workingDir) && ctx.workingDirRepodata == old(ctx.workingDirRepodata)
  {
    var items := ctx.store.List(ctx.opts.path);
    listing := items;
    ctx.rpmItems := [];
    var i := 0;
    while i < |items|
      invariant 0 <= i <= |items|
      invariant ctx.rpmItems == KeepRpms(items[..i])
      invariant ctx.repodataPath == old(ctx.repodataPath) && ctx.repodataItems == old(ctx.repodataItems)
      invariant ctx.workingDir == old(ctx.workingDir) && ctx.workingDirRepodata == old(ctx.workingDirRepodata)
    {
      assert items[..i + 1][..i] == items[..i];
      if EndsWith(items[i].key, ".rpm") {
        ctx.rpmItems := ctx.rpmItems + [items[i]];
      }
      i := i + 1;
    }
    assert items[..i] == items;
  }
}

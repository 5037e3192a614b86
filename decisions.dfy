// The transfer decision rules of s3yum/s3yum_cli.py: should_download and
// should_upload. The file's existence, contents and modification time come
// from the local entry; the remote side's checksum and Last-Modified text come
// from the remote object.

module Decisions {
  import opened Wrappers
  import opened S3Time
  import opened Md5
  import opened Remote
  import opened Local
  import opened Session

  /** s3time_as_datetime of the item's Last-Modified text; its exception is
      not one the module converts. */
  function RemoteTime(item: RemoteObj): (r: Result<DateTime, Error>)
    ensures r.Success? ==> Valid(r.value)
    ensures r.Failure? ==> r.error == Other(BadTime(NoMatchingFormat(item.lastModified)))
  {
    match S3TimeAsDatetime(item.lastModified)
    case Success(t) => Success(t)
    case Failure(e) => Failure(Other(BadTime(e)))
  }

  /** should_download(item, filepath, force): `local` is what `filepath` names.
      The steps run in the source's order: existence, the remote time (which
      may raise), then the local checksum (an IOError on a directory). */
  function ShouldDownload(item: RemoteObj, filepath: string, local: Option<Entry>, force: bool, digest: Digest)
    : (r: Result<bool, Error>)
    ensures force || local.None? ==> r == Success(true)
    ensures !force && local.Some? && r == Success(true) ==>
              local.value.File? && !Matches(local.value.data, item.md5, digest)
              && RemoteTime(item).Success? && AtOrAfter(RemoteTime(item).value, local.value.mtime)
    ensures r.Failure? ==>
              !force && local.Some? &&
              (if RemoteTime(item).Failure? then r.error == RemoteTime(item).error
               else local.value.SubDir? && r.error == IOError(filepath))
  {
    if force || local.None? then Success(true)
    else
      var remoteTime :- RemoteTime(item);
      match local.value
      case SubDir => Failure(IOError(filepath))
      case File(data, mtime) => Success(!Matches(data, item.md5, digest) && AtOrAfter(remoteTime, mtime))
  }

  /** should_upload(filepath, item, force): `remote` is the check item with the
      file's base name, if any. */
  function ShouldUpload(data: seq<byte>, mtime: DateTime, remote: Option<RemoteObj>, force: bool, digest: Digest)
    : (r: Result<bool, Error>)
    ensures force || remote.None? ==> r == Success(true)
    ensures !force && remote.Some? && r == Success(true) ==>
              !Matches(data, remote.value.md5, digest)
              && RemoteTime(remote.value).Success? && AtOrAfter(mtime, RemoteTime(remote.value).value)
    ensures r.Failure? ==> !force && remote.Some? && RemoteTime(remote.value) == Failure(r.error)
  {
    if force || remote.None? then Success(true)
    else match RemoteTime(remote.value)
      case Failure(e) => Failure(e)
      case Success(remoteTime) => Success(!Matches(data, remote.value.md5, digest) && AtOrAfter(mtime, remoteTime))
  }

  // ---------------------------------------------------------------------
  // The download decision table
  // ---------------------------------------------------------------------

  /** Forced or missing: always download, without reading anything. */
  lemma DownloadForcedOrMissing(item: RemoteObj, filepath: string, local: Option<Entry>, force: bool, digest: Digest)
    requires force || local.None?
    ensures ShouldDownload(item, filepath, local, force, digest) == Success(true)
  {
  }

  /** Otherwise, for a regular file whose remote time parses: download exactly
      when the checksums differ and the remote copy is at least as new. */
  lemma DownloadDecision(item: RemoteObj, data: seq<byte>, mtime: DateTime, remoteTime: DateTime, digest: Digest)
    requires S3TimeAsDatetime(item.lastModified) == Success(remoteTime)
    ensures ShouldDownload(item, "", Some(File(data, mtime)), false, digest)
         == Success(digest(data) != item.md5 && AtOrAfter(remoteTime, mtime))
  {
  }

  /** Equal checksums never download unless forced. */
  lemma DownloadEqualChecksums(item: RemoteObj, filepath: string, data: seq<byte>, mtime: DateTime, digest: Digest)
    requires digest(data) == item.md5
    ensures ShouldDownload(item, filepath, Some(File(data, mtime)), false, digest) != Success(true)
  {
  }

  /** Equal times favour the transfer. */
  lemma DownloadEqualTimes(item: RemoteObj, data: seq<byte>, digest: Digest)
    requires digest(data) != item.md5
    requires S3TimeAsDatetime(item.lastModified).Success?
    ensures ShouldDownload(item, "", Some(File(data, S3TimeAsDatetime(item.lastModified).value)), false, digest)
         == Success(true)
  {
  }

  /** A directory in the way: the remote time is read first, then the checksum
      read fails. */
  lemma DownloadOntoDirectory(item: RemoteObj, filepath: string, digest: Digest)
    ensures ShouldDownload(item, filepath, Some(SubDir), false, digest)
         == if S3TimeAsDatetime(item.lastModified).Success? then Failure(IOError(filepath))
            else Failure(Other(BadTime(NoMatchingFormat(item.lastModified))))
  {
  }

  // ---------------------------------------------------------------------
  // The upload decision table
  // ---------------------------------------------------------------------

  lemma UploadForcedOrMissing(data: seq<byte>, mtime: DateTime, remote: Option<RemoteObj>, force: bool, digest: Digest)
    requires force || remote.None?
    ensures ShouldUpload(data, mtime, remote, force, digest) == Success(true)
  {
  }

  lemma UploadDecision(data: seq<byte>, mtime: DateTime, item: RemoteObj, remoteTime: DateTime, digest: Digest)
    requires S3TimeAsDatetime(item.lastModified) == Success(remoteTime)
    ensures ShouldUpload(data, mtime, Some(item), false, digest)
         == Success(digest(data) != item.md5 && AtOrAfter(mtime, remoteTime))
  {
  }

  /** The remote copy is newer and the contents differ: the local file is not
      uploaded. */
  lemma UploadRemoteNewer(data: seq<byte>, mtime: DateTime, item: RemoteObj, digest: Digest)
    requires S3TimeAsDatetime(item.lastModified).Success?
    requires !AtOrAfter(mtime, S3TimeAsDatetime(item.lastModified).value)
    ensures ShouldUpload(data, mtime, Some(item), false, digest) == Success(false)
  {
  }

  /** For one file and one remote item whose contents differ, at least one
      direction transfers, and both do exactly when the two times are equal. */
  lemma DecisionsMirror(item: RemoteObj, data: seq<byte>, mtime: DateTime, digest: Digest)
    requires digest(data) != item.md5
    requires S3TimeAsDatetime(item.lastModified).Success?
    ensures var down := ShouldDownload(item, "", Some(File(data, mtime)), false, digest);
            var up := ShouldUpload(data, mtime, Some(item), false, digest);
            down.Success? && up.Success? && (down.value || up.value) &&
            (down.value && up.value <==> mtime == S3TimeAsDatetime(item.lastModified).value)
  {
    var t := S3TimeAsDatetime(item.lastModified).value;
    AtOrAfterTotalOrder(t, mtime, t);
  }

  // ---------------------------------------------------------------------
  // The cases of tests/test_downloads.py and tests/test_uploads.py
  // ---------------------------------------------------------------------

  function Midnight(year: nat): DateTime {
    DateTime(year, 1, 1, 0, 0, 0, 0)
  }

  /** The unforced download cases, with the remote time parsing to 1 January
      of `remoteYear` and the local file stamped 1 January of `localYear`: only
      differing checksums with the remote copy at least as new download. */
  lemma DownloadTestCases(item: RemoteObj, data: seq<byte>, digest: Digest, localYear: nat, remoteYear: nat)
    requires S3TimeAsDatetime(item.lastModified) == Success(Midnight(remoteYear))
    requires (localYear, remoteYear) in {(2014, 2015), (2015, 2015), (2015, 2014)}
    ensures ShouldDownload(item, "", Some(File(data, Midnight(localYear))), false, digest)
         == Success(digest(data) != item.md5 && localYear <= remoteYear)
  {
    DownloadDecision(item, data, Midnight(localYear), Midnight(remoteYear), digest);
  }

  /** The unforced upload cases: only differing checksums with the local file
      at least as new upload; differing checksums with the remote copy newer do
      not. */
  lemma UploadTestCases(item: RemoteObj, data: seq<byte>, digest: Digest, localYear: nat, remoteYear: nat)
    requires S3TimeAsDatetime(item.lastModified) == Success(Midnight(remoteYear))
    requires (localYear, remoteYear) in {(2014, 2015), (2015, 2015), (2015, 2014)}
    ensures ShouldUpload(data, Midnight(localYear), Some(item), false, digest)
         == Success(digest(data) != item.md5 && localYear >= remoteYear)
  {
    UploadDecision(data, Midnight(localYear), item, Midnight(remoteYear), digest);
  }
}

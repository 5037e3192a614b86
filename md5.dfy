// The checksum helpers of s3yum/util.py: get_file_md5 reads a file in fixed
// blocks and feeds each block to an incremental hasher; md5_matches compares
// the digest with a token. The MD5 function itself is a parameter.

module Md5 {

  newtype byte = x: int | 0 <= x < 256

  /** hashlib.md5(...).hexdigest() of a whole byte string. */
  type Digest = seq<byte> -> string

  /** The block size get_file_md5 reads with. */
  const BlockSize: nat := 65536

  /** md5_matches: the digest of the contents equals the given token. */
  predicate Matches(contents: seq<byte>, token: string, digest: Digest) {
    digest(contents) == token
  }

  /** An incremental hasher: what it reports is the digest of everything fed
      to it so far, in order. */
  class Hasher {
    var fed: seq<byte>
    const digest: Digest

    constructor(digest: Digest)
      ensures fed == [] && this.digest == digest
    {
      fed := [];
      this.digest := digest;
    }

    method Update(buf: seq<byte>)
      modifies this
      ensures fed == old(fed) + buf
    {
      fed := fed + buf;
    }

    function HexDigest(): string
      reads this
    {
      digest(fed)
    }
  }

  /** A file opened for reading: its contents and the read position. */
  class Reader {
    const data: seq<byte>
    var pos: nat

    constructor(data: seq<byte>)
      ensures this.data == data && pos == 0
    {
      this.data := data;
      pos := 0;
    }

    predicate Valid()
      reads this
    {
      pos <= |data|
    }

    /** file.read(n): at most n bytes from the position; empty only at the end. */
    method Read(n: nat) returns (buf: seq<byte>)
      requires Valid()
      modifies this
      ensures Valid()
      ensures pos == if old(pos) + n <= |data| then old(pos) + n else |data|
      ensures buf == data[old(pos)..pos]
    {
      var end := if pos + n <= |data| then pos + n else |data|;
      buf := data[pos..end];
      pos := end;
    }
  }

  /** get_file_md5: every byte of the file is fed to the hasher exactly once,
      in order, so the result is the digest of the whole contents. */
  method GetFileMd5(file: Reader, digest: Digest) returns (r: string, blocks: nat)
    requires file.Valid() && file.pos == 0
    modifies file
    ensures r == digest(file.data)
    ensures blocks * BlockSize - BlockSize < |file.data| <= blocks * BlockSize
  {
    var hasher := new Hasher(digest);
    var buf := file.Read(BlockSize);
    blocks := 0;
    while |buf| > 0
      invariant file.Valid()
      invariant hasher.fed + buf == file.data[..file.pos]
      invariant |buf| == 0 ==> file.pos == |file.data|
      invariant |buf| > 0 ==> |hasher.fed| == blocks * BlockSize
      invariant blocks * BlockSize - BlockSize < |hasher.fed| <= blocks * BlockSize
      invariant |buf| <= BlockSize && (|buf| < BlockSize ==> file.pos == |file.data|)
      decreases |file.data| - file.pos + |buf|
    {
      hasher.Update(buf);
      blocks := blocks + 1;
      buf := file.Read(BlockSize);
    }
    assert hasher.fed == file.data;
    r := hasher.HexDigest();
  }

  /** md5_matches over an opened file. */
  method FileMatches(file: Reader, token: string, digest: Digest) returns (m: bool)
    requires file.Valid() && file.pos == 0
    modifies file
    ensures m <==> Matches(file.data, token, digest)
  {
    var local, _ := GetFileMd5(file, digest);
    m := local == token;
  }
}
